/** The Python values that flow through the runner: decoded JSON results, profile fields,
    service return values. A dict keeps its insertion order, as Python's does, so it is a
    sequence of entries rather than a Dafny `map`. */
module PyValues {
  import Text

  datatype Value =
    | Null
    | Bool(b: bool)
    | Int(i: int)
    | Str(s: string)
    | List(items: seq<Value>)
    | Dict(entries: seq<Entry>)

  datatype Entry = Entry(key: string, value: Value)

  /** The exceptions the modelled code raises or lets through. */
  datatype Exc =
    | IndexError
    | ValueError
    | KeyError(key: string)
    | TypeError
    | AttributeError
    | OverflowError
    | OtherException(message: string)

  /** Python truthiness (`if data:`). */
  predicate Truthy(v: Value)
  {
    match v
    case Null => false
    case Bool(b) => b
    case Int(i) => i != 0
    case Str(s) => s != ""
    case List(items) => items != []
    case Dict(entries) => entries != []
  }

  function Keys(entries: seq<Entry>): seq<string>
  {
    seq(|entries|, i requires 0 <= i < |entries| => entries[i].key)
  }

  /** No key occurs twice: every dict Python builds has this shape. */
  predicate DistinctKeys(entries: seq<Entry>)
  {
    forall i, j :: 0 <= i < j < |entries| ==> entries[i].key != entries[j].key
  }

  /** Every dict inside `v`, at any depth, has distinct keys: the values a Python program
      can build, and the only ones `json.loads` gives back. */
  predicate WellFormed(v: Value)
  {
    match v
    case List(items) => forall i :: 0 <= i < |items| ==> WellFormed(items[i])
    case Dict(entries) => DistinctKeys(entries) && forall i :: 0 <= i < |entries| ==> WellFormed(entries[i].value)
    case _ => true
  }

  /** `d.get(key, default)` */
  function Get(entries: seq<Entry>, key: string, default: Value): (r: Value)
    ensures key !in Keys(entries) ==> r == default
  {
    if entries == [] then default
    else if entries[0].key == key then assert Keys(entries)[0] == key; entries[0].value
    else
      assert Keys(entries) == [entries[0].key] + Keys(entries[1..]);
      Get(entries[1..], key, default)
  }

  /** `d[key] = v`: an existing key keeps its position and takes the new value, a new key
      is appended at the end. */
  function Assign(entries: seq<Entry>, key: string, v: Value): (r: seq<Entry>)
  {
    if entries == [] then [Entry(key, v)]
    else if entries[0].key == key then [Entry(key, v)] + entries[1..]
    else [entries[0]] + Assign(entries[1..], key, v)
  }

  lemma {:induction false} AssignKeys(entries: seq<Entry>, key: string, v: Value)
    ensures key in Keys(entries) ==> Keys(Assign(entries, key, v)) == Keys(entries)
    ensures key !in Keys(entries) ==> Keys(Assign(entries, key, v)) == Keys(entries) + [key]
  {
    if entries != [] {
      assert Keys(entries) == [entries[0].key] + Keys(entries[1..]);
      AssignKeys(entries[1..], key, v);
      var r := Assign(entries, key, v);
      if entries[0].key == key {
        assert Keys(r) == [key] + Keys(entries[1..]);
      } else {
        assert Keys(r) == [entries[0].key] + Keys(Assign(entries[1..], key, v));
      }
    }
  }

  lemma {:induction false} AssignGet(entries: seq<Entry>, key: string, v: Value, k: string, default: Value)
    ensures Get(Assign(entries, key, v), k, default) == if k == key then v else Get(entries, k, default)
  {
    if entries != [] && entries[0].key != key {
      AssignGet(entries[1..], key, v, k, default);
    }
  }

  lemma {:induction false} AssignDistinct(entries: seq<Entry>, key: string, v: Value)
    requires DistinctKeys(entries)
    ensures DistinctKeys(Assign(entries, key, v))
  {
    if entries != [] {
      AssignDistinct(entries[1..], key, v);
      AssignKeys(entries[1..], key, v);
      var r := Assign(entries, key, v);
      assert Keys(entries) == [entries[0].key] + Keys(entries[1..]);
      if entries[0].key != key {
        var tail := Assign(entries[1..], key, v);
        forall j | 0 <= j < |entries| - 1 ensures Keys(entries[1..])[j] != entries[0].key {
          assert entries[j + 1].key != entries[0].key;
        }
        assert entries[0].key !in Keys(tail);
        forall i, j | 0 <= i < j < |r| ensures r[i].key != r[j].key {
          if i == 0 {
            assert r[j].key == Keys(tail)[j - 1];
          } else {
            assert r[i] == tail[i - 1] && r[j] == tail[j - 1];
          }
        }
      }
    }
  }

  /** `str(v)`. Strings inside containers are shown between single quotes, without the
      escaping Python's `repr` adds to quotes and control characters. */
  function Show(v: Value): string
    decreases v, 1
  {
    match v
    case Null => "None"
    case Bool(b) => if b then "True" else "False"
    case Int(i) => Text.IntToString(i)
    case Str(s) => s
    case List(items) => "[" + ShowItems(items) + "]"
    case Dict(entries) => "{" + ShowEntries(entries) + "}"
  }

  /** `repr(v)` as it appears inside a container. */
  function Repr(v: Value): string
    decreases v, 2
  {
    if v.Str? then "'" + v.s + "'" else Show(v)
  }

  function ShowItems(items: seq<Value>): string
    decreases items
  {
    if items == [] then ""
    else if |items| == 1 then Repr(items[0])
    else Repr(items[0]) + ", " + ShowItems(items[1..])
  }

  function ShowEntries(entries: seq<Entry>): string
    decreases entries
  {
    if entries == [] then ""
    else
      var e := entries[0];
      var shown := "'" + e.key + "': " + Repr(e.value);
      if |entries| == 1 then shown else shown + ", " + ShowEntries(entries[1..])
  }
}
