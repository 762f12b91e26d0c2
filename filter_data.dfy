/** `filter_data`: keep the records of a list (or the entries of a dict) whose field
    `filter_key`, rendered with `str` and lower-cased, equals the lower-cased
    `filter_value`. A record without the field is compared as the empty string. */
module Filtering {
  import opened Wrappers
  import opened PyValues
  import opened Seqs
  import Text

  /** `item.get(filter_key, '')` for a record that is a dict. */
  function Field(item: Value, key: string): Value
  {
    if item.Dict? then Get(item.entries, key, Str("")) else Str("")
  }

  /** `str(item.get(k, '')).lower() == str(v).lower()` */
  predicate Matches(item: Value, key: string, value: string)
  {
    Text.Lower(Show(Field(item, key))) == Text.Lower(value)
  }

  /** Every record is a dict, so `item.get` does not raise `AttributeError`. */
  predicate AllDicts(items: seq<Value>)
  {
    forall i :: 0 <= i < |items| ==> items[i].Dict?
  }

  predicate AllDictValues(entries: seq<Entry>)
  {
    forall i :: 0 <= i < |entries| ==> entries[i].value.Dict?
  }

  /** `filter_data(data, key, value)`; `Err` is the exception the comprehension raises. */
  function FilterData(data: Value, key: string, value: string): Result<Value, Exc>
  {
    match data
    case List(items) =>
      if AllDicts(items) then Ok(List(Where(items, x => Matches(x, key, value))))
      else Err(AttributeError)
    case Dict(entries) =>
      if AllDictValues(entries) then Ok(Dict(Where(entries, (e: Entry) => Matches(e.value, key, value))))
      else Err(AttributeError)
    case _ => Ok(data)
  }

  /** A list result holds exactly the matching records, in their original order and with
      every copy of each, and is never longer than the input; a record that is not a dict
      makes the call raise. */
  lemma FilterList(items: seq<Value>, key: string, value: string)
    ensures !AllDicts(items) ==> FilterData(List(items), key, value) == Err(AttributeError)
    ensures AllDicts(items) ==>
      && FilterData(List(items), key, value).Ok?
      && var r := FilterData(List(items), key, value).value;
      && r.List?
      && IsSubsequence(r.items, items)
      && |r.items| <= |items|
      && (forall x :: x in r.items <==> x in items && Matches(x, key, value))
      && (forall x :: multiset(r.items)[x] == if Matches(x, key, value) then multiset(items)[x] else 0)
  {
    if AllDicts(items) {
      var p := x => Matches(x, key, value);
      WhereIsSubsequence(items, p);
      forall x ensures x in Where(items, p) <==> x in items && Matches(x, key, value) {
        WhereMembership(items, p, x);
      }
      forall x ensures multiset(Where(items, p))[x] == if Matches(x, key, value) then multiset(items)[x] else 0 {
        WhereMultiset(items, p, x);
      }
    }
  }

  /** A dict result keeps exactly the entries whose record matches, with keys and values
      unchanged and in their original order. */
  lemma FilterDict(entries: seq<Entry>, key: string, value: string)
    ensures !AllDictValues(entries) ==> FilterData(Dict(entries), key, value) == Err(AttributeError)
    ensures AllDictValues(entries) ==>
      && FilterData(Dict(entries), key, value).Ok?
      && var r := FilterData(Dict(entries), key, value).value;
      && r.Dict?
      && IsSubsequence(r.entries, entries)
      && |r.entries| <= |entries|
      && (forall e :: e in r.entries <==> e in entries && Matches(e.value, key, value))
      && (forall e :: multiset(r.entries)[e] == if Matches(e.value, key, value) then multiset(entries)[e] else 0)
  {
    if AllDictValues(entries) {
      var p := (e: Entry) => Matches(e.value, key, value);
      WhereIsSubsequence(entries, p);
      forall e ensures e in Where(entries, p) <==> e in entries && Matches(e.value, key, value) {
        WhereMembership(entries, p, e);
      }
      forall e ensures multiset(Where(entries, p))[e] == if Matches(e.value, key, value) then multiset(entries)[e] else 0 {
        WhereMultiset(entries, p, e);
      }
    }
  }

  /** Anything that is neither a list nor a dict comes back unchanged. */
  lemma FilterOther(data: Value, key: string, value: string)
    requires !data.List? && !data.Dict?
    ensures FilterData(data, key, value) == Ok(data)
  {
  }

  /** Filtering the result again with the same key and value changes nothing. */
  lemma FilterIdempotent(data: Value, key: string, value: string)
    requires FilterData(data, key, value).Ok?
    ensures FilterData(FilterData(data, key, value).value, key, value) == FilterData(data, key, value)
  {
    match data {
      case List(items) =>
        var p := x => Matches(x, key, value);
        var r := Where(items, p);
        WhereIdempotent(items, p);
        forall i | 0 <= i < |r| ensures r[i].Dict? {
          WhereMembership(items, p, r[i]);
        }
      case Dict(entries) =>
        var p := (e: Entry) => Matches(e.value, key, value);
        var r := Where(entries, p);
        WhereIdempotent(entries, p);
        forall i | 0 <= i < |r| ensures r[i].value.Dict? {
          WhereMembership(entries, p, r[i]);
        }
      case _ =>
    }
  }

  /** The filter value is compared without regard to case. */
  lemma FilterIgnoresCase(data: Value, key: string, v1: string, v2: string)
    requires Text.Lower(v1) == Text.Lower(v2)
    ensures FilterData(data, key, v1) == FilterData(data, key, v2)
  {
    match data {
      case List(items) =>
        WhereCongruent(items, x => Matches(x, key, v1), x => Matches(x, key, v2));
      case Dict(entries) =>
        WhereCongruent(entries, (e: Entry) => Matches(e.value, key, v1), (e: Entry) => Matches(e.value, key, v2));
      case _ =>
    }
  }

  /** A record that lacks the field is kept exactly when the filter value is empty. */
  lemma MissingFieldMatchesOnlyEmpty(item: Value, key: string, value: string)
    requires item.Dict? && key !in Keys(item.entries)
    ensures Matches(item, key, value) <==> value == ""
  {
    if Matches(item, key, value) {
      assert |Text.Lower(value)| == |value|;
    }
  }
}
