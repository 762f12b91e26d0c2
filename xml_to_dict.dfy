/** `xml_to_dict` of `src/xml_to_json.py`: an element tree turned into nested dicts keyed
    by the tags of each element's children. */
module XmlToDict {
  import opened Wrappers
  import opened PyValues

  /** An `xml.etree.ElementTree.Element`: its tag, its text (`None` when it has none), its
      attributes and its children in document order. */
  datatype Element = Element(tag: string, text: Option<string>, attrib: map<string, string>, children: seq<Element>)

  function TextValue(text: Option<string>): Value
  {
    match text
    case None => Null
    case Some(s) => Str(s)
  }

  /** What a child contributes under its tag: its text when it has no children, its own
      conversion otherwise. */
  function ChildValue(child: Element): Value
    decreases child, 0
  {
    if |child.children| == 0 then TextValue(child.text)
    else Dict(Fold(child.children, |child.children|))
  }

  /** The dict after the loop has visited the first `n` children, each assigned under its
      tag in document order. */
  function Fold(children: seq<Element>, n: nat): seq<Entry>
    requires n <= |children|
    decreases children, n
  {
    if n == 0 then []
    else Assign(Fold(children, n - 1), children[n - 1].tag, ChildValue(children[n - 1]))
  }

  /** `xml_to_dict(element)` */
  function Convert(e: Element): (r: Value)
    ensures r.Dict?
    ensures e.children == [] ==> r == Dict([])
  {
    Dict(Fold(e.children, |e.children|))
  }

  /** `xml_to_dict(element)` as the source computes it: a loop over the children filling
      `result`, recursing into children that have children of their own. */
  method XmlToDictOf(e: Element) returns (r: Value)
    ensures r == Convert(e)
    decreases e
  {
    var result: seq<Entry> := [];
    for i := 0 to |e.children|
      invariant result == Fold(e.children, i)
    {
      var child := e.children[i];
      if |child.children| == 0 {
        result := Assign(result, child.tag, TextValue(child.text));
      } else {
        var sub := XmlToDictOf(child);
        result := Assign(result, child.tag, sub);
      }
    }
    return Dict(result);
  }

  /** The index of the last of the first `n` children with tag `k`. */
  function LastWithTag(children: seq<Element>, n: nat, k: string): (r: Option<nat>)
    requires n <= |children|
    ensures r.None? <==> forall j :: 0 <= j < n ==> children[j].tag != k
    ensures r.Some? ==>
      r.value < n && children[r.value].tag == k && forall l :: r.value < l < n ==> children[l].tag != k
  {
    if n == 0 then None
    else if children[n - 1].tag == k then Some(n - 1)
    else LastWithTag(children, n - 1, k)
  }

  /** The keys of the result are exactly the tags of the children. */
  lemma {:induction false} FoldKeys(children: seq<Element>, n: nat, k: string)
    requires n <= |children|
    ensures k in Keys(Fold(children, n)) <==> exists j :: 0 <= j < n && children[j].tag == k
  {
    if n > 0 {
      FoldKeys(children, n - 1, k);
      var prev := Fold(children, n - 1);
      AssignKeys(prev, children[n - 1].tag, ChildValue(children[n - 1]));
      if k == children[n - 1].tag {
        assert k in Keys(Fold(children, n)) by {
          assert k in Keys(prev) + [k];
        }
      } else {
        if exists j :: 0 <= j < n && children[j].tag == k {
          var j :| 0 <= j < n && children[j].tag == k;
          assert j < n - 1;
        }
      }
    }
  }

  /** No tag appears twice among the keys. */
  lemma {:induction false} FoldDistinct(children: seq<Element>, n: nat)
    requires n <= |children|
    ensures DistinctKeys(Fold(children, n))
  {
    if n > 0 {
      FoldDistinct(children, n - 1);
      AssignDistinct(Fold(children, n - 1), children[n - 1].tag, ChildValue(children[n - 1]));
    }
  }

  /** Looking a tag up gives the value of the last child with that tag: later children
      overwrite earlier ones. */
  lemma {:induction false} FoldGet(children: seq<Element>, n: nat, k: string, default: Value)
    requires n <= |children|
    ensures Get(Fold(children, n), k, default)
      == match LastWithTag(children, n, k)
         case None => default
         case Some(j) => ChildValue(children[j])
  {
    if n > 0 {
      FoldGet(children, n - 1, k, default);
      AssignGet(Fold(children, n - 1), children[n - 1].tag, ChildValue(children[n - 1]), k, default);
    }
  }

  /** The keys of `xml_to_dict(e)` are the tags of `e`'s children, none twice, and each
      maps to the value of the last child with that tag; a missing tag is not a key. */
  lemma ConvertShape(e: Element, k: string)
    ensures var d := Convert(e).entries;
      && DistinctKeys(d)
      && (k in Keys(d) <==> exists j :: 0 <= j < |e.children| && e.children[j].tag == k)
      && (forall j :: (0 <= j < |e.children| && e.children[j].tag == k
                         && forall l :: j < l < |e.children| ==> e.children[l].tag != k) ==>
            Get(d, k, Null) == ChildValue(e.children[j]))
  {
    FoldDistinct(e.children, |e.children|);
    FoldKeys(e.children, |e.children|, k);
    FoldGet(e.children, |e.children|, k, Null);
  }

  /** The element's own text and attributes do not reach the result. */
  lemma ConvertIgnoresTextAndAttributes(e: Element, text: Option<string>, attrib: map<string, string>)
    ensures Convert(e.(text := text, attrib := attrib)) == Convert(e)
  {
  }

  /** `<root><a>1</a><b><c>2</c></b><a>3</a></root>` becomes `{'a': '3', 'b': {'c': '2'}}`. */
  lemma NestedExample()
    ensures Convert(Element("root", None, map[], [
        Element("a", Some("1"), map[], []),
        Element("b", None, map[], [Element("c", Some("2"), map[], [])]),
        Element("a", Some("3"), map[], [])]))
      == Dict([Entry("a", Str("3")), Entry("b", Dict([Entry("c", Str("2"))]))])
  {
    var c := Element("c", Some("2"), map[], []);
    var b := Element("b", None, map[], [c]);
    var children := [Element("a", Some("1"), map[], []), b, Element("a", Some("3"), map[], [])];
    assert Fold([c], 1) == [Entry("c", Str("2"))];
    assert Fold(children, 1) == [Entry("a", Str("1"))];
    var cb := Dict([Entry("c", Str("2"))]);
    assert ChildValue(b) == cb;
    assert [Entry("a", Str("1"))][1..] == [];
    assert Assign([Entry("a", Str("1"))], "b", cb) == [Entry("a", Str("1")), Entry("b", cb)];
    assert Fold(children, 2) == [Entry("a", Str("1")), Entry("b", cb)];
    assert ChildValue(children[2]) == Str("3");
    assert Assign([Entry("a", Str("1")), Entry("b", cb)], "a", Str("3")) == [Entry("a", Str("3")), Entry("b", cb)];
    assert Fold(children, 3) == [Entry("a", Str("3")), Entry("b", cb)];
  }
}
