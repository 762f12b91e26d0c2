/** Order-preserving selection over sequences: the shape of a Python list comprehension
    with an `if` clause (and of a dict comprehension over `items()`). */
module Seqs {

  /** The elements of `s` that satisfy `p`, in their original order. */
  function Where<T>(s: seq<T>, p: T -> bool): seq<T>
  {
    if s == [] then [] else (if p(s[0]) then [s[0]] else []) + Where(s[1..], p)
  }

  /** `a` can be obtained from `b` by deleting elements. */
  predicate IsSubsequence<T(==)>(a: seq<T>, b: seq<T>)
  {
    if b == [] then a == []
    else (a != [] && a[0] == b[0] && IsSubsequence(a[1..], b[1..])) || IsSubsequence(a, b[1..])
  }

  /** The selection keeps the input's order and never grows it. */
  lemma {:induction false} WhereIsSubsequence<T>(s: seq<T>, p: T -> bool)
    ensures IsSubsequence(Where(s, p), s)
    ensures |Where(s, p)| <= |s|
  {
    if s != [] {
      WhereIsSubsequence(s[1..], p);
      var rest := Where(s[1..], p);
      var a := Where(s, p);
      if p(s[0]) {
        assert a == [s[0]] + rest;
        assert a[1..] == rest;
        assert a != [] && a[0] == s[0] && IsSubsequence(a[1..], s[1..]);
      } else {
        assert a == rest;
        assert IsSubsequence(a, s[1..]);
      }
    }
  }

  /** Membership in the selection: exactly the elements of `s` that satisfy `p`. */
  lemma {:induction false} WhereMembership<T>(s: seq<T>, p: T -> bool, x: T)
    ensures x in Where(s, p) <==> x in s && p(x)
  {
    if s != [] {
      WhereMembership(s[1..], p, x);
      assert s == [s[0]] + s[1..];
    }
  }

  /** The selection keeps every copy of a selected element and no copy of any other. */
  lemma {:induction false} WhereMultiset<T>(s: seq<T>, p: T -> bool, x: T)
    ensures multiset(Where(s, p))[x] == if p(x) then multiset(s)[x] else 0
  {
    if s != [] {
      WhereMultiset(s[1..], p, x);
      assert s == [s[0]] + s[1..];
    }
  }

  /** Selecting twice with the same test selects nothing more. */
  lemma {:induction false} WhereIdempotent<T>(s: seq<T>, p: T -> bool)
    ensures Where(Where(s, p), p) == Where(s, p)
  {
    if s != [] {
      WhereIdempotent(s[1..], p);
      var rest := Where(s[1..], p);
      var a := Where(s, p);
      if p(s[0]) {
        assert a == [s[0]] + rest;
        assert a != [] && a[0] == s[0] && a[1..] == rest;
        calc {
          Where(a, p);
          [a[0]] + Where(a[1..], p);
          [s[0]] + Where(rest, p);
          [s[0]] + rest;
        }
      } else {
        assert a == rest;
      }
    }
  }

  /** The selection depends on `p` only through its values on `s`. */
  lemma {:induction false} WhereCongruent<T>(s: seq<T>, p: T -> bool, q: T -> bool)
    requires forall i :: 0 <= i < |s| ==> p(s[i]) == q(s[i])
    ensures Where(s, p) == Where(s, q)
  {
    if s != [] {
      WhereCongruent(s[1..], p, q);
    }
  }
}
