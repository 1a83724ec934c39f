/**
  Lists and sets: Python's `strip`/`rstrip` on a list, the ends of joined
  lists, lists without repeated elements, and the size of a set's image
  under a one-to-one function.
*/
module Sequences {
  predicate NoDuplicates<T(==)>(s: seq<T>)
  {
    forall i, j :: 0 <= i < j < |s| ==> s[i] != s[j]
  }

  lemma {:induction false} NoDuplicatesCount<T>(a: seq<T>, x: T)
    requires NoDuplicates(a)
    ensures multiset(a)[x] <= 1
  {
    if a != [] {
      assert a == [a[0]] + a[1..];
      NoDuplicatesCount(a[1..], x);
      if a[0] == x {
        assert x !in a[1..];
      }
    }
  }

  /** A permutation of a duplicate-free list is duplicate-free. */
  lemma PermutationNoDuplicates<T>(a: seq<T>, b: seq<T>)
    requires multiset(a) == multiset(b) && NoDuplicates(a)
    ensures NoDuplicates(b)
  {
    forall i, j | 0 <= i < j < |b| ensures b[i] != b[j] {
      if b[i] == b[j] {
        assert b == b[..i] + [b[i]] + b[i + 1..j] + [b[j]] + b[j + 1..];
        NoDuplicatesCount(a, b[i]);
        assert false;
      }
    }
  }

  /** The first k elements of a + b are a's when a has that many. */
  lemma PrefixOfAppend<T>(a: seq<T>, b: seq<T>, k: nat)
    requires k <= |a|
    ensures (a + b)[..k] == a[..k]
  {
  }

  /** The last k elements of a + b are b's when b has that many. */
  lemma SuffixOfAppend<T>(a: seq<T>, b: seq<T>, k: nat)
    requires k <= |b|
    ensures (a + b)[|a + b| - k..] == b[|b| - k..]
  {
  }

  /** Python's `s.lstrip(chars)`: drop leading elements of `cs`. */
  function StripLeft<T(==)>(s: seq<T>, cs: set<T>): (r: seq<T>)
    ensures |r| <= |s|
    ensures r == [] || r[0] !in cs
  {
    if s != [] && s[0] in cs then StripLeft(s[1..], cs) else s
  }

  /** Python's `s.rstrip(chars)`: drop trailing elements of `cs`. */
  function StripRight<T(==)>(s: seq<T>, cs: set<T>): (r: seq<T>)
    ensures |r| <= |s|
    ensures r == [] || r[|r| - 1] !in cs
  {
    if s != [] && s[|s| - 1] in cs then StripRight(s[..|s| - 1], cs) else s
  }

  /** Python's `s.strip(chars)`. */
  function Strip<T(==)>(s: seq<T>, cs: set<T>): seq<T>
  {
    StripRight(StripLeft(s, cs), cs)
  }

  /** Neither end of `s` is an element to strip: `strip` changes nothing. */
  lemma StripNone<T>(s: seq<T>, cs: set<T>)
    requires s != [] && s[0] !in cs && s[|s| - 1] !in cs
    ensures Strip(s, cs) == s
  {
  }

  /** The image of a set under a one-to-one function is as large as the set. */
  lemma {:induction false} InjectiveImage<A, B>(s: set<A>, f: A -> B, image: set<B>)
    requires forall a, b :: a in s && b in s && f(a) == f(b) ==> a == b
    requires forall x :: x in s ==> f(x) in image
    requires forall y :: y in image ==> exists x :: x in s && f(x) == y
    ensures |image| == |s|
    decreases s
  {
    if s != {} {
      var a :| a in s;
      var rest := s - {a};
      var restImage := image - {f(a)};
      forall y | y in restImage ensures exists x :: x in rest && f(x) == y {
        var x :| x in s && f(x) == y;
      }
      InjectiveImage(rest, f, restImage);
      assert image == restImage + {f(a)};
    }
  }

  /** A list without repeats has as many distinct elements as it is long. */
  lemma {:induction false} DistinctSize<T>(s: seq<T>)
    requires NoDuplicates(s)
    ensures |set x | x in s| == |s|
  {
    if s != [] {
      DistinctSize(s[1..]);
      assert (set x | x in s) == (set x | x in s[1..]) + {s[0]};
      assert s[0] !in s[1..];
    }
  }
}
