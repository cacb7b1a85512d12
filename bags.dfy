/** The managers keep their records in Python sets of objects that define
    no equality of their own, so two records with the same attributes are
    still two members. A record collection is therefore a sequence whose
    positions stand for object identities, and its contents are compared as
    multisets. */
module Bags {

  /** The elements of `s` that satisfy `keep`, in order: what a list
      comprehension with an `if` keeps. Each element keeps its multiplicity
      when it is kept. */
  function Filter<T(!new)>(s: seq<T>, keep: T -> bool): (r: seq<T>)
    ensures forall x :: multiset(r)[x] == if keep(x) then multiset(s)[x] else 0
    ensures |r| <= |s|
  {
    if s == [] then []
    else
      var front := Filter(s[..|s| - 1], keep);
      var x := s[|s| - 1];
      assert s == s[..|s| - 1] + [x];
      if keep(x) then front + [x] else front
  }

  /** A filter with a stronger condition keeps no more of anything. */
  lemma FilterNarrows<T(!new)>(s: seq<T>, weak: T -> bool, strong: T -> bool)
    requires forall x :: strong(x) ==> weak(x)
    ensures multiset(Filter(s, strong)) <= multiset(Filter(s, weak))
  {
    var a, b := Filter(s, strong), Filter(s, weak);
    forall x ensures multiset(a)[x] <= multiset(b)[x] {
      if strong(x) {
        assert weak(x);
      }
    }
  }

  /** A prefix of a one-longer prefix, stated once for any element type so
      that callers need not compare sequences element by element. */
  lemma PrefixOfPrefix<T>(s: seq<T>, k: nat)
    requires k < |s|
    ensures s[..k + 1][..k] == s[..k]
  {
  }

  /** The prefix of full length is the sequence itself. */
  lemma WholePrefix<T>(s: seq<T>)
    ensures s[..|s|] == s
  {
  }

  /** A one-longer prefix is the prefix and the next element. */
  lemma PrefixSnoc<T>(s: seq<T>, k: nat)
    requires k < |s|
    ensures s[..k + 1] == s[..k] + [s[k]]
  {
  }
}
