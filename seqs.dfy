/** Order-preserving selection from a list, the shape every `filter` in the
    storefront has. */
module Seqs {

  /** `a` is `b` with some elements left out, the rest in their order. */
  predicate IsSubsequence<T(==)>(a: seq<T>, b: seq<T>)
    decreases |b|
  {
    if a == [] then true
    else if b == [] then false
    else if a[0] == b[0] then IsSubsequence(a[1..], b[1..])
    else IsSubsequence(a, b[1..])
  }

  /** Dropping the last element of `b`, or keeping it as the last element of
      `a`, preserves being a subsequence. */
  lemma {:induction false} SubsequenceSnoc<T>(a: seq<T>, b: seq<T>, x: T, keep: bool)
    requires IsSubsequence(a, b)
    ensures IsSubsequence(if keep then a + [x] else a, b + [x])
    decreases |b|
  {
    var a' := if keep then a + [x] else a;
    if b == [] {
      assert a == [];
      if keep {
        assert a' == [x] && (b + [x]) == [x];
        assert a'[1..] == [];
      }
    } else if a == [] {
      assert (b + [x])[1..] == b[1..] + [x];
      assert IsSubsequence(a, b[1..]);
      SubsequenceSnoc(a, b[1..], x, keep);
      if keep {
        assert a' == [x];
      }
    } else if a[0] == b[0] {
      assert (b + [x])[1..] == b[1..] + [x];
      assert a'[1..] == (if keep then a[1..] + [x] else a[1..]);
      SubsequenceSnoc(a[1..], b[1..], x, keep);
    } else {
      assert (b + [x])[1..] == b[1..] + [x];
      SubsequenceSnoc(a, b[1..], x, keep);
    }
  }

  /** `Array.prototype.filter`: the elements that pass `keep`, in order. */
  function Filter<T(==,!new)>(s: seq<T>, keep: T -> bool): (r: seq<T>)
    ensures forall k :: 0 <= k < |r| ==> keep(r[k])
    ensures forall x :: x in r ==> x in s
    ensures forall k :: 0 <= k < |s| && keep(s[k]) ==> s[k] in r
    ensures IsSubsequence(r, s)
    ensures forall x {:trigger multiset(r)[x]} :: multiset(r)[x] == if keep(x) then multiset(s)[x] else 0
    decreases |s|
  {
    if s == [] then []
    else
      var front, last := s[..|s| - 1], s[|s| - 1];
      var m := Filter(front, keep);
      assert s == front + [last];
      assert m + (if keep(last) then [last] else []) == (if keep(last) then m + [last] else m);
      SubsequenceSnoc(m, front, last, keep(last));
      var r := m + (if keep(last) then [last] else []);
      assert forall k :: 0 <= k < |r| ==> r[k] == last || r[k] == m[k];
      assert multiset(s) == multiset(front) + multiset{last};
      r
  }

  /** Filtering keeps everything exactly when every element passes. */
  lemma {:induction false} FilterKeepsAllIffAllPass<T(!new)>(s: seq<T>, keep: T -> bool)
    ensures Filter(s, keep) == s <==> forall k :: 0 <= k < |s| ==> keep(s[k])
    decreases |s|
  {
    if s != [] {
      var front := s[..|s| - 1];
      FilterKeepsAllIffAllPass(front, keep);
      assert s == front + [s[|s| - 1]];
      if Filter(s, keep) == s {
        assert |Filter(front, keep)| <= |front| by { SubsequenceLength(Filter(front, keep), front); }
      }
    }
  }

  /** A subsequence is never longer than the sequence. */
  lemma {:induction false} SubsequenceLength<T>(a: seq<T>, b: seq<T>)
    requires IsSubsequence(a, b)
    ensures |a| <= |b|
    decreases |b|
  {
    if a != [] {
      if a[0] == b[0] {
        SubsequenceLength(a[1..], b[1..]);
      } else {
        SubsequenceLength(a, b[1..]);
      }
    }
  }

  /** Every sequence is a subsequence of itself. */
  lemma {:induction false} SubsequenceOfSelf<T>(s: seq<T>)
    ensures IsSubsequence(s, s)
    decreases |s|
  {
    if s != [] {
      SubsequenceOfSelf(s[1..]);
    }
  }
}
