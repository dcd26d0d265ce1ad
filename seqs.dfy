/** Sequence operations that stand for the collection primitives the source
    relies on: Array.prototype.findIndex, a MongoDB `findOne` over a
    collection in natural order, and the deletion of one document. */
module Seqs {
  import opened Common

  /** The index of the first element satisfying `p`, or `None`. */
  function FirstIndex<T>(s: seq<T>, p: T -> bool): (r: Option<nat>)
    ensures r.Some? ==> r.value < |s| && p(s[r.value])
    ensures r.Some? ==> forall j :: 0 <= j < r.value ==> !p(s[j])
    ensures r.None? ==> forall j :: 0 <= j < |s| ==> !p(s[j])
  {
    if |s| == 0 then None
    else if p(s[0]) then Some(0)
    else match FirstIndex(s[1..], p)
      case None => None
      case Some(k) => Some(k + 1)
  }

  /** `r` can be obtained from `s` by deleting elements: the order of what
      is kept is the order in `s`. */
  predicate IsSubsequence<T(==)>(r: seq<T>, s: seq<T>)
    decreases |s|
  {
    |r| == 0 ||
    (|s| > 0 && ((r[0] == s[0] && IsSubsequence(r[1..], s[1..])) || IsSubsequence(r, s[1..])))
  }

  /** Every sequence is a subsequence of itself. */
  lemma {:induction false} SubsequenceOfSelf<T>(s: seq<T>)
    ensures IsSubsequence(s, s)
    decreases |s|
  {
    if |s| > 0 {
      SubsequenceOfSelf(s[1..]);
    }
  }

  /** `s` without its element at index `k`. */
  function RemoveAt<T>(s: seq<T>, k: nat): (r: seq<T>)
    requires k < |s|
    ensures |r| == |s| - 1
    ensures multiset(r) == multiset(s) - multiset{s[k]}
    ensures forall j :: 0 <= j < k ==> r[j] == s[j]
    ensures forall j :: k <= j < |r| ==> r[j] == s[j + 1]
  {
    assert s == s[..k] + [s[k]] + s[k + 1..];
    s[..k] + s[k + 1..]
  }

  /** Removing one element keeps the order of all the others. */
  lemma {:induction false} RemoveAtIsSubsequence<T>(s: seq<T>, k: nat)
    requires k < |s|
    ensures IsSubsequence(RemoveAt(s, k), s)
    decreases |s|
  {
    if k == 0 {
      assert RemoveAt(s, k) == s[1..];
      SubsequenceOfSelf(s[1..]);
    } else {
      assert RemoveAt(s, k)[1..] == RemoveAt(s[1..], k - 1);
      RemoveAtIsSubsequence(s[1..], k - 1);
    }
  }
}
