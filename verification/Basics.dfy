/** Small vocabulary shared by every component of the model. */
module Basics {
  type byte = b: int | 0 <= b < 256

  /** Bus addresses and logical units: `1 << lun` is kept in a `uchar`, so both are below 8. */
  type Target = t: int | 0 <= t < 8
  type Lun = l: int | 0 <= l < 8

  function RemoveAt<T>(s: seq<T>, k: nat): (r: seq<T>)
    requires k < |s|
    ensures |r| == |s| - 1
    ensures multiset(r) == multiset(s) - multiset{s[k]}
  {
    assert s == s[..k] + [s[k]] + s[k + 1..];
    s[..k] + s[k + 1..]
  }

  /** The elements that two sequences share survive the removal of another one. */
  lemma RemoveAtKeeps<T>(s: seq<T>, k: nat)
    requires k < |s|
    ensures forall x :: x in RemoveAt(s, k) ==> x in s
    ensures forall x :: x in s && x != s[k] ==> x in RemoveAt(s, k)
  {
    forall x | x in s && x != s[k]
      ensures x in RemoveAt(s, k)
    {
      assert x in multiset(RemoveAt(s, k));
    }
  }
}
