/**
  Shuffling and searching. The components shuffle their tables with a random
  comparator; the model takes the resulting order as an input permutation of
  indices. `FirstIndex` is the left-to-right search behind `split` and `find`.
 */
module Lists {

  /** `perm` lists each index below `n` exactly once. */
  predicate IsPermutation(perm: seq<nat>, n: nat)
  {
    && |perm| == n
    && (forall i :: 0 <= i < n ==> perm[i] < n)
    && (forall i, j :: 0 <= i < j < n ==> perm[i] != perm[j])
  }

  /** The first `k` entries of `perm`, as a set. */
  function Image(perm: seq<nat>, k: nat): (image: set<nat>)
    requires k <= |perm|
    ensures forall i :: 0 <= i < k ==> perm[i] in image
    ensures forall j :: j in image ==> exists i :: 0 <= i < k && perm[i] == j
  {
    if k == 0 then {} else Image(perm, k - 1) + {perm[k - 1]}
  }

  /** Distinct entries give an image as large as the prefix. */
  lemma {:induction false} ImageSize(perm: seq<nat>, k: nat)
    requires k <= |perm| && forall i, j :: 0 <= i < j < |perm| ==> perm[i] != perm[j]
    ensures |Image(perm, k)| == k
  {
    if k > 0 {
      ImageSize(perm, k - 1);
      assert perm[k - 1] !in Image(perm, k - 1);
    }
  }

  /** The numbers below `k`, as a set. */
  function Below(k: nat): (below: set<nat>)
    ensures forall j: nat :: j in below <==> j < k
    ensures |below| == k
  {
    if k == 0 then {} else Below(k - 1) + {k - 1}
  }

  /** Pigeonhole: a permutation of the indices below `n` takes every one of them. */
  lemma PermutationCovers(perm: seq<nat>, n: nat)
    requires IsPermutation(perm, n)
    ensures forall j :: 0 <= j < n ==> j in perm
  {
    var image, below := Image(perm, n), Below(n);
    ImageSize(perm, n);
    assert image <= below;
    assert |below - image| == 0;
    forall j | 0 <= j < n ensures j in perm {
      assert j in below;
      assert j in image;
      var i :| 0 <= i < n && perm[i] == j;
    }
  }

  /** The table `s` rearranged so that position `i` holds `s[perm[i]]`: the same entries, in another order. */
  function Permute<T>(s: seq<T>, perm: seq<nat>): (r: seq<T>)
    requires IsPermutation(perm, |s|)
    ensures |r| == |s|
    ensures forall i :: 0 <= i < |r| ==> r[i] == s[perm[i]]
    ensures forall x :: x in r ==> x in s
    ensures forall x :: x in s ==> x in r
  {
    PermutationCovers(perm, |s|);
    var r := seq(|s|, i requires 0 <= i < |s| => s[perm[i]]);
    assert forall j :: 0 <= j < |s| ==> s[j] in r by {
      forall j | 0 <= j < |s| ensures s[j] in r {
        assert j in perm;
        var i :| 0 <= i < |perm| && perm[i] == j;
        assert r[i] == s[j];
      }
    }
    r
  }

  /** Position of the first `x` in `s`, or `|s|` when `x` does not occur. */
  function FirstIndex<T(==)>(s: seq<T>, x: T): (k: nat)
    ensures k <= |s|
    ensures k < |s| ==> s[k] == x
    ensures forall j :: 0 <= j < k ==> s[j] != x
  {
    if s == [] then 0
    else if s[0] == x then 0
    else 1 + FirstIndex(s[1..], x)
  }

  /** Appending never moves an occurrence that is already there: the first one stays first. */
  lemma {:induction false} FirstIndexAppend<T>(a: seq<T>, b: seq<T>, x: T)
    requires FirstIndex(a, x) < |a|
    ensures FirstIndex(a + b, x) == FirstIndex(a, x)
  {
    if a[0] != x {
      assert (a + b)[1..] == a[1..] + b;
      FirstIndexAppend(a[1..], b, x);
    }
  }
}
