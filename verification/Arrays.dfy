/** Copying between arrays, and slices of slices. */
module Arrays {
  lemma SliceOfSlice<T>(s: seq<T>, i: nat, j: nat, k: nat, l: nat)
    requires i <= j <= |s| && k <= l <= j - i
    ensures s[i..j][k..l] == s[i + k..i + l]
  {
    var a, b := s[i..j][k..l], s[i + k..i + l];
    forall x | 0 <= x < |a| ensures a[x] == b[x] {
      assert s[i..j][k + x] == s[i + (k + x)];
    }
  }

  lemma SliceOfPrefix<T>(s: seq<T>, n: nat, i: nat, j: nat)
    requires i <= j <= n <= |s|
    ensures s[..n][i..j] == s[i..j]
  {
    var a, b := s[..n][i..j], s[i..j];
    forall x | 0 <= x < |a| ensures a[x] == b[x] {
      assert s[..n][i + x] == s[i + x];
    }
  }

  /** memcpy of n elements; everything else in the target stays. */
  method Copy<T>(src: array<T>, from: nat, n: nat, dst: array<T>, to: nat)
    requires src != dst && from + n <= src.Length && to + n <= dst.Length
    modifies dst
    ensures dst[to..to + n] == src[from..from + n]
    ensures forall i :: 0 <= i < dst.Length && !(to <= i < to + n) ==> dst[i] == old(dst[i])
  {
    for i := 0 to n
      invariant dst[to..to + i] == src[from..from + i]
      invariant forall k :: 0 <= k < dst.Length && !(to <= k < to + i) ==> dst[k] == old(dst[k])
    {
      dst[to + i] := src[from + i];
      assert dst[to..to + i + 1] == dst[to..to + i] + [src[from + i]];
      assert src[from..from + i + 1] == src[from..from + i] + [src[from + i]];
    }
  }

  lemma SameSlice<T>(a: seq<T>, b: seq<T>, i: nat, j: nat)
    requires i <= j <= |a| == |b| && forall k :: i <= k < j ==> a[k] == b[k]
    ensures a[i..j] == b[i..j]
  {
  }

  lemma SliceJoins<T>(s: seq<T>, i: nat, j: nat, k: nat)
    requires i <= j <= k <= |s|
    ensures s[i..k] == s[i..j] + s[j..k]
  {
  }
}
