/** Subsequences: what survives of a list when some elements are dropped and none is reordered. */
module Subsequence {

  predicate IsSubseq<T(==)>(a: seq<T>, b: seq<T>) {
    || a == []
    || (b != [] && IsSubseq(a, b[..|b| - 1]))
    || (b != [] && a[|a| - 1] == b[|b| - 1] && IsSubseq(a[..|a| - 1], b[..|b| - 1]))
  }

  lemma Snoc<T>(a: seq<T>, b: seq<T>, x: T)
    requires IsSubseq(a, b)
    ensures IsSubseq(a + [x], b + [x]) && IsSubseq(a, b + [x])
  {
    assert (a + [x])[..|a|] == a && (b + [x])[..|b|] == b;
  }

  lemma {:induction false} RemoveOne<T>(a: seq<T>, i: nat, b: seq<T>)
    requires i < |a| && IsSubseq(a, b)
    ensures IsSubseq(a[..i] + a[i + 1..], b)
    decreases |b|
  {
    var n, m := |a| - 1, |b| - 1;
    if IsSubseq(a, b[..m]) {
      RemoveOne(a, i, b[..m]);
    } else if i == n {
      assert a[..i] + a[i + 1..] == a[..n];
    } else {
      RemoveOne(a[..n], i, b[..m]);
      var shorter := a[..i] + a[i + 1..];
      assert shorter[..n - 1] == a[..n][..i] + a[..n][i + 1..];
    }
  }

  lemma {:induction false} RemoveMiddle<T>(left: seq<T>, middle: seq<T>, right: seq<T>, b: seq<T>)
    requires IsSubseq(left + middle + right, b)
    ensures IsSubseq(left + right, b)
    decreases |middle|
  {
    var a := left + middle + right;
    if middle == [] {
      assert a == left + right;
    } else {
      RemoveOne(a, |left|, b);
      assert a[..|left|] + a[|left| + 1..] == left + middle[1..] + right;
      RemoveMiddle(left, middle[1..], right, b);
    }
  }

  lemma {:induction false} SameLengthSame<T>(a: seq<T>, b: seq<T>)
    requires IsSubseq(a, b)
    ensures |a| <= |b| && (|a| == |b| ==> a == b)
    decreases |b|
  {
    if a != [] {
      var n, m := |a| - 1, |b| - 1;
      if IsSubseq(a, b[..m]) {
        SameLengthSame(a, b[..m]);
      } else {
        SameLengthSame(a[..n], b[..m]);
        assert a == a[..n] + [a[n]] && b == b[..m] + [b[m]];
      }
    }
  }
}
