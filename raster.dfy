/** What the rasterisers leave in one pixel, stated over the parallel
    index/value lists they are given. */
module Rasters {

  /** The total of vals[i] over the first n entries that are kept and
      aim at pixel (y, x): what a scatter-add adds to that pixel. */
  function HitSum(ys: seq<int>, xs: seq<int>, keep: seq<bool>, vals: seq<real>, n: nat, y: int, x: int): real
    requires n <= |ys| && n <= |xs| && n <= |keep| && n <= |vals|
  {
    if n == 0 then 0.0
    else HitSum(ys, xs, keep, vals, n - 1, y, x)
         + (if keep[n - 1] && ys[n - 1] == y && xs[n - 1] == x then vals[n - 1] else 0.0)
  }

  /** A mask that keeps every entry. */
  function KeepAll(n: nat): (k: seq<bool>)
    ensures |k| == n && forall i :: 0 <= i < n ==> k[i]
  {
    seq(n, _ => true)
  }

  /** An entry aims at pixel (y, x) and is kept. */
  predicate Aims(ys: seq<int>, xs: seq<int>, keep: seq<bool>, i: nat, y: int, x: int)
    requires i < |ys| && i < |xs| && i < |keep|
  {
    keep[i] && ys[i] == y && xs[i] == x
  }

  /** A pixel that no kept entry aims at receives nothing. */
  lemma {:induction false} HitSumMissed(ys: seq<int>, xs: seq<int>, keep: seq<bool>, vals: seq<real>, n: nat, y: int, x: int)
    requires n <= |ys| && n <= |xs| && n <= |keep| && n <= |vals|
    requires forall i :: 0 <= i < n ==> !Aims(ys, xs, keep, i, y, x)
    ensures HitSum(ys, xs, keep, vals, n, y, x) == 0.0
  {
    if n > 0 {
      assert !Aims(ys, xs, keep, n - 1, y, x);
      HitSumMissed(ys, xs, keep, vals, n - 1, y, x);
    }
  }

  /** Entries after the first n do not change the sum over the first n. */
  lemma {:induction false} HitSumPrefix(ys: seq<int>, xs: seq<int>, keep: seq<bool>, vals: seq<real>,
                                        ys2: seq<int>, xs2: seq<int>, keep2: seq<bool>, vals2: seq<real>, n: nat, y: int, x: int)
    requires n <= |ys| && n <= |xs| && n <= |keep| && n <= |vals|
    requires n <= |ys2| && n <= |xs2| && n <= |keep2| && n <= |vals2|
    requires ys[..n] == ys2[..n] && xs[..n] == xs2[..n] && keep[..n] == keep2[..n] && vals[..n] == vals2[..n]
    ensures HitSum(ys, xs, keep, vals, n, y, x) == HitSum(ys2, xs2, keep2, vals2, n, y, x)
  {
    if n > 0 {
      assert ys[n - 1] == ys[..n][n - 1] == ys2[n - 1];
      assert xs[n - 1] == xs[..n][n - 1] == xs2[n - 1];
      assert keep[n - 1] == keep[..n][n - 1] == keep2[n - 1];
      assert vals[n - 1] == vals[..n][n - 1] == vals2[n - 1];
      assert ys[..n - 1] == ys[..n][..n - 1];
      assert ys2[..n - 1] == ys2[..n][..n - 1];
      assert xs[..n - 1] == xs[..n][..n - 1];
      assert xs2[..n - 1] == xs2[..n][..n - 1];
      assert keep[..n - 1] == keep[..n][..n - 1];
      assert keep2[..n - 1] == keep2[..n][..n - 1];
      assert vals[..n - 1] == vals[..n][..n - 1];
      assert vals2[..n - 1] == vals2[..n][..n - 1];
      HitSumPrefix(ys, xs, keep, vals, ys2, xs2, keep2, vals2, n - 1, y, x);
    }
  }

  /** Scatter-adding list P and then list Q leaves what scatter-adding
      P ++ Q does: the sum over a concatenation is the sum of the sums. */
  lemma {:induction false} HitSumAppend(ys1: seq<int>, xs1: seq<int>, keep1: seq<bool>, vals1: seq<real>,
                                        ys2: seq<int>, xs2: seq<int>, keep2: seq<bool>, vals2: seq<real>, y: int, x: int)
    requires |xs1| == |ys1| && |keep1| == |ys1| && |vals1| == |ys1|
    requires |xs2| == |ys2| && |keep2| == |ys2| && |vals2| == |ys2|
    ensures HitSum(ys1 + ys2, xs1 + xs2, keep1 + keep2, vals1 + vals2, |ys1| + |ys2|, y, x)
         == HitSum(ys1, xs1, keep1, vals1, |ys1|, y, x) + HitSum(ys2, xs2, keep2, vals2, |ys2|, y, x)
    decreases |ys2|
  {
    var n1 := |ys1|;
    if |ys2| == 0 {
      assert ys1 + ys2 == ys1 && xs1 + xs2 == xs1 && keep1 + keep2 == keep1 && vals1 + vals2 == vals1;
    } else {
      var m := |ys2| - 1;
      var ys2', xs2', keep2', vals2' := ys2[..m], xs2[..m], keep2[..m], vals2[..m];
      HitSumAppend(ys1, xs1, keep1, vals1, ys2', xs2', keep2', vals2', y, x);
      HitSumPrefix(ys1 + ys2, xs1 + xs2, keep1 + keep2, vals1 + vals2,
                   ys1 + ys2', xs1 + xs2', keep1 + keep2', vals1 + vals2', n1 + m, y, x);
      HitSumPrefix(ys2, xs2, keep2, vals2, ys2', xs2', keep2', vals2', m, y, x);
    }
  }

  /** The order in which two contribution lists are added does not matter. */
  lemma HitSumCommutes(ys1: seq<int>, xs1: seq<int>, keep1: seq<bool>, vals1: seq<real>,
                       ys2: seq<int>, xs2: seq<int>, keep2: seq<bool>, vals2: seq<real>, y: int, x: int)
    requires |xs1| == |ys1| && |keep1| == |ys1| && |vals1| == |ys1|
    requires |xs2| == |ys2| && |keep2| == |ys2| && |vals2| == |ys2|
    ensures HitSum(ys1 + ys2, xs1 + xs2, keep1 + keep2, vals1 + vals2, |ys1| + |ys2|, y, x)
         == HitSum(ys2 + ys1, xs2 + xs1, keep2 + keep1, vals2 + vals1, |ys2| + |ys1|, y, x)
  {
    HitSumAppend(ys1, xs1, keep1, vals1, ys2, xs2, keep2, vals2, y, x);
    HitSumAppend(ys2, xs2, keep2, vals2, ys1, xs1, keep1, vals1, y, x);
  }

  /** What a scatter-write of the first n entries leaves in pixel (y, x)
      that held `init` before: the value of the last entry aimed at it,
      since later writes overwrite earlier ones. */
  function LastWrite(ys: seq<int>, xs: seq<int>, vals: seq<real>, n: nat, y: int, x: int, init: real): real
    requires n <= |ys| && n <= |xs| && n <= |vals|
  {
    if n == 0 then init
    else if ys[n - 1] == y && xs[n - 1] == x then vals[n - 1]
    else LastWrite(ys, xs, vals, n - 1, y, x, init)
  }

  /** A pixel no entry aims at keeps its value. */
  lemma {:induction false} LastWriteUntouched(ys: seq<int>, xs: seq<int>, vals: seq<real>, n: nat, y: int, x: int, init: real)
    requires n <= |ys| && n <= |xs| && n <= |vals|
    requires forall i :: 0 <= i < n ==> ys[i] != y || xs[i] != x
    ensures LastWrite(ys, xs, vals, n, y, x, init) == init
  {
    if n > 0 {
      LastWriteUntouched(ys, xs, vals, n - 1, y, x, init);
    }
  }

  /** A pixel that entries aim at holds the value of the last of them. */
  lemma {:induction false} LastWriteWins(ys: seq<int>, xs: seq<int>, vals: seq<real>, n: nat, y: int, x: int, init: real, j: nat)
    requires n <= |ys| && n <= |xs| && n <= |vals|
    requires j < n && ys[j] == y && xs[j] == x
    requires forall i :: j < i < n ==> ys[i] != y || xs[i] != x
    ensures LastWrite(ys, xs, vals, n, y, x, init) == vals[j]
  {
    if j < n - 1 {
      LastWriteWins(ys, xs, vals, n - 1, y, x, init, j);
    }
  }
}
