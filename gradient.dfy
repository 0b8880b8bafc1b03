/** `dCost` of main.go: the averaged gradient of the logistic loss. */
module Gradient {
  import opened Scoring

  /** The gradient `dCost` returns: dw for the weights, db for the bias. */
  datatype GradientResult = GradientResult(dw: seq<real>, db: real)

  /** What `dCost` needs of its arguments so that no index goes out of range:
      every row has at most two columns (dw has length 2), and y and p have an
      entry for every row. */
  predicate Shaped(inputs: seq<seq<real>>, y: seq<real>, p: seq<real>)
  {
    RowsAtMost(inputs, 2) && |inputs| <= |y| && |inputs| <= |p|
  }

  /** The share of example i in dw[j]: x * diff / m with diff = p[i] - y[i]
      and m the number of rows; nothing when row i has no column j. */
  function TermW(inputs: seq<seq<real>>, y: seq<real>, p: seq<real>, i: nat, j: nat): real
    requires Shaped(inputs, y, p) && i < |inputs|
  {
    if j < |inputs[i]| then Share(inputs[i][j], p[i] - y[i], |inputs|) else 0.0
  }

  /** x * diff / m, the averaged share of one example in a batch of m rows. */
  function Share(x: real, diff: real, m: nat): real
    requires m > 0
  {
    x * diff / (m as real)
  }

  /** Σ_{i<k} TermW(i, j). */
  function SumW(inputs: seq<seq<real>>, y: seq<real>, p: seq<real>, j: nat, k: nat): real
    requires Shaped(inputs, y, p) && k <= |inputs|
  {
    if k == 0 then 0.0 else SumW(inputs, y, p, j, k - 1) + TermW(inputs, y, p, k - 1, j)
  }

  /** Σ_{i<k} (p[i] - y[i]) / m. */
  function SumB(inputs: seq<seq<real>>, y: seq<real>, p: seq<real>, k: nat): real
    requires Shaped(inputs, y, p) && k <= |inputs|
  {
    if k == 0 then 0.0 else SumB(inputs, y, p, k - 1) + Share(1.0, p[k - 1] - y[k - 1], |inputs|)
  }

  /** The j-th component of the gradient with respect to w. */
  function GradW(inputs: seq<seq<real>>, y: seq<real>, p: seq<real>, j: nat): real
    requires Shaped(inputs, y, p)
  {
    SumW(inputs, y, p, j, |inputs|)
  }

  /** The gradient with respect to b. */
  function GradB(inputs: seq<seq<real>>, y: seq<real>, p: seq<real>): real
    requires Shaped(inputs, y, p)
  {
    SumB(inputs, y, p, |inputs|)
  }

  /** The un-averaged error sums Σ_{i<k} (p[i] - y[i]) * x[i][j] and Σ_{i<k} (p[i] - y[i]). */
  function ErrorSumW(inputs: seq<seq<real>>, y: seq<real>, p: seq<real>, j: nat, k: nat): real
    requires Shaped(inputs, y, p) && k <= |inputs|
  {
    if k == 0 then 0.0
    else ErrorSumW(inputs, y, p, j, k - 1)
         + (if j < |inputs[k - 1]| then (p[k - 1] - y[k - 1]) * inputs[k - 1][j] else 0.0)
  }

  function ErrorSumB(inputs: seq<seq<real>>, y: seq<real>, p: seq<real>, k: nat): real
    requires Shaped(inputs, y, p) && k <= |inputs|
  {
    if k == 0 then 0.0 else ErrorSumB(inputs, y, p, k - 1) + (p[k - 1] - y[k - 1])
  }

  /** Adding shares of one batch adds their error terms. */
  lemma AddQuotients(s: real, es: real, t: real, e: real, m: real)
    requires m > 0.0 && s == es / m && t == e / m
    ensures s + t == (es + e) / m
  {
    assert (s + t) * m == es + e;
  }

  lemma ShareIsQuotient(x: real, diff: real, m: nat)
    requires m > 0
    ensures Share(x, diff, m) == (diff * x) / (m as real)
  {
    assert x * diff == diff * x;
  }

  lemma {:induction false} SumWIsScaledErrorSum(inputs: seq<seq<real>>, y: seq<real>, p: seq<real>, j: nat, k: nat)
    requires Shaped(inputs, y, p) && 0 < k <= |inputs|
    ensures SumW(inputs, y, p, j, k) == ErrorSumW(inputs, y, p, j, k) / (|inputs| as real)
  {
    var m := |inputs| as real;
    if k > 1 {
      SumWIsScaledErrorSum(inputs, y, p, j, k - 1);
    }
    var e := if j < |inputs[k - 1]| then (p[k - 1] - y[k - 1]) * inputs[k - 1][j] else 0.0;
    if j < |inputs[k - 1]| {
      ShareIsQuotient(inputs[k - 1][j], p[k - 1] - y[k - 1], |inputs|);
    }
    AddQuotients(SumW(inputs, y, p, j, k - 1), ErrorSumW(inputs, y, p, j, k - 1),
                 TermW(inputs, y, p, k - 1, j), e, m);
  }

  lemma {:induction false} SumBIsScaledErrorSum(inputs: seq<seq<real>>, y: seq<real>, p: seq<real>, k: nat)
    requires Shaped(inputs, y, p) && 0 < k <= |inputs|
    ensures SumB(inputs, y, p, k) == ErrorSumB(inputs, y, p, k) / (|inputs| as real)
  {
    var m := |inputs| as real;
    if k > 1 {
      SumBIsScaledErrorSum(inputs, y, p, k - 1);
    }
    ShareIsQuotient(1.0, p[k - 1] - y[k - 1], |inputs|);
    AddQuotients(SumB(inputs, y, p, k - 1), ErrorSumB(inputs, y, p, k - 1),
                 Share(1.0, p[k - 1] - y[k - 1], |inputs|), p[k - 1] - y[k - 1], m);
  }

  /** The gradient is the mean, over the m rows, of the per-example gradients
      (p[i] - y[i]) * x[i][j] and p[i] - y[i]; an empty batch gives 0. */
  lemma GradientIsMean(inputs: seq<seq<real>>, y: seq<real>, p: seq<real>, j: nat)
    requires Shaped(inputs, y, p)
    ensures |inputs| > 0 ==> GradW(inputs, y, p, j) * (|inputs| as real) == ErrorSumW(inputs, y, p, j, |inputs|)
    ensures |inputs| > 0 ==> GradB(inputs, y, p) * (|inputs| as real) == ErrorSumB(inputs, y, p, |inputs|)
    ensures |inputs| == 0 ==> GradW(inputs, y, p, j) == 0.0 && GradB(inputs, y, p) == 0.0
  {
    if |inputs| > 0 {
      var m := |inputs| as real;
      SumWIsScaledErrorSum(inputs, y, p, j, |inputs|);
      SumBIsScaledErrorSum(inputs, y, p, |inputs|);
      assert ErrorSumW(inputs, y, p, j, |inputs|) / m * m == ErrorSumW(inputs, y, p, j, |inputs|);
      assert ErrorSumB(inputs, y, p, |inputs|) / m * m == ErrorSumB(inputs, y, p, |inputs|);
    }
  }

  lemma {:induction false} PerfectPrefixHasZeroSums(inputs: seq<seq<real>>, y: seq<real>, p: seq<real>, j: nat, k: nat)
    requires Shaped(inputs, y, p) && k <= |inputs|
    requires forall i :: 0 <= i < k ==> p[i] == y[i]
    ensures SumW(inputs, y, p, j, k) == 0.0 && SumB(inputs, y, p, k) == 0.0
  {
    if k > 0 {
      PerfectPrefixHasZeroSums(inputs, y, p, j, k - 1);
    }
  }

  /** When every prediction equals its label the gradient vanishes. */
  lemma PerfectPredictionsGiveZeroGradient(inputs: seq<seq<real>>, y: seq<real>, p: seq<real>)
    requires Shaped(inputs, y, p)
    requires forall i :: 0 <= i < |inputs| ==> p[i] == y[i]
    ensures GradW(inputs, y, p, 0) == 0.0 && GradW(inputs, y, p, 1) == 0.0
    ensures GradB(inputs, y, p) == 0.0
  {
    PerfectPrefixHasZeroSums(inputs, y, p, 0, |inputs|);
    PerfectPrefixHasZeroSums(inputs, y, p, 1, |inputs|);
  }

  /** `dCost`: dw is a fresh length-2 buffer that the nested loops update in
      place, dw[j] += x * diff / m for each column j of each row; db likewise. */
  method DCost(inputs: seq<seq<real>>, y: seq<real>, p: seq<real>) returns (dw: seq<real>, db: real)
    requires Shaped(inputs, y, p)
    ensures |dw| == 2
    ensures dw[0] == GradW(inputs, y, p, 0) && dw[1] == GradW(inputs, y, p, 1)
    ensures db == GradB(inputs, y, p)
  {
    var acc := new real[2](_ => 0.0);
    db := 0.0;
    var i := 0;
    while i < |inputs|
      invariant 0 <= i <= |inputs|
      invariant acc[0] == SumW(inputs, y, p, 0, i) && acc[1] == SumW(inputs, y, p, 1, i)
      invariant db == SumB(inputs, y, p, i)
    {
      var diff := p[i] - y[i];
      var j := 0;
      while j < |inputs[i]|
        invariant 0 <= j <= |inputs[i]|
        invariant acc[0] == SumW(inputs, y, p, 0, i) + (if 0 < j then TermW(inputs, y, p, i, 0) else 0.0)
        invariant acc[1] == SumW(inputs, y, p, 1, i) + (if 1 < j then TermW(inputs, y, p, i, 1) else 0.0)
      {
        acc[j] := acc[j] + Share(inputs[i][j], diff, |inputs|);
        j := j + 1;
      }
      assert SumW(inputs, y, p, 0, i + 1) == SumW(inputs, y, p, 0, i) + TermW(inputs, y, p, i, 0);
      assert SumW(inputs, y, p, 1, i + 1) == SumW(inputs, y, p, 1, i) + TermW(inputs, y, p, i, 1);
      db := db + Share(1.0, diff, |inputs|);
      i := i + 1;
    }
    dw := acc[..];
  }
}
