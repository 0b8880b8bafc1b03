/** `accuracy` of main.go: the percentage of examples whose label equals the
    prediction. The prediction math.Round(sigmoid(z)) of the linear score z
    is an arbitrary classifier `predict` supplied by the caller. */
module Metrics {
  import opened Wrappers
  import opened Scoring

  /** Every row can be scored against w and has a label. */
  predicate Labelled(inputs: seq<seq<real>>, y: seq<real>, w: seq<real>)
  {
    RowsFit(inputs, w) && |inputs| <= |y|
  }

  /** Example i is classified correctly. */
  predicate Hit(inputs: seq<seq<real>>, y: seq<real>, w: seq<real>, b: real, predict: real -> real, i: nat)
    requires Labelled(inputs, y, w) && i < |inputs|
  {
    y[i] == predict(InnerProduct(inputs[i], w) + b)
  }

  /** The number of correctly classified examples among the first k. */
  function Matches(inputs: seq<seq<real>>, y: seq<real>, w: seq<real>, b: real, predict: real -> real, k: nat): nat
    requires Labelled(inputs, y, w) && k <= |inputs|
  {
    if k == 0 then 0
    else Matches(inputs, y, w, b, predict, k - 1) + (if Hit(inputs, y, w, b, predict, k - 1) then 1 else 0)
  }

  /** The value `accuracy` returns: matches / len(y) * 100, and no number
      (Go's NaN from 0/0) when there are no labels. */
  function AccuracyOf(inputs: seq<seq<real>>, y: seq<real>, w: seq<real>, b: real, predict: real -> real): Option<real>
    requires Labelled(inputs, y, w)
  {
    if |y| == 0 then None
    else Some(Matches(inputs, y, w, b, predict, |inputs|) as real / (|y| as real) * 100.0)
  }

  lemma {:induction false} MatchesBounded(inputs: seq<seq<real>>, y: seq<real>, w: seq<real>, b: real, predict: real -> real, k: nat)
    requires Labelled(inputs, y, w) && k <= |inputs|
    ensures Matches(inputs, y, w, b, predict, k) <= k
  {
    if k > 0 {
      MatchesBounded(inputs, y, w, b, predict, k - 1);
    }
  }

  /** All of the first k examples are hits exactly when the count is k. */
  lemma {:induction false} AllHitIff(inputs: seq<seq<real>>, y: seq<real>, w: seq<real>, b: real, predict: real -> real, k: nat)
    requires Labelled(inputs, y, w) && k <= |inputs|
    ensures Matches(inputs, y, w, b, predict, k) == k <==> forall i :: 0 <= i < k ==> Hit(inputs, y, w, b, predict, i)
  {
    if k > 0 {
      AllHitIff(inputs, y, w, b, predict, k - 1);
      MatchesBounded(inputs, y, w, b, predict, k - 1);
    }
  }

  /** None of the first k examples is a hit exactly when the count is 0. */
  lemma {:induction false} NoHitIff(inputs: seq<seq<real>>, y: seq<real>, w: seq<real>, b: real, predict: real -> real, k: nat)
    requires Labelled(inputs, y, w) && k <= |inputs|
    ensures Matches(inputs, y, w, b, predict, k) == 0 <==> forall i :: 0 <= i < k ==> !Hit(inputs, y, w, b, predict, i)
  {
    if k > 0 {
      NoHitIff(inputs, y, w, b, predict, k - 1);
    }
  }

  /** With at least one label the accuracy is a percentage in [0, 100]. */
  lemma AccuracyInRange(inputs: seq<seq<real>>, y: seq<real>, w: seq<real>, b: real, predict: real -> real)
    requires Labelled(inputs, y, w)
    ensures AccuracyOf(inputs, y, w, b, predict).None? <==> |y| == 0
    ensures AccuracyOf(inputs, y, w, b, predict).Some? ==>
      0.0 <= AccuracyOf(inputs, y, w, b, predict).value <= 100.0
  {
    if |y| > 0 {
      MatchesBounded(inputs, y, w, b, predict, |inputs|);
      PercentageInRange(Matches(inputs, y, w, b, predict, |inputs|) as real, |y| as real);
    }
  }

  lemma PercentageInRange(n: real, d: real)
    requires 0.0 <= n <= d && d > 0.0
    ensures 0.0 <= n / d * 100.0 <= 100.0
  {
    assert n / d * d == n;
  }

  /** With one label per example, the accuracy is 100 exactly when every
      example is classified correctly. */
  lemma AccuracyFullIff(inputs: seq<seq<real>>, y: seq<real>, w: seq<real>, b: real, predict: real -> real)
    requires Labelled(inputs, y, w) && |y| == |inputs| > 0
    ensures AccuracyOf(inputs, y, w, b, predict) == Some(100.0) <==>
      forall i :: 0 <= i < |inputs| ==> Hit(inputs, y, w, b, predict, i)
  {
    AllHitIff(inputs, y, w, b, predict, |inputs|);
    var n := Matches(inputs, y, w, b, predict, |inputs|) as real;
    var d := |y| as real;
    assert n / d * 100.0 == 100.0 <==> n == d by {
      assert n / d * d == n;
    }
  }

  /** With at least one label, the accuracy is 0 exactly when no example is
      classified correctly. */
  lemma AccuracyZeroIff(inputs: seq<seq<real>>, y: seq<real>, w: seq<real>, b: real, predict: real -> real)
    requires Labelled(inputs, y, w) && |y| > 0
    ensures AccuracyOf(inputs, y, w, b, predict) == Some(0.0) <==>
      forall i :: 0 <= i < |inputs| ==> !Hit(inputs, y, w, b, predict, i)
  {
    NoHitIff(inputs, y, w, b, predict, |inputs|);
    var n := Matches(inputs, y, w, b, predict, |inputs|) as real;
    var d := |y| as real;
    assert n / d * 100.0 == 0.0 <==> n == 0.0 by {
      assert n / d * d == n;
    }
  }

  lemma {:induction false} MatchesScaleInvariant(inputs: seq<seq<real>>, y: seq<real>, w: seq<real>, b: real,
                                                 predict: real -> real, c: real, k: nat)
    requires Labelled(inputs, y, w) && k <= |inputs| && c > 0.0
    requires SignClassifier(predict)
    ensures Matches(inputs, y, Scaled(w, c), c * b, predict, k) == Matches(inputs, y, w, b, predict, k)
  {
    if k > 0 {
      MatchesScaleInvariant(inputs, y, w, b, predict, c, k - 1);
      HitScaled(inputs, y, w, b, predict, c, k - 1);
    }
  }

  lemma HitScaled(inputs: seq<seq<real>>, y: seq<real>, w: seq<real>, b: real,
                  predict: real -> real, c: real, i: nat)
    requires Labelled(inputs, y, w) && i < |inputs| && c > 0.0
    requires SignClassifier(predict)
    ensures Hit(inputs, y, Scaled(w, c), c * b, predict, i) == Hit(inputs, y, w, b, predict, i)
  {
    ScoreScaled(inputs[i], w, b, c);
    SignClassifierIgnoresScale(predict, InnerProduct(inputs[i], w) + b, c);
  }

  /** The classifier only looks at the side of the decision boundary a score
      lies on, as math.Round(sigmoid(z)) does on exact reals (1 for z >= 0,
      0 for z < 0). */
  ghost predicate SignClassifier(predict: real -> real)
  {
    forall z :: predict(z) == if 0.0 <= z then predict(0.0) else predict(-1.0)
  }

  lemma SignClassifierIgnoresScale(predict: real -> real, z: real, c: real)
    requires SignClassifier(predict) && c > 0.0
    ensures predict(c * z) == predict(z)
  {
    assert 0.0 <= c * z <==> 0.0 <= z by {
      if z < 0.0 {
        assert c * z < 0.0;
      }
    }
  }

  lemma ScoreScaled(x: seq<real>, w: seq<real>, b: real, c: real)
    requires |x| <= |w|
    ensures InnerProduct(x, Scaled(w, c)) + c * b == c * (InnerProduct(x, w) + b)
  {
    InnerProductScaled(x, w, c);
  }

  /** When the classifier depends only on the side of the decision boundary,
      scaling w and b by the
      same positive constant leaves the accuracy unchanged. */
  lemma AccuracyScaleInvariant(inputs: seq<seq<real>>, y: seq<real>, w: seq<real>, b: real,
                               predict: real -> real, c: real)
    requires Labelled(inputs, y, w) && c > 0.0
    requires SignClassifier(predict)
    ensures AccuracyOf(inputs, y, Scaled(w, c), c * b, predict) == AccuracyOf(inputs, y, w, b, predict)
  {
    MatchesScaleInvariant(inputs, y, w, b, predict, c, |inputs|);
  }

  /** `accuracy`: counts the hits over the rows and divides by len(y). */
  method Accuracy(inputs: seq<seq<real>>, y: seq<real>, w: seq<real>, b: real, predict: real -> real)
    returns (r: Option<real>)
    requires Labelled(inputs, y, w)
    ensures r == AccuracyOf(inputs, y, w, b, predict)
    ensures r.None? <==> |y| == 0
    ensures r.Some? ==> 0.0 <= r.value <= 100.0
  {
    var res := 0.0;
    var i := 0;
    while i < |inputs|
      invariant 0 <= i <= |inputs|
      invariant res == Matches(inputs, y, w, b, predict, i) as real
    {
      var d := Dot(inputs[i], w);
      if y[i] == predict(d + b) {
        res := res + 1.0;
      }
      i := i + 1;
    }
    AccuracyInRange(inputs, y, w, b, predict);
    if |y| == 0 {
      r := None;
    } else {
      r := Some(res / (|y| as real) * 100.0);
    }
  }
}
