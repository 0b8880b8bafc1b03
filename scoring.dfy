/** The linear scorer of main.go: `dot` and `inference`.
    Floats are modelled as exact reals; `sigmoid` (which calls math.Exp) is
    not given a definition and is passed in by the caller. */
module Scoring {

  /** The inner product Σ_{i<|a|} a[i]*b[i], accumulated left to right as
      `dot` does. Only the first |a| entries of b are read. */
  function InnerProduct(a: seq<real>, b: seq<real>): real
    requires |a| <= |b|
    decreases |a|
  {
    if |a| == 0 then 0.0 else InnerProduct(a[..|a| - 1], b) + a[|a| - 1] * b[|a| - 1]
  }

  /** Multiplies every entry of w by c. */
  function Scaled(w: seq<real>, c: real): seq<real>
  {
    seq(|w|, j requires 0 <= j < |w| => c * w[j])
  }

  /** The inner product is symmetric on vectors of equal length. */
  lemma {:induction false} InnerProductSymmetric(a: seq<real>, b: seq<real>)
    requires |a| == |b|
    ensures InnerProduct(a, b) == InnerProduct(b, a)
  {
    if |a| > 0 {
      InnerProductSymmetric(a[..|a| - 1], b[..|b| - 1]);
      InnerProductOnlyReadsPrefix(a[..|a| - 1], b);
      InnerProductOnlyReadsPrefix(b[..|b| - 1], a);
    }
  }

  /** Entries of b beyond |a| play no part in the inner product. */
  lemma {:induction false} InnerProductOnlyReadsPrefix(a: seq<real>, b: seq<real>)
    requires |a| < |b|
    ensures InnerProduct(a, b) == InnerProduct(a, b[..|b| - 1])
  {
    if |a| > 0 {
      InnerProductOnlyReadsPrefix(a[..|a| - 1], b);
    }
  }

  /** When every term has a zero factor (in particular when either vector is
      the zero vector) the inner product is 0. */
  lemma {:induction false} InnerProductWithZero(a: seq<real>, b: seq<real>)
    requires |a| <= |b|
    requires forall i :: 0 <= i < |a| ==> a[i] == 0.0 || b[i] == 0.0
    ensures InnerProduct(a, b) == 0.0
  {
    if |a| > 0 {
      InnerProductWithZero(a[..|a| - 1], b);
    }
  }

  /** Scaling the weights scales the inner product by the same factor. */
  lemma {:induction false} InnerProductScaled(a: seq<real>, w: seq<real>, c: real)
    requires |a| <= |w|
    ensures InnerProduct(a, Scaled(w, c)) == c * InnerProduct(a, w)
  {
    if |a| > 0 {
      var n := |a| - 1;
      InnerProductScaled(a[..n], w, c);
      assert a[n] * (c * w[n]) == c * (a[n] * w[n]);
    }
  }

  /** `dot`: loops over the indices of a, reading b at the same index, so b
      must be at least as long as a (Go panics otherwise). */
  method Dot(a: seq<real>, b: seq<real>) returns (res: real)
    requires |a| <= |b|
    ensures res == InnerProduct(a, b)
  {
    res := 0.0;
    var i := 0;
    while i < |a|
      invariant 0 <= i <= |a|
      invariant res == InnerProduct(a[..i], b)
    {
      assert a[..i + 1][..i] == a[..i];
      res := res + a[i] * b[i];
      i := i + 1;
    }
    assert a[..|a|] == a;
  }

  /** No row has more than n columns. */
  predicate RowsAtMost(inputs: seq<seq<real>>, n: nat)
  {
    forall i :: 0 <= i < |inputs| ==> |inputs[i]| <= n
  }

  /** Every row can be multiplied with w. */
  predicate RowsFit(inputs: seq<seq<real>>, w: seq<real>)
  {
    RowsAtMost(inputs, |w|)
  }

  /** The predictions of `inference`, one per row and in row order. */
  function Scores(inputs: seq<seq<real>>, w: seq<real>, b: real, sigmoid: real -> real): (r: seq<real>)
    requires RowsFit(inputs, w)
  {
    seq(|inputs|, i requires 0 <= i < |inputs| => sigmoid(InnerProduct(inputs[i], w) + b))
  }

  /** `inference`: appends sigmoid(dot(x, w) + b) for each row x. */
  method Inference(inputs: seq<seq<real>>, w: seq<real>, b: real, sigmoid: real -> real)
    returns (res: seq<real>)
    requires RowsFit(inputs, w)
    ensures |res| == |inputs|
    ensures forall i :: 0 <= i < |inputs| ==> res[i] == sigmoid(InnerProduct(inputs[i], w) + b)
    ensures res == Scores(inputs, w, b, sigmoid)
  {
    res := [];
    var i := 0;
    while i < |inputs|
      invariant 0 <= i <= |inputs|
      invariant |res| == i
      invariant forall k :: 0 <= k < i ==> res[k] == sigmoid(InnerProduct(inputs[k], w) + b)
    {
      var d := Dot(inputs[i], w);
      res := res + [sigmoid(d + b)];
      i := i + 1;
    }
  }
}
