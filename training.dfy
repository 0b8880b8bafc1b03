/** The training loop of `main` in main.go: batch gradient descent on the
    training rows, with a report (gradient, parameters, training accuracy and
    decision-boundary line) every PrintEveryNthEpochs iterations. The plot,
    the channel hand-off to the window and the console output are not
    modelled; the reports are collected in `log` instead. */
module Training {
  import opened Wrappers
  import opened Scoring
  import opened Gradient
  import opened Metrics

  const Epochs: nat := 2000
  const PrintEveryNthEpochs: nat := 100
  const LrW: real := 0.0005
  const LrB: real := 0.7
  const InputPointsMinX: real := 0.0
  const InputPointsMaxX: real := 100.0

  /** The model parameters: two weights and a bias. */
  datatype Params = Params(w: seq<real>, b: real)

  /** The parameters the training goroutine starts from. */
  const Initial: Params := Params([0.0, 0.0], 0.0)

  /** The decision-boundary segment from (x0, y0) to (x1, y1). */
  datatype Line = Line(x0: real, y0: real, x1: real, y1: real)

  /** What one report shows: the iteration, its gradient, the updated
      parameters, the training accuracy under them and the boundary line. */
  datatype Report = Report(epoch: nat, dw: seq<real>, db: real, w: seq<real>, b: real,
                           accuracy: Option<real>, line: Option<Line>)

  /** The boundary line w[0]*x + w[1]*y + b = 0 between x = 0 and x = 100,
      solved for y. The Go code divides by w[1]; when w[1] is 0 it draws
      from infinite or NaN coordinates, which is modelled as no line. */
  function Boundary(w: seq<real>, b: real): (r: Option<Line>)
    requires |w| == 2
    ensures r.None? <==> w[1] == 0.0
    ensures r.Some? ==>
      r.value.x0 == InputPointsMinX && r.value.x1 == InputPointsMaxX &&
      w[0] * r.value.x0 + w[1] * r.value.y0 + b == 0.0 &&
      w[0] * r.value.x1 + w[1] * r.value.y1 + b == 0.0
  {
    if w[1] == 0.0 then None
    else
      var y0 := -(w[0] * InputPointsMinX + b) / w[1];
      var y1 := -(w[0] * InputPointsMaxX + b) / w[1];
      assert w[1] * y0 == -(w[0] * InputPointsMinX + b);
      assert w[1] * y1 == -(w[0] * InputPointsMaxX + b);
      Some(Line(InputPointsMinX, y0, InputPointsMaxX, y1))
  }

  /** One gradient-descent update: each weight decreases by LrW times its
      gradient component, and the bias by LrB times db. */
  function Descend(p: Params, g: GradientResult): (r: Params)
    requires |p.w| == 2 && |g.dw| == 2
    ensures |r.w| == 2
  {
    Params([p.w[0] - g.dw[0] * LrW, p.w[1] - g.dw[1] * LrW], p.b - g.db * LrB)
  }

  /** The training rows have at most two features and a label each. */
  predicate TrainShaped(xs: seq<seq<real>>, ys: seq<real>)
  {
    RowsAtMost(xs, 2) && |xs| <= |ys|
  }

  /** The gradient `dCost` computes from the `inference` predictions under p. */
  function GradientAt(p: Params, xs: seq<seq<real>>, ys: seq<real>, sigmoid: real -> real): (g: GradientResult)
    requires |p.w| == 2 && TrainShaped(xs, ys)
    ensures |g.dw| == 2
  {
    var s := Scores(xs, p.w, p.b, sigmoid);
    GradientResult([GradW(xs, ys, s, 0), GradW(xs, ys, s, 1)], GradB(xs, ys, s))
  }

  /** The parameters after one training iteration. */
  function Next(p: Params, xs: seq<seq<real>>, ys: seq<real>, sigmoid: real -> real): Params
    requires |p.w| == 2 && TrainShaped(xs, ys)
  {
    Descend(p, GradientAt(p, xs, ys, sigmoid))
  }

  /** The parameters after k iterations from the zero start. */
  function ParamsAfter(k: nat, xs: seq<seq<real>>, ys: seq<real>, sigmoid: real -> real): (r: Params)
    requires TrainShaped(xs, ys)
    ensures |r.w| == 2
  {
    if k == 0 then Initial else Next(ParamsAfter(k - 1, xs, ys, sigmoid), xs, ys, sigmoid)
  }

  /** The report of iteration `epoch` when it starts from p. */
  function ReportFrom(epoch: nat, p: Params, xs: seq<seq<real>>, ys: seq<real>,
                      sigmoid: real -> real, predict: real -> real): Report
    requires |p.w| == 2 && TrainShaped(xs, ys)
  {
    var g := GradientAt(p, xs, ys, sigmoid);
    var q := Descend(p, g);
    Report(epoch, g.dw, g.db, q.w, q.b, AccuracyOf(xs, ys, q.w, q.b, predict), Boundary(q.w, q.b))
  }

  /** The report of iteration `epoch` of the run from the zero start. */
  function ReportAt(epoch: nat, xs: seq<seq<real>>, ys: seq<real>,
                    sigmoid: real -> real, predict: real -> real): Report
    requires TrainShaped(xs, ys)
  {
    ReportFrom(epoch, ParamsAfter(epoch, xs, ys, sigmoid), xs, ys, sigmoid, predict)
  }

  /** What the first n iterations emit when iteration i emits f(i) exactly
      when i % PrintEveryNthEpochs == 0. */
  function Emitted<T>(n: nat, f: nat -> T): seq<T>
  {
    if n == 0 then []
    else Emitted(n - 1, f) + (if (n - 1) % PrintEveryNthEpochs == 0 then [f(n - 1)] else [])
  }

  /** The reports of the first n iterations of the run from the zero start. */
  function ReportsBefore(n: nat, xs: seq<seq<real>>, ys: seq<real>,
                         sigmoid: real -> real, predict: real -> real): seq<Report>
    requires TrainShaped(xs, ys)
  {
    Emitted(n, epoch => ReportAt(epoch, xs, ys, sigmoid, predict))
  }

  /** One iteration of the loop in `Trainer.Run` keeps the run on schedule. */
  lemma TrainStep(i: nat, xs: seq<seq<real>>, ys: seq<real>, sigmoid: real -> real, predict: real -> real,
                  before: Params, after: Params, logBefore: seq<Report>, logAfter: seq<Report>)
    requires TrainShaped(xs, ys)
    requires before == ParamsAfter(i, xs, ys, sigmoid) && logBefore == ReportsBefore(i, xs, ys, sigmoid, predict)
    requires after == Next(before, xs, ys, sigmoid)
    requires logAfter == logBefore +
      (if i % PrintEveryNthEpochs == 0 then [ReportFrom(i, before, xs, ys, sigmoid, predict)] else [])
    ensures after == ParamsAfter(i + 1, xs, ys, sigmoid)
    ensures logAfter == ReportsBefore(i + 1, xs, ys, sigmoid, predict)
  {
  }

  /** How many multiples of PrintEveryNthEpochs lie below n, and below n + 1. */
  lemma ReportCountStep(n: nat)
    ensures n % PrintEveryNthEpochs == 0 ==>
      (n + PrintEveryNthEpochs) / PrintEveryNthEpochs == (n + PrintEveryNthEpochs - 1) / PrintEveryNthEpochs + 1 &&
      (n + PrintEveryNthEpochs - 1) / PrintEveryNthEpochs * PrintEveryNthEpochs == n
    ensures n % PrintEveryNthEpochs != 0 ==>
      (n + PrintEveryNthEpochs) / PrintEveryNthEpochs == (n + PrintEveryNthEpochs - 1) / PrintEveryNthEpochs
  {
  }

  /** The first n iterations emit exactly at the multiples of
      PrintEveryNthEpochs below n, in increasing order: entry k is what
      iteration k * PrintEveryNthEpochs emits. */
  lemma {:induction false} EmittedShape<T>(n: nat, f: nat -> T)
    ensures |Emitted(n, f)| == (n + PrintEveryNthEpochs - 1) / PrintEveryNthEpochs
    ensures forall k :: 0 <= k < |Emitted(n, f)| ==> Emitted(n, f)[k] == f(k * PrintEveryNthEpochs)
  {
    if n > 0 {
      EmittedShape(n - 1, f);
      ReportCountStep(n - 1);
    }
  }

  /** The whole run reports exactly the iterations 0, 100, ..., 2000, in
      order, each showing the parameters after its own update. */
  lemma ReportSchedule(xs: seq<seq<real>>, ys: seq<real>, sigmoid: real -> real, predict: real -> real)
    requires TrainShaped(xs, ys)
    ensures |ReportsBefore(Epochs + 1, xs, ys, sigmoid, predict)| == Epochs / PrintEveryNthEpochs + 1
    ensures forall k :: 0 <= k < |ReportsBefore(Epochs + 1, xs, ys, sigmoid, predict)| ==>
      var r := ReportsBefore(Epochs + 1, xs, ys, sigmoid, predict)[k];
      r.epoch == k * PrintEveryNthEpochs && r.epoch <= Epochs &&
      Params(r.w, r.b) == ParamsAfter(r.epoch + 1, xs, ys, sigmoid)
  {
    EmittedShape(Epochs + 1, epoch => ReportAt(epoch, xs, ys, sigmoid, predict));
  }

  /** When every prediction already equals its label, an iteration leaves
      the parameters unchanged: the gradient vanishes. */
  lemma PerfectFitIsFixedPoint(p: Params, xs: seq<seq<real>>, ys: seq<real>, sigmoid: real -> real)
    requires |p.w| == 2 && TrainShaped(xs, ys)
    requires forall i :: 0 <= i < |xs| ==> sigmoid(InnerProduct(xs[i], p.w) + p.b) == ys[i]
    ensures Next(p, xs, ys, sigmoid) == p
  {
    var s := Scores(xs, p.w, p.b, sigmoid);
    PerfectPredictionsGiveZeroGradient(xs, ys, s);
    assert p.w == [p.w[0], p.w[1]];
  }

  /** The training goroutine's state: the weight slice it updates in place,
      the bias, and the reports it has produced. */
  class Trainer {
    const w: array<real>
    var b: real
    var log: seq<Report>

    ghost predicate Valid()
      reads this
    {
      w.Length == 2
    }

    function State(): Params
      reads this, w
    {
      Params(w[..], b)
    }

    /** Both weights and the bias start at zero, with no reports yet. */
    constructor ()
      ensures Valid() && fresh(w) && State() == Initial && log == []
    {
      w := new real[2](_ => 0.0);
      b := 0.0;
      log := [];
    }

    /** Subtracts dw[j] * LrW from each weight, in place, and db * LrB from the bias. */
    method Step(g: GradientResult)
      requires Valid() && |g.dw| == 2
      modifies w, this`b
      ensures Valid() && State() == Descend(old(State()), g)
    {
      ghost var w0 := w[..];
      var i := 0;
      while i < |g.dw|
        invariant 0 <= i <= |g.dw|
        invariant forall k :: 0 <= k < i ==> w[k] == w0[k] - g.dw[k] * LrW
        invariant forall k :: i <= k < w.Length ==> w[k] == w0[k]
        invariant b == old(b)
      {
        w[i] := w[i] - g.dw[i] * LrW;
        i := i + 1;
      }
      b := b - g.db * LrB;
      assert w[..] == [w0[0] - g.dw[0] * LrW, w0[1] - g.dw[1] * LrW];
    }

    /** One pass of the loop body: predict, take the gradient, update, and
      report when epoch % PrintEveryNthEpochs == 0. */
    method Iterate(epoch: nat, xs: seq<seq<real>>, ys: seq<real>, sigmoid: real -> real, predict: real -> real)
      requires Valid() && TrainShaped(xs, ys)
      modifies w, this`b, this`log
      ensures Valid() && State() == Next(old(State()), xs, ys, sigmoid)
      ensures log == old(log) +
        (if epoch % PrintEveryNthEpochs == 0
         then [ReportFrom(epoch, old(State()), xs, ys, sigmoid, predict)] else [])
    {
      var p := Inference(xs, w[..], b, sigmoid);
      var dw, db := DCost(xs, ys, p);
      var g := GradientResult(dw, db);
      assert g == GradientAt(old(State()), xs, ys, sigmoid);
      Step(g);
      if epoch % PrintEveryNthEpochs == 0 {
        var line := Boundary(w[..], b);
        var acc := Accuracy(xs, ys, w[..], b, predict);
        log := log + [Report(epoch, dw, db, w[..], b, acc, line)];
      }
    }

    /** Runs Epochs + 1 iterations, numbered 0 to Epochs, on the training rows. */
    method Run(xs: seq<seq<real>>, ys: seq<real>, sigmoid: real -> real, predict: real -> real)
      requires Valid() && State() == Initial && log == []
      requires TrainShaped(xs, ys)
      modifies w, this`b, this`log
      ensures Valid() && State() == ParamsAfter(Epochs + 1, xs, ys, sigmoid)
      ensures log == ReportsBefore(Epochs + 1, xs, ys, sigmoid, predict)
    {
      var i := 0;
      while i <= Epochs
        invariant 0 <= i <= Epochs + 1
        invariant Valid() && State() == ParamsAfter(i, xs, ys, sigmoid)
        invariant log == ReportsBefore(i, xs, ys, sigmoid, predict)
      {
        ghost var before, logBefore := State(), log;
        Iterate(i, xs, ys, sigmoid, predict);
        TrainStep(i, xs, ys, sigmoid, predict, before, State(), logBefore, log);
        i := i + 1;
      }
    }

    /** The training goroutine: the run on the training rows, then the
        test-set accuracy under the final parameters. */
    method Train(xTrain: seq<seq<real>>, yTrain: seq<real>, xTest: seq<seq<real>>, yTest: seq<real>,
                 sigmoid: real -> real, predict: real -> real) returns (testAccuracy: Option<real>)
      requires Valid() && State() == Initial && log == []
      requires TrainShaped(xTrain, yTrain) && TrainShaped(xTest, yTest)
      modifies w, this`b, this`log
      ensures Valid() && State() == ParamsAfter(Epochs + 1, xTrain, yTrain, sigmoid)
      ensures log == ReportsBefore(Epochs + 1, xTrain, yTrain, sigmoid, predict)
      ensures testAccuracy == AccuracyOf(xTest, yTest, w[..], b, predict)
    {
      Run(xTrain, yTrain, sigmoid, predict);
      testAccuracy := Accuracy(xTest, yTest, w[..], b, predict);
    }
  }
}
