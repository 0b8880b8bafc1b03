/** Concrete cases from main_test.go that do not depend on the values of
    sigmoid, and the one-step scenario of a two-example training set. */
module Scenarios {
  import opened Wrappers
  import opened Scoring
  import opened Gradient
  import opened Splitting
  import opened Training

  /** TestDot cases 2, 6 and 10. */
  lemma DotCases()
    ensures InnerProduct([0.0, 100.0], [1.0, 1.0]) == 100.0
    ensures InnerProduct([-25.0, -75.0], [1.75, 2.1]) == -201.25
    ensures InnerProduct([1.0, 2.0, 3.0], [4.0, 5.0, 6.0]) == 32.0
  {
    assert [0.0, 100.0][..1] == [0.0];
    assert [-25.0, -75.0][..1] == [-25.0];
    assert [1.0, 2.0, 3.0][..2] == [1.0, 2.0];
    assert [1.0, 2.0][..1] == [1.0];
  }

  /** TestDCost case 2: rows {1,2}, {3,1}, labels {1,1}, predictions {2,2}. */
  lemma DCostCase()
    ensures GradW([[1.0, 2.0], [3.0, 1.0]], [1.0, 1.0], [2.0, 2.0], 0) == 2.0
    ensures GradW([[1.0, 2.0], [3.0, 1.0]], [1.0, 1.0], [2.0, 2.0], 1) == 1.5
    ensures GradB([[1.0, 2.0], [3.0, 1.0]], [1.0, 1.0], [2.0, 2.0]) == 1.0
  {
    var xs: seq<seq<real>> := [[1.0, 2.0], [3.0, 1.0]];
    var y, p := [1.0, 1.0], [2.0, 2.0];
    assert SumW(xs, y, p, 0, 1) == 0.5;
    assert SumW(xs, y, p, 1, 1) == 1.0;
    assert SumB(xs, y, p, 1) == 0.5;
  }

  /** The training-row counts the split tests rely on. */
  lemma TrainCountCases()
    ensures TrainCount(5) == 4 && TrainCount(6) == 4 && TrainCount(8) == 4
    ensures TrainCount(10) == 8 && TrainCount(11) == 8
  {
  }

  /** Training set {([50,50],1), ([10,10],0)} from the zero start, with a
      sigmoid that gives 0.5 at 0: dw = [-10,-10], db = 0, and one step
      moves w to [0.005, 0.005] and leaves b at 0. */
  lemma FirstStep(sigmoid: real -> real)
    requires sigmoid(0.0) == 0.5
    ensures GradientAt(Initial, [[50.0, 50.0], [10.0, 10.0]], [1.0, 0.0], sigmoid)
      == GradientResult([-10.0, -10.0], 0.0)
    ensures ParamsAfter(1, [[50.0, 50.0], [10.0, 10.0]], [1.0, 0.0], sigmoid) == Params([0.005, 0.005], 0.0)
  {
    var xs: seq<seq<real>> := [[50.0, 50.0], [10.0, 10.0]];
    InnerProductWithZero(xs[0], Initial.w);
    InnerProductWithZero(xs[1], Initial.w);
    var ys := [1.0, 0.0];
    var s := Scores(xs, Initial.w, Initial.b, sigmoid);
    assert s == [0.5, 0.5];
    assert SumW(xs, ys, s, 0, 1) == -12.5;
    assert SumW(xs, ys, s, 1, 1) == -12.5;
    assert SumB(xs, ys, s, 1) == -0.25;
    assert GradW(xs, ys, s, 0) == -10.0;
    assert GradW(xs, ys, s, 1) == -10.0;
    assert GradB(xs, ys, s) == 0.0;
  }
}
