/** `split` of main.go: picks len(inputs)/5*4 distinct training indices by
    rejection sampling, then partitions rows and labels by membership,
    keeping the original order. The PRNG rand.NewSource(10) is replaced by
    the sequence of values its Intn(len(inputs)) calls return, supplied by
    the caller; running out of values is reported as None. */
module Splitting {
  import opened Wrappers

  /** The number of training rows `split` selects, len(inputs)/5*4: the
      largest multiple of 4 that is at most four fifths of n (5 -> 4, 6 -> 4,
      8 -> 4, 10 -> 8, 11 -> 8). */
  function TrainCount(n: nat): (r: nat)
    ensures r <= n && r % 4 == 0 && 5 * r <= 4 * n < 5 * r + 20
  {
    n / 5 * 4
  }

  /** Every draw is a valid row index, as Intn(n) guarantees. */
  predicate DrawsBelow(draws: seq<int>, n: nat)
  {
    forall k :: 0 <= k < |draws| ==> 0 <= draws[k] < n
  }

  /** The values occurring in the draws. */
  function Drawn(draws: seq<int>): set<int>
  {
    set d | d in draws
  }

  /** Rejection sampling: keep every draw that is not chosen yet until
      `target` indices are chosen; None when the draws run out first. */
  function Sample(draws: seq<int>, target: nat, chosen: set<int>): Option<set<int>>
    requires |chosen| <= target
    decreases |draws|
  {
    if |chosen| == target then Some(chosen)
    else if |draws| == 0 then None
    else if draws[0] in chosen then Sample(draws[1..], target, chosen)
    else Sample(draws[1..], target, chosen + {draws[0]})
  }

  /** A successful sample holds exactly `target` indices, each already chosen
      or drawn, and so all below n when the draws are. */
  lemma {:induction false} SampleSound(draws: seq<int>, target: nat, chosen: set<int>, n: nat)
    requires |chosen| <= target && DrawsBelow(draws, n)
    requires forall i :: i in chosen ==> 0 <= i < n
    ensures Sample(draws, target, chosen).Some? ==>
      var s := Sample(draws, target, chosen).value;
      |s| == target && chosen <= s && s <= chosen + Drawn(draws) && (forall i :: i in s ==> 0 <= i < n)
    decreases |draws|
  {
    if |chosen| < target && |draws| > 0 {
      assert Drawn(draws) == {draws[0]} + Drawn(draws[1..]) by {
        assert draws == [draws[0]] + draws[1..];
      }
      if draws[0] in chosen {
        SampleSound(draws[1..], target, chosen, n);
      } else {
        SampleSound(draws[1..], target, chosen + {draws[0]}, n);
      }
    }
  }

  /** Rejection sampling fails only when the draws do not hold enough
      distinct values: it succeeds exactly when the chosen indices together
      with the drawn values number at least `target`. */
  lemma {:induction false} SampleSucceedsIff(draws: seq<int>, target: nat, chosen: set<int>)
    requires |chosen| <= target
    ensures Sample(draws, target, chosen).Some? <==> |chosen + Drawn(draws)| >= target
    decreases |draws|
  {
    if |chosen| == target {
      assert chosen <= chosen + Drawn(draws);
    } else if |draws| == 0 {
      assert Drawn(draws) == {};
      assert chosen + Drawn(draws) == chosen;
    } else {
      assert Drawn(draws) == {draws[0]} + Drawn(draws[1..]) by {
        assert draws == [draws[0]] + draws[1..];
      }
      if draws[0] in chosen {
        assert chosen + Drawn(draws) == chosen + Drawn(draws[1..]);
        SampleSucceedsIff(draws[1..], target, chosen);
      } else {
        assert chosen + Drawn(draws) == (chosen + {draws[0]}) + Drawn(draws[1..]);
        SampleSucceedsIff(draws[1..], target, chosen + {draws[0]});
      }
    }
  }

  /** The selection loop of `split`: each outer iteration takes one draw and
      redraws while that index is already chosen, so it adds exactly one new
      index. */
  method SelectTrainIndices(n: nat, draws: seq<int>) returns (r: Option<set<int>>)
    requires DrawsBelow(draws, n)
    ensures r == Sample(draws, TrainCount(n), {})
    ensures r.Some? ==> |r.value| == TrainCount(n) && forall i :: i in r.value ==> 0 <= i < n
  {
    var target := TrainCount(n);
    var trainIndices: set<int> := {};
    var next := 0;
    var i := 0;
    while i < target
      invariant 0 <= i <= target && 0 <= next <= |draws|
      invariant |trainIndices| == i
      invariant Sample(draws[next..], target, trainIndices) == Sample(draws, target, {})
    {
      if next == |draws| {
        return None;
      }
      var idx := draws[next];
      next := next + 1;
      while idx in trainIndices
        invariant 0 < next <= |draws| && idx == draws[next - 1]
        invariant Sample(draws[next - 1..], target, trainIndices) == Sample(draws, target, {})
        decreases |draws| - next
      {
        assert draws[next - 1..][1..] == draws[next..];
        if next == |draws| {
          return None;
        }
        idx := draws[next];
        next := next + 1;
      }
      assert draws[next - 1..][1..] == draws[next..];
      trainIndices := trainIndices + {idx};
      i := i + 1;
    }
    r := Some(trainIndices);
    SampleSound(draws, target, {}, n);
  }

  /** The indices i < n with (i in s) == inTrain, in increasing order. */
  function Members(s: set<int>, n: nat, inTrain: bool): (r: seq<nat>)
    ensures forall k :: 0 <= k < |r| ==> r[k] < n
  {
    if n == 0 then []
    else Members(s, n - 1, inTrain) + (if (n - 1 in s) == inTrain then [n - 1] else [])
  }

  /** The entries of xs at the given indices, in that order. */
  function Pick<T>(xs: seq<T>, idx: seq<nat>): (r: seq<T>)
    requires forall k :: 0 <= k < |idx| ==> idx[k] < |xs|
    ensures |r| == |idx|
  {
    seq(|idx|, k requires 0 <= k < |idx| => xs[idx[k]])
  }

  /** Members lists exactly the indices below n on the requested side of s,
      each once and in increasing order. */
  lemma {:induction false} MembersExactly(s: set<int>, n: nat, inTrain: bool)
    ensures forall i :: i in Members(s, n, inTrain) <==> 0 <= i < n && (i in s) == inTrain
    ensures forall a, b :: 0 <= a < b < |Members(s, n, inTrain)| ==>
      Members(s, n, inTrain)[a] < Members(s, n, inTrain)[b]
  {
    if n > 0 {
      MembersExactly(s, n - 1, inTrain);
    }
  }

  /** Every index below n lands on exactly one side. */
  lemma {:induction false} MembersCover(s: set<int>, n: nat)
    ensures |Members(s, n, true)| + |Members(s, n, false)| == n
  {
    if n > 0 {
      MembersCover(s, n - 1);
    }
  }

  /** The members of s below n. */
  ghost function Below(s: set<int>, n: nat): set<int>
  {
    set i | i in s && 0 <= i < n
  }

  lemma {:induction false} MembersCountsBelow(s: set<int>, n: nat)
    ensures |Members(s, n, true)| == |Below(s, n)|
  {
    if n > 0 {
      MembersCountsBelow(s, n - 1);
      if n - 1 in s {
        assert Below(s, n) == Below(s, n - 1) + {n - 1};
      } else {
        assert Below(s, n) == Below(s, n - 1);
      }
    }
  }

  /** When s holds only indices below n, the train side has |s| entries. */
  lemma MembersCountsSet(s: set<int>, n: nat)
    requires forall i :: i in s ==> 0 <= i < n
    ensures |Members(s, n, true)| == |s|
  {
    MembersCountsBelow(s, n);
    assert Below(s, n) == s;
  }

  /** The four slices `split` returns. */
  datatype Split = Split(xTrain: seq<seq<real>>, xTest: seq<seq<real>>, yTrain: seq<real>, yTest: seq<real>)

  /** The partition loop of `split`: appends row i and label i to the train
      side when i is a training index and to the test side otherwise. */
  method Partition(inputs: seq<seq<real>>, y: seq<real>, trainIndices: set<int>)
    returns (xTrain: seq<seq<real>>, xTest: seq<seq<real>>, yTrain: seq<real>, yTest: seq<real>)
    requires |inputs| <= |y|
    ensures xTrain == Pick(inputs, Members(trainIndices, |inputs|, true))
    ensures yTrain == Pick(y, Members(trainIndices, |inputs|, true))
    ensures xTest == Pick(inputs, Members(trainIndices, |inputs|, false))
    ensures yTest == Pick(y, Members(trainIndices, |inputs|, false))
  {
    xTrain, xTest, yTrain, yTest := [], [], [], [];
    var i := 0;
    while i < |inputs|
      invariant 0 <= i <= |inputs|
      invariant xTrain == Pick(inputs, Members(trainIndices, i, true))
      invariant yTrain == Pick(y, Members(trainIndices, i, true))
      invariant xTest == Pick(inputs, Members(trainIndices, i, false))
      invariant yTest == Pick(y, Members(trainIndices, i, false))
    {
      if i in trainIndices {
        PickAppend(inputs, Members(trainIndices, i, true), i);
        PickAppend(y, Members(trainIndices, i, true), i);
        xTrain := xTrain + [inputs[i]];
        yTrain := yTrain + [y[i]];
      } else {
        PickAppend(inputs, Members(trainIndices, i, false), i);
        PickAppend(y, Members(trainIndices, i, false), i);
        xTest := xTest + [inputs[i]];
        yTest := yTest + [y[i]];
      }
      i := i + 1;
    }
  }

  lemma PickAppend<T>(xs: seq<T>, idx: seq<nat>, i: nat)
    requires forall k :: 0 <= k < |idx| ==> idx[k] < |xs|
    requires i < |xs|
    ensures Pick(xs, idx + [i]) == Pick(xs, idx) + [xs[i]]
  {
  }

  /** `split`: the training slices hold exactly TrainCount(n) rows, the test
      slices the remaining ones; rows and labels stay aligned, both sides keep
      the original order, and which side a row lands on is decided by the
      rejection sample alone (so the same draws give the same split). */
  method SplitData(inputs: seq<seq<real>>, y: seq<real>, draws: seq<int>) returns (r: Option<Split>)
    requires |inputs| <= |y| && DrawsBelow(draws, |inputs|)
    ensures r.Some? <==> Sample(draws, TrainCount(|inputs|), {}).Some?
    ensures r.Some? ==>
      var train := Members(Sample(draws, TrainCount(|inputs|), {}).value, |inputs|, true);
      var test := Members(Sample(draws, TrainCount(|inputs|), {}).value, |inputs|, false);
      r.value == Split(Pick(inputs, train), Pick(inputs, test), Pick(y, train), Pick(y, test))
    ensures r.Some? ==>
      |r.value.xTrain| == |r.value.yTrain| == TrainCount(|inputs|) &&
      |r.value.xTest| == |r.value.yTest| == |inputs| - TrainCount(|inputs|)
  {
    var trainIndices := SelectTrainIndices(|inputs|, draws);
    if trainIndices.None? {
      return None;
    }
    var xTrain, xTest, yTrain, yTest := Partition(inputs, y, trainIndices.value);
    MembersCountsSet(trainIndices.value, |inputs|);
    MembersCover(trainIndices.value, |inputs|);
    r := Some(Split(xTrain, xTest, yTrain, yTest));
  }
}
