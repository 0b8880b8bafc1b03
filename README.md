# Logistic regression on two features — a Dafny model

This project models the numeric and data-handling kernel of a small Go
program (`main.go`) that trains a binary logistic-regression classifier on
two-feature examples by batch gradient descent. It covers:

- `dot`, the inner product;
- `inference`, the row-wise predictions sigmoid(dot(x, w) + b);
- `dCost`, the averaged gradient of the logistic loss;
- `accuracy`, the percentage of correctly classified examples;
- `split`, the 80/20 train/test split by rejection sampling;
- the training loop: the in-place update, the report every 100 epochs
  and the decision-boundary line.

Floats are exact reals (`real`). `sigmoid` calls `math.Exp`, so it gets no
definition. Every function that needs it takes it as a parameter
`sigmoid: real -> real`. In `accuracy`, the predicted label
`math.Round(sigmoid(z))` of a linear score `z` is likewise a parameter,
`predict: real -> real`. The PRNG of `split` (`rand.NewSource(10)`) is
replaced by the sequence `draws` of the values its `Intn(len(inputs))`
calls return. The caller supplies it, and `split` reports `None` when it
runs out. The `map[int]bool` of chosen training indices is a `set<int>`,
since `split` only ever stores `true` in it.

Files, one module each:

- `wrappers.dfy` holds `Option`.
- `scoring.dfy` holds `dot` and `inference`.
- `gradient.dfy` holds `dCost`.
- `metrics.dfy` holds `accuracy`.
- `splitting.dfy` holds `split`.
- `training.dfy` holds the training loop, as the class `Trainer`. It keeps
  the fields the goroutine updates: the weight array `w`, the bias `b`, and
  the reports `log`.
- `scenarios.dfy` holds concrete cases from `main_test.go`.

Every loop of the modelled functions is a `while` loop with invariants,
proved against a specification function:

- `Dot` against `InnerProduct`;
- `Inference` against the element-wise formula and `Scores`;
- `DCost` against `GradW` and `GradB`;
- `Accuracy` against `AccuracyOf`;
- `SelectTrainIndices` against `Sample`;
- `Partition` against `Members` and `Pick`;
- `Trainer.Step` against `Descend`;
- `Trainer.Run` against `ParamsAfter` and `ReportsBefore`.

The properties are proved as lemmas about those functions.

Where the Go code produces no number, the model returns `None`:

- `accuracy` with no labels computes 0/0, which is NaN in Go.
- The boundary line with `w[1] == 0` divides by zero, giving infinite or
  NaN coordinates in Go.

The model follows the code as written:

- `dot` only needs `b` to be at least as long as `a`, not equal lengths.
- `dCost` accepts an empty batch and then returns zeros.
- `split` does not reject an empty dataset or a label slice longer than
  the rows; it reads only the first `len(inputs)` labels.
- The boundary line is computed with a plain division by `w[1]`.

## Model

| member | source | states |
|---|---|---|
| Scoring.Dot | main.go:38-44 | the result is Σ_{i<len(a)} a[i]*b[i]; b must be at least as long as a, since the loop reads b at every index of a |
| Scoring.InnerProductSymmetric | main_test.go:60-85 | for vectors of equal length, dot(a, b) == dot(b, a) |
| Scoring.InnerProductWithZero | main_test.go:66 | when every term has a zero factor (e.g. either vector is zero), dot is 0 |
| Scoring.InnerProductScaled | main.go:38-44 | scaling the weights by c scales the inner product by c |
| Scoring.Inference | main.go:30-36 | returns one prediction per row, in row order; entry i is sigmoid(dot(inputs[i], w) + b) |
| Gradient.DCost | main.go:46-57 | dw has length 2; dw[j] = Σ_i x[i][j]*(p[i]-y[i])/m, counting only rows that have column j; db = Σ_i (p[i]-y[i])/m; rows have at most 2 columns and y, p cover every row |
| Gradient.GradientIsMean | main.go:46-57 | dw[j]*m and db*m are the un-averaged error sums Σ (p[i]-y[i])*x[i][j] and Σ (p[i]-y[i]); an empty batch gives dw = [0,0], db = 0 |
| Gradient.PerfectPredictionsGiveZeroGradient | main_test.go:94-96 | when every prediction equals its label, dw = [0,0] and db = 0 |
| Metrics.Accuracy | main.go:81-89 | the result is 100 × (number of rows with y[i] == predict(dot(x, w) + b)) / len(y), in [0, 100]; None (Go's NaN) exactly when len(y) == 0 |
| Metrics.AccuracyInRange | main.go:88 | the accuracy is None exactly when there are no labels, and otherwise lies in [0, 100] |
| Metrics.AllHitIff | main.go:83-87 | the hit count over the first k rows is k exactly when all of them are hits |
| Metrics.NoHitIff | main.go:83-87 | the hit count over the first k rows is 0 exactly when none of them is a hit |
| Metrics.AccuracyFullIff | main_test.go:171-175 | with one label per row, the accuracy is 100 exactly when every row is classified correctly |
| Metrics.AccuracyZeroIff | main_test.go:174 | with at least one label, the accuracy is 0 exactly when no row is classified correctly |
| Metrics.AccuracyScaleInvariant | main.go:84 | if the classifier depends only on the sign of the score, scaling w and b by c > 0 leaves the accuracy unchanged |
| Splitting.TrainCount | main.go:62 | len(inputs)/5*4 is the largest multiple of 4 that is at most 4/5 of n |
| Splitting.SampleSound | main.go:62-68 | a successful rejection sample has exactly the target number of distinct indices, all drawn and all in [0, n) |
| Splitting.SampleSucceedsIff | main.go:62-68 | rejection sampling fails only when the draws hold fewer distinct values than the target needs |
| Splitting.SelectTrainIndices | main.go:60-68 | the index set equals the rejection sample of the draws; on success it holds exactly len(inputs)/5*4 distinct indices in [0, len(inputs)) (the loop invariant keeps the set's size equal to the number of outer iterations, so each one adds a new index) |
| Splitting.MembersExactly | main.go:69-77 | the train (test) index list holds exactly the indices below n that are (are not) in the set, in strictly increasing order |
| Splitting.MembersCover | main.go:69-77 | every index below n lands on exactly one side: the two lists' lengths add up to n |
| Splitting.MembersCountsSet | main.go:69-72 | when the set holds only indices below n, the train side has as many rows as the set has indices |
| Splitting.Partition | main.go:69-77 | xTrain/yTrain are the rows/labels at the training indices and xTest/yTest those at the others, each in increasing index order, so x and y stay aligned |
| Splitting.SplitData | main.go:59-79 | succeeds exactly when the rejection sample does; then the split is the partition by that sample, with len(inputs)/5*4 training rows and the rest as test rows, x and y of equal length on each side |
| Training.Boundary | main.go:132-133 | without a line exactly when w[1] == 0; otherwise both endpoints (0, y0) and (100, y1) satisfy w[0]*x + w[1]*y + b == 0 |
| Training.EmittedShape | main.go:124-131 | the first n iterations give ceil(n/100) reports, the k-th being the one of iteration 100*k |
| Training.ReportSchedule | main.go:124-140 | a full run has 2000/100 + 1 reports; report k is for epoch 100*k ≤ 2000 and shows the parameters after that epoch's update |
| Training.PerfectFitIsFixedPoint | main.go:125-130 | when every prediction equals its label, one iteration leaves w and b unchanged |
| Training.Trainer.constructor | main.go:122-123 | the weights start as a fresh [0, 0], the bias at 0, with no reports |
| Training.Trainer.Step | main.go:127-130 | w[j] becomes w[j] - dw[j]*lrW for each j and b becomes b - db*lrB; nothing else changes |
| Training.Trainer.Iterate | main.go:125-140 | the new parameters are one gradient-descent step from the old ones; a report (gradient, updated parameters, training accuracy, boundary line) is appended exactly when epoch % 100 == 0 |
| Training.Trainer.Run | main.go:124-141 | after epochs+1 iterations (i = 0..2000) the parameters are those of 2001 steps from zero and the reports are exactly those of epochs 0, 100, …, 2000 |
| Training.Trainer.Train | main.go:121-143 | after epochs+1 iterations (i = 0..2000) the parameters are those of 2001 steps from zero; the reports are exactly those of epochs 0, 100, …, 2000; the test accuracy is taken under the final parameters |
| Scenarios.DotCases | main_test.go:67-75 | dot([0,100],[1,1]) = 100, dot([-25,-75],[1.75,2.1]) = -201.25, dot([1,2,3],[4,5,6]) = 32 |
| Scenarios.DCostCase | main_test.go:95 | rows {1,2},{3,1}, labels {1,1}, predictions {2,2} give dw = [2, 1.5], db = 1 |
| Scenarios.TrainCountCases | main_test.go:134-143 | 5, 6, 8, 10 and 11 rows give 4, 4, 4, 8 and 8 training rows |
| Scenarios.FirstStep | main.go:124-130 | on {([50,50],1), ([10,10],0)} from zero, with sigmoid(0) = 0.5, the first step has dw = [-10,-10], db = 0 and gives w = [0.005, 0.005], b = 0 |

## Left out

- `sigmoid` and `math.Exp`: transcendental floating point. Every member that needs `sigmoid` takes it as a parameter. So the exact values in `main_test.go` (TestSigmoid, TestInference) are not reproduced.
- `math.Round` and float64 rounding: the classifier in `accuracy` is the parameter `predict`, and arithmetic is exact. `accuracy` only equals the Go result where float64 is exact.
- The Go PRNG sequence for seed 10. The draws are a parameter, so the concrete splits expected in `main_test.go` are not reproduced. Only counts, disjointness, coverage and order are proved.
- SelectTrainIndices: on endless draws the Go rejection loop does not have to terminate. The model consumes a finite sequence of draws and returns `None` when they run out.
- The channel-based one-slot hand-off `render`, the training goroutine, the `ebiten` window and `RunGame`. These exist for concurrency and display; the goroutine's body is modelled as `Trainer.Train`.
- The plot itself: the scatter of the inputs in `main`, and `Plot` in `plot.go`. They only rasterize over gonum/plot. The model's report records the line endpoints instead.
- `readFromCSV`: file I/O and `strconv` parsing.
- The `fmt.Printf` console output. The values it prints are recorded as `Report`s in `Trainer.log`, and the final test accuracy is returned by `Trainer.Train`.
- The composition in `main` of `readFromCSV`, `split` and the training goroutine is not modelled as one method. `SplitData` and `Trainer.Train` are its two steps.
- Training.Boundary: Go produces infinite or NaN coordinates when `w[1] == 0`. The model returns no line instead.
