# Nearest-neighbour classifier under the L1 distance

This project models the `NearestNeighbor` class of `cs231n/nearest-neighbor.py`, a k = 1
nearest-neighbour classifier. It proves properties of that model in Dafny.

- `train(X, Y)` stores the training matrix (one example per row) and its label vector. Nothing is computed at training time.
- `predict(X)` allocates a zero-filled label vector with one entry per query row. For each query row it:
  - computes the L1 (Manhattan) distance to every stored training row,
  - takes the first index of the smallest distance (numpy's `argmin` rule),
  - copies that training row's label into the output.

Everything is in `nearest_neighbor.dfy`, module `NearestNeighborModel`:

- Specification functions on values: `L1`, `Distances`, `ArgMin`, `Classify`, `PredictAll`.
- Loops that compute the same things: `L1Distance`, `L1Distances`, `ArgMinIndex`. They stand for numpy's `sum(abs(Xtr - q), axis=1)` and `argmin`, and each is proved equal to its function.
- The class `NearestNeighbor`, with fields `Xtr` and `Ytr`. `Train` assigns them and `Predict` fills an `array<int>` row by row. A ghost field `trained` records whether `Train` has run. In the source this is whether the attributes exist yet.

Coordinates and labels are unbounded integers, so distances are exact.

The source's `return Ypred` is indented inside the `for` loop, so the code as written labels only query row 0. `Predict` models the intended behaviour, as the docstring describes it: one label for every query row. `PredictAsWritten` models the code as written. See "## Findings".

## Model

| member | source | states |
|---|---|---|
| `NearestNeighborModel.Abs` | cs231n/nearest-neighbor.py:19 | the absolute difference of one coordinate is non-negative and equals the difference or its negation |
| `NearestNeighborModel.L1` | cs231n/nearest-neighbor.py:19 | the sum of absolute coordinate differences between a training row and a query row is never negative |
| `NearestNeighborModel.L1ZeroIff` | cs231n/nearest-neighbor.py:19 | the L1 distance is 0 exactly when the two rows are equal (both directions) |
| `NearestNeighborModel.Distances` | cs231n/nearest-neighbor.py:19 | defines the `distances` vector for one query row: one entry per training row, entry k is the L1 distance from training row k, and every entry is non-negative |
| `NearestNeighborModel.DistancesZeroIffEqual` | cs231n/nearest-neighbor.py:19 | entry k of the distance vector is 0 exactly when training row k equals the query row (both directions) |
| `NearestNeighborModel.L1Distance` | cs231n/nearest-neighbor.py:19 | the column loop returns exactly the L1 distance of the two rows |
| `NearestNeighborModel.L1Distances` | cs231n/nearest-neighbor.py:19 | the loop builds exactly the `Distances` vector: one entry per training row, entry k the non-negative L1 distance from training row k to the query |
| `NearestNeighborModel.ArgMin` | cs231n/nearest-neighbor.py:20 | the argmin of a non-empty vector is a valid index, its element is no larger than any other, and every earlier element is strictly larger (first occurrence wins ties) |
| `NearestNeighborModel.ArgMinIffFirstMin` | cs231n/nearest-neighbor.py:20 | an index is the argmin exactly when it is the first index of a smallest element, so that property fixes the result |
| `NearestNeighborModel.ArgMinIndex` | cs231n/nearest-neighbor.py:20 | the scanning loop returns the first index of a smallest distance, the same index as `ArgMin` |
| `NearestNeighborModel.Classify` | cs231n/nearest-neighbor.py:19-21 | the label predicted for one query row is the label `Ytr[k]` of some training row k that is nearest under L1 and has no equally near row before it |
| `NearestNeighborModel.ClassifyRow` | cs231n/nearest-neighbor.py:19-21 | one pass of the loop body (distances, argmin, label lookup) returns `Classify`'s label, the label of the first nearest training row |
| `NearestNeighborModel.ClassifyIsFirstNearestLabel` | cs231n/nearest-neighbor.py:19-21 | whichever first-nearest training row k is named, the prediction is `Ytr[k]`, so the prediction is determined |
| `NearestNeighborModel.ExactMatchGetsFirstCopyLabel` | cs231n/nearest-neighbor.py:19-21 | a query row equal to a training row gets the label of the first training row equal to it (distance 0) |
| `NearestNeighborModel.PredictAll` | cs231n/nearest-neighbor.py:14-21 | the predictions have one entry per query row, and every predicted label is one of the stored training labels |
| `NearestNeighborModel.PredictAllSplits` | cs231n/nearest-neighbor.py:17-21 | each query row is classified independently: predicting `Q1 + Q2` gives the predictions for `Q1` followed by those for `Q2` |
| `NearestNeighborModel.L1OfPairs` | cs231n/nearest-neighbor.py:19 | helper for the worked examples: the L1 distance between two rows of two columns is the sum of the two absolute coordinate differences |
| `NearestNeighborModel.NearerRowWins` | cs231n/nearest-neighbor.py:19-21 | with training rows [0,0]→0 and [10,10]→1, the query [1,1] (distances 2 and 18) is labelled 0 |
| `NearestNeighborModel.NearerSecondRowWins` | cs231n/nearest-neighbor.py:19-21 | with the same training set, the query [9,9] (distances 18 and 2) is labelled 1 |
| `NearestNeighborModel.TieGoesToLowerIndex` | cs231n/nearest-neighbor.py:20-21 | with training rows [0,0]→5 and [2,2]→7, the query [1,1] is at distance 2 from both and is labelled 5, the lower-indexed row's label (the general tie rule is in `Classify`'s contract) |
| `NearestNeighborModel.EarlyReturnResult` | cs231n/nearest-neighbor.py:15-23 | defines the result of `predict` as written: nothing for zero query rows; otherwise one entry per query row, where entry 0 is row 0's predicted training label and every later entry keeps its zero initialisation |
| `NearestNeighborModel.EarlyReturnAgreesOnlyByChance` | cs231n/nearest-neighbor.py:15-23 | the as-written result has the right length and the right row-0 label, and it equals the intended predictions exactly when every later intended label is 0 |
| `NearestNeighborModel.TwoQueryRows` | cs231n/nearest-neighbor.py:15-23 | for any two query rows, the intended predictions are both rows' labels, while the code as written returns the first row's label followed by 0 |
| `NearestNeighborModel.EarlyReturnLosesSecondRow` | cs231n/nearest-neighbor.py:15-23 | for two query rows [1,1], [9,9] the intended predictions are [0, 1] but the code as written returns [0, 0] |
| `NearestNeighborModel.NearestNeighbor.constructor` | cs231n/nearest-neighbor.py:4-5 | a new classifier holds no training set yet |
| `NearestNeighborModel.NearestNeighbor.Train` | cs231n/nearest-neighbor.py:7-10 | afterwards the stored `Xtr` and `Ytr` are exactly the given matrix and labels, and the classifier is trained |
| `NearestNeighborModel.NearestNeighbor.Predict` | cs231n/nearest-neighbor.py:12-23 | returns a new array with one label per query row, equal to `PredictAll` of the stored training set, and leaves `Xtr` and `Ytr` unchanged |
| `NearestNeighborModel.NearestNeighbor.PredictAsWritten` | cs231n/nearest-neighbor.py:12-23 | the loop with the `return` inside it: nothing is returned for zero query rows, otherwise a new array with row 0 labelled and every other row 0; the stored training set is unchanged |

## Left out

- `cs231n/assignment1/cs231n/classifiers/softmax.py` is not part of this model. Its loss and gradient are floating-point computations with `exp`, `log` and division, and they cannot be stated exactly over integers.
- Floating-point features: coordinates are integers, so no distance is rounded.
- L1: fixed-width numpy integers are not modelled. With a dtype such as `uint8` (pixel data), `self.Xtr - X[i,:]` at line 19 wraps around before `np.abs`, so the source can compute wrong distances. The model uses unbounded integers and always gives the true L1 distance.
- numpy dtypes: `np.zeros(num_test, dtype=self.Ytr.dtype)` becomes an `array<int>` initialised to 0, and labels are integers.
- `arange` at line 17 has no `np.` prefix, so the code as written would raise `NameError` before the loop runs. The model reads it as `np.arange`, including in `PredictAsWritten`.
- Shape checks: the source validates nothing. Training rows must have the query row's width, and `Train` takes a rectangular matrix with one label per row (its docstring). These are `requires` clauses, because the source would fail inside numpy, or broadcast, rather than handle them.
- Empty training set: `np.argmin` of an empty vector raises an error. `Predict` therefore requires at least one training row whenever there is at least one query row.
- Predict before train: the source fails with `AttributeError` on `self.Ytr`. `Predict` requires that `Train` has run.
- Aliasing: `train` keeps references to the caller's numpy arrays, so a later in-place change by the caller would show up in predictions. The model stores values (`seq`), so it does not capture that aliasing.
- The column-wise and row-wise numpy reductions are modelled as sequential loops. Summation order does not matter for integers.

## Findings

| source | as written | input that shows it | evidently intended | confidence | as-written member | corrected member |
|---|---|---|---|---|---|---|
| cs231n/nearest-neighbor.py:23 | `return Ypred` sits inside the `for` loop. The function returns after labelling query row 0 and leaves the other rows at 0. With no query rows it returns `None`. | training rows [[0,0],[10,10]] with labels [0,1], query rows [[1,1],[9,9]]: the result is [0,0] | return after the loop, so that every query row is labelled: [0,1] | high; not executed | `NearestNeighborModel.NearestNeighbor.PredictAsWritten`, with `EarlyReturnLosesSecondRow` and `EarlyReturnAgreesOnlyByChance` | `NearestNeighborModel.NearestNeighbor.Predict`, proved equal to `PredictAll` |
