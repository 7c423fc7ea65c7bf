// A k = 1 nearest-neighbour classifier under the L1 (Manhattan) distance.
//
// Feature vectors are rows of integers and labels are integers, so every
// distance is computed exactly. The classifier is a class whose fields hold
// the training set; `Predict` walks the query rows and, for each one, computes
// the distance to every training row, takes the first index of the smallest
// distance and copies that training row's label into the output array.
//
// The source's `predict` returns from inside its loop (the `return` is
// indented one level too deep), so as written it fills only the first query
// row. `Predict` below models the intended behaviour, one label per query
// row; `PredictAsWritten` models the code as written, and the lemmas at the
// end of the module compare the two.

module NearestNeighborModel {

  datatype Option<T> = None | Some(value: T)

  // ---------------------------------------------------------------------
  // Distances
  // ---------------------------------------------------------------------

  /** Absolute value of an integer coordinate difference. */
  function Abs(x: int): (r: int)
    ensures r >= 0 && (r == x || r == -x)
  {
    if x < 0 then -x else x
  }

  /** The L1 distance: the sum over all columns of |a[j] - b[j]|,
    * accumulated from the first column to the last. */
  function L1(a: seq<int>, b: seq<int>): (d: int)
    requires |a| == |b|
    ensures d >= 0
    decreases |a|
  {
    if |a| == 0 then 0
    else L1(a[..|a| - 1], b[..|b| - 1]) + Abs(a[|a| - 1] - b[|b| - 1])
  }

  /** A row is at distance 0 from another exactly when the two are equal. */
  lemma {:induction false} L1ZeroIff(a: seq<int>, b: seq<int>)
    requires |a| == |b|
    ensures L1(a, b) == 0 <==> a == b
  {
    if |a| > 0 {
      var n := |a| - 1;
      L1ZeroIff(a[..n], b[..n]);
      assert a == a[..n] + [a[n]];
      assert b == b[..n] + [b[n]];
    }
  }

  /** One sum of absolute differences, as a loop over the columns. */
  method L1Distance(a: seq<int>, b: seq<int>) returns (d: int)
    requires |a| == |b|
    ensures d == L1(a, b)
  {
    d := 0;
    var j := 0;
    while j < |a|
      invariant 0 <= j <= |a|
      invariant d == L1(a[..j], b[..j])
    {
      assert a[..j + 1][..j] == a[..j];
      assert b[..j + 1][..j] == b[..j];
      d := d + Abs(a[j] - b[j]);
      j := j + 1;
    }
    assert a[..|a|] == a;
    assert b[..|b|] == b;
  }

  /** Every training row has as many columns as the query row. */
  predicate SameWidth(Xtr: seq<seq<int>>, q: seq<int>)
  {
    forall k :: 0 <= k < |Xtr| ==> |Xtr[k]| == |q|
  }

  /** Every row of the matrix has the same number of columns. */
  predicate IsMatrix(X: seq<seq<int>>)
  {
    forall i :: 0 <= i < |X| ==> |X[i]| == |X[0]|
  }

  /** The vector of distances from the query row to each training row. */
  function Distances(Xtr: seq<seq<int>>, q: seq<int>): (ds: seq<int>)
    requires SameWidth(Xtr, q)
    ensures |ds| == |Xtr|
    ensures forall k :: 0 <= k < |ds| ==> ds[k] >= 0
  {
    seq(|Xtr|, k requires 0 <= k < |Xtr| => L1(Xtr[k], q))
  }

  /** A training row is at distance 0 from the query exactly when it is
    * equal to the query. */
  lemma DistancesZeroIffEqual(Xtr: seq<seq<int>>, q: seq<int>, k: int)
    requires SameWidth(Xtr, q) && 0 <= k < |Xtr|
    ensures Distances(Xtr, q)[k] == 0 <==> Xtr[k] == q
  {
    L1ZeroIff(Xtr[k], q);
  }

  /** The row-wise reduction `sum(abs(Xtr - q), axis=1)`, as a loop over
    * the training rows. */
  method L1Distances(Xtr: seq<seq<int>>, q: seq<int>) returns (ds: seq<int>)
    requires SameWidth(Xtr, q)
    ensures ds == Distances(Xtr, q)
    ensures |ds| == |Xtr|
    ensures forall k :: 0 <= k < |Xtr| ==> ds[k] == L1(Xtr[k], q) && ds[k] >= 0
  {
    ds := [];
    var k := 0;
    while k < |Xtr|
      invariant 0 <= k <= |Xtr|
      invariant ds == Distances(Xtr, q)[..k]
    {
      var d := L1Distance(Xtr[k], q);
      ds := ds + [d];
      k := k + 1;
    }
  }

  // ---------------------------------------------------------------------
  // First-occurrence argmin
  // ---------------------------------------------------------------------

  /** m indexes a smallest element of d, and every earlier element is
    * strictly larger: the index an argmin returns when the first
    * occurrence wins ties. */
  predicate IsFirstMin(d: seq<int>, m: int)
  {
    0 <= m < |d| &&
    (forall j :: 0 <= j < |d| ==> d[m] <= d[j]) &&
    (forall j :: 0 <= j < m ==> d[m] < d[j])
  }

  /** Argmin of a non-empty sequence, scanning from the front. */
  function ArgMin(d: seq<int>): (m: int)
    requires |d| > 0
    ensures IsFirstMin(d, m)
    decreases |d|
  {
    if |d| == 1 then 0
    else
      var k := ArgMin(d[..|d| - 1]);
      if d[|d| - 1] < d[k] then |d| - 1 else k
  }

  /** The first-minimum property determines the index: ArgMin returns m
    * exactly when m is the first index of a smallest element. */
  lemma ArgMinIffFirstMin(d: seq<int>, m: int)
    requires |d| > 0
    ensures m == ArgMin(d) <==> IsFirstMin(d, m)
  {
  }

  /** The argmin as a loop: a later element replaces the current candidate
    * only when it is strictly smaller. */
  method ArgMinIndex(d: seq<int>) returns (m: int)
    requires |d| > 0
    ensures IsFirstMin(d, m)
    ensures m == ArgMin(d)
  {
    m := 0;
    var j := 1;
    while j < |d|
      invariant 1 <= j <= |d|
      invariant m == ArgMin(d[..j])
    {
      assert d[..j + 1][..j] == d[..j];
      if d[j] < d[m] {
        m := j;
      }
      j := j + 1;
    }
    assert d[..|d|] == d;
  }

  // ---------------------------------------------------------------------
  // Classification of one query row and of a batch
  // ---------------------------------------------------------------------

  /** k is the first training row at the smallest L1 distance from q. */
  predicate FirstNearest(Xtr: seq<seq<int>>, q: seq<int>, k: int)
    requires SameWidth(Xtr, q)
  {
    0 <= k < |Xtr| &&
    (forall j :: 0 <= j < |Xtr| ==> L1(Xtr[k], q) <= L1(Xtr[j], q)) &&
    (forall j :: 0 <= j < k ==> L1(Xtr[k], q) < L1(Xtr[j], q))
  }

  /** The label predicted for one query row. */
  function Classify(Xtr: seq<seq<int>>, Ytr: seq<int>, q: seq<int>): (y: int)
    requires |Xtr| > 0 && |Ytr| == |Xtr| && SameWidth(Xtr, q)
    ensures exists k :: FirstNearest(Xtr, q, k) && y == Ytr[k]
  {
    var ds := Distances(Xtr, q);
    var k := ArgMin(ds);
    assert forall j :: 0 <= j < |Xtr| ==> ds[j] == L1(Xtr[j], q);
    assert FirstNearest(Xtr, q, k);
    Ytr[k]
  }

  /** The body of the source's per-row loop: the distance vector, its
    * argmin, and the label stored at that index. */
  method ClassifyRow(Xtr: seq<seq<int>>, Ytr: seq<int>, q: seq<int>) returns (y: int)
    requires |Xtr| > 0 && |Ytr| == |Xtr| && SameWidth(Xtr, q)
    ensures y == Classify(Xtr, Ytr, q)
    ensures exists k :: FirstNearest(Xtr, q, k) && y == Ytr[k]
  {
    var distances := L1Distances(Xtr, q);
    var minIndex := ArgMinIndex(distances);
    y := Ytr[minIndex];
  }

  /** There is only one first-nearest training row, so the prediction is
    * its label whichever way that row is found. */
  lemma ClassifyIsFirstNearestLabel(Xtr: seq<seq<int>>, Ytr: seq<int>, q: seq<int>, k: int)
    requires |Xtr| > 0 && |Ytr| == |Xtr| && SameWidth(Xtr, q)
    requires FirstNearest(Xtr, q, k)
    ensures Classify(Xtr, Ytr, q) == Ytr[k]
  {
    var ds := Distances(Xtr, q);
    assert IsFirstMin(ds, k);
    ArgMinIffFirstMin(ds, k);
  }

  /** A query row equal to a training row is at distance 0 from it, so it
    * gets the label of the first training row equal to it. */
  lemma {:induction false} ExactMatchGetsFirstCopyLabel(Xtr: seq<seq<int>>, Ytr: seq<int>, q: seq<int>, m: int)
    requires |Ytr| == |Xtr| && SameWidth(Xtr, q)
    requires 0 <= m < |Xtr| && Xtr[m] == q
    requires forall j :: 0 <= j < m ==> Xtr[j] != q
    ensures Classify(Xtr, Ytr, q) == Ytr[m]
  {
    L1ZeroIff(Xtr[m], q);
    forall j | 0 <= j < m
      ensures L1(Xtr[m], q) < L1(Xtr[j], q)
    {
      L1ZeroIff(Xtr[j], q);
    }
    assert FirstNearest(Xtr, q, m);
    ClassifyIsFirstNearestLabel(Xtr, Ytr, q, m);
  }

  /** The labels predicted for every query row, in order. */
  function PredictAll(Xtr: seq<seq<int>>, Ytr: seq<int>, Q: seq<seq<int>>): (ys: seq<int>)
    requires |Ytr| == |Xtr|
    requires |Q| > 0 ==> |Xtr| > 0
    requires forall i :: 0 <= i < |Q| ==> SameWidth(Xtr, Q[i])
    ensures |ys| == |Q|
    ensures forall i :: 0 <= i < |Q| ==> ys[i] in Ytr
  {
    seq(|Q|, i requires 0 <= i < |Q| => Classify(Xtr, Ytr, Q[i]))
  }

  /** Each query row is classified on its own: predicting a batch is the
    * same as predicting its two halves and joining the results. */
  lemma PredictAllSplits(Xtr: seq<seq<int>>, Ytr: seq<int>, Q1: seq<seq<int>>, Q2: seq<seq<int>>)
    requires |Ytr| == |Xtr|
    requires |Q1 + Q2| > 0 ==> |Xtr| > 0
    requires forall i :: 0 <= i < |Q1 + Q2| ==> SameWidth(Xtr, (Q1 + Q2)[i])
    ensures forall i :: 0 <= i < |Q1| ==> SameWidth(Xtr, Q1[i])
    ensures forall i :: 0 <= i < |Q2| ==> SameWidth(Xtr, Q2[i])
    ensures PredictAll(Xtr, Ytr, Q1 + Q2) == PredictAll(Xtr, Ytr, Q1) + PredictAll(Xtr, Ytr, Q2)
  {
    assert forall i :: 0 <= i < |Q1| ==> Q1[i] == (Q1 + Q2)[i];
    assert forall i :: 0 <= i < |Q2| ==> Q2[i] == (Q1 + Q2)[|Q1| + i];
  }

  /** The result the source's loop produces as written: the function
    * returns at the end of the first iteration, so only row 0 is labelled
    * and the others keep the zero they were initialised with; with no
    * query rows the loop body never runs and nothing is returned. */
  function EarlyReturnResult(Xtr: seq<seq<int>>, Ytr: seq<int>, Q: seq<seq<int>>): (r: Option<seq<int>>)
    requires |Ytr| == |Xtr|
    requires |Q| > 0 ==> |Xtr| > 0
    requires forall i :: 0 <= i < |Q| ==> SameWidth(Xtr, Q[i])
    ensures r.None? <==> |Q| == 0
    ensures r.Some? ==> |r.value| == |Q| && r.value[0] in Ytr
    ensures r.Some? ==> forall i :: 1 <= i < |Q| ==> r.value[i] == 0
  {
    if |Q| == 0 then None
    else Some([Classify(Xtr, Ytr, Q[0])] + seq(|Q| - 1, _ => 0))
  }

  /** The code as written agrees with the intended prediction on row 0 and
    * on the row count, and gives the intended result exactly when every
    * later row's intended label happens to be 0. */
  lemma EarlyReturnAgreesOnlyByChance(Xtr: seq<seq<int>>, Ytr: seq<int>, Q: seq<seq<int>>)
    requires |Ytr| == |Xtr|
    requires |Q| > 0 && |Xtr| > 0
    requires forall i :: 0 <= i < |Q| ==> SameWidth(Xtr, Q[i])
    ensures EarlyReturnResult(Xtr, Ytr, Q).Some?
    ensures |EarlyReturnResult(Xtr, Ytr, Q).value| == |Q|
    ensures EarlyReturnResult(Xtr, Ytr, Q).value[0] == PredictAll(Xtr, Ytr, Q)[0]
    ensures EarlyReturnResult(Xtr, Ytr, Q) == Some(PredictAll(Xtr, Ytr, Q))
        <==> forall i :: 1 <= i < |Q| ==> PredictAll(Xtr, Ytr, Q)[i] == 0
  {
    var r := EarlyReturnResult(Xtr, Ytr, Q).value;
    var p := PredictAll(Xtr, Ytr, Q);
    if forall i :: 1 <= i < |Q| ==> p[i] == 0 {
      assert forall i :: 0 <= i < |Q| ==> r[i] == p[i];
      assert r == p;
    }
  }

  /** The L1 distance between two rows of two columns. */
  lemma L1OfPairs(a0: int, a1: int, b0: int, b1: int)
    ensures L1([a0, a1], [b0, b1]) == Abs(a0 - b0) + Abs(a1 - b1)
  {
    assert [a0, a1][..1] == [a0] && [b0, b1][..1] == [b0];
    assert [a0][..0] == [] && [b0][..0] == [];
    assert L1([a0], [b0]) == Abs(a0 - b0);
  }

  /** Training set {[0, 0] -> 0, [10, 10] -> 1}: the query [1, 1] is at
    * distance 2 from the first row and 18 from the second, so it gets 0. */
  lemma NearerRowWins()
    ensures Classify([[0, 0], [10, 10]], [0, 1], [1, 1]) == 0
  {
    var Xtr, q := [[0, 0], [10, 10]], [1, 1];
    L1OfPairs(0, 0, 1, 1);
    L1OfPairs(10, 10, 1, 1);
    assert FirstNearest(Xtr, q, 0);
    ClassifyIsFirstNearestLabel(Xtr, [0, 1], q, 0);
  }

  /** Same training set: the query [9, 9] is nearer the second row. */
  lemma NearerSecondRowWins()
    ensures Classify([[0, 0], [10, 10]], [0, 1], [9, 9]) == 1
  {
    var Xtr, q := [[0, 0], [10, 10]], [9, 9];
    L1OfPairs(0, 0, 9, 9);
    L1OfPairs(10, 10, 9, 9);
    assert FirstNearest(Xtr, q, 1);
    ClassifyIsFirstNearestLabel(Xtr, [0, 1], q, 1);
  }

  /** With two query rows, the intended predictions are the two rows'
    * labels and the code as written keeps only the first. */
  lemma TwoQueryRows(Xtr: seq<seq<int>>, Ytr: seq<int>, Q: seq<seq<int>>)
    requires |Ytr| == |Xtr| && |Xtr| > 0 && |Q| == 2
    requires SameWidth(Xtr, Q[0]) && SameWidth(Xtr, Q[1])
    ensures forall i :: 0 <= i < |Q| ==> SameWidth(Xtr, Q[i])
    ensures PredictAll(Xtr, Ytr, Q) == [Classify(Xtr, Ytr, Q[0]), Classify(Xtr, Ytr, Q[1])]
    ensures EarlyReturnResult(Xtr, Ytr, Q) == Some([Classify(Xtr, Ytr, Q[0]), 0])
  {
    var c0 := Classify(Xtr, Ytr, Q[0]);
    assert EarlyReturnResult(Xtr, Ytr, Q).value == [c0] + seq(1, _ => 0);
    assert [c0] + seq(1, _ => 0) == [c0, 0];
  }

  /** Two query rows against the same training set: the intended prediction
    * is [0, 1], the code as written gives [0, 0]. */
  lemma EarlyReturnLosesSecondRow(Xtr: seq<seq<int>>, Ytr: seq<int>, Q: seq<seq<int>>)
    requires Xtr == [[0, 0], [10, 10]] && Ytr == [0, 1] && Q == [[1, 1], [9, 9]]
    ensures PredictAll(Xtr, Ytr, Q) == [0, 1]
    ensures EarlyReturnResult(Xtr, Ytr, Q) == Some([0, 0])
  {
    NearerRowWins();
    NearerSecondRowWins();
    TwoQueryRows(Xtr, Ytr, Q);
  }

  /** Two training rows at the same distance from the query: the row with
    * the lower index wins. */
  lemma TieGoesToLowerIndex()
    ensures Classify([[0, 0], [2, 2]], [5, 7], [1, 1]) == 5
  {
    var Xtr, q := [[0, 0], [2, 2]], [1, 1];
    L1OfPairs(0, 0, 1, 1);
    L1OfPairs(2, 2, 1, 1);
    assert FirstNearest(Xtr, q, 0);
    ClassifyIsFirstNearestLabel(Xtr, [5, 7], q, 0);
  }

  // ---------------------------------------------------------------------
  // The classifier object
  // ---------------------------------------------------------------------

  class NearestNeighbor {
    // Whether `Train` has run; before that the object has no training set.
    ghost var trained: bool
    var Xtr: seq<seq<int>>
    var Ytr: seq<int>

    ghost predicate Valid()
      reads this
    {
      trained ==> IsMatrix(Xtr) && |Ytr| == |Xtr|
    }

    constructor ()
      ensures Valid() && !trained
    {
      trained := false;
    }

    /** Stores the training matrix (one example per row) and its labels;
      * nothing is computed at training time. */
    method Train(X: seq<seq<int>>, Y: seq<int>)
      requires IsMatrix(X) && |Y| == |X|
      modifies this
      ensures Valid() && trained
      ensures Xtr == X && Ytr == Y
    {
      Xtr := X;
      Ytr := Y;
      trained := true;
    }

    /** One label per query row: the label of the first training row at
      * the smallest L1 distance. The output starts as all zeros and is
      * filled row by row. */
    method Predict(X: seq<seq<int>>) returns (Ypred: array<int>)
      requires Valid() && trained
      requires |X| > 0 ==> |Xtr| > 0
      requires forall i :: 0 <= i < |X| ==> SameWidth(Xtr, X[i])
      ensures fresh(Ypred) && Ypred.Length == |X|
      ensures Ypred[..] == PredictAll(Xtr, Ytr, X)
      ensures unchanged(this)
    {
      var numTest := |X|;
      Ypred := new int[numTest](_ => 0);
      var i := 0;
      while i < numTest
        invariant 0 <= i <= numTest
        invariant forall k :: 0 <= k < i ==> Ypred[k] == Classify(Xtr, Ytr, X[k])
      {
        Ypred[i] := ClassifyRow(Xtr, Ytr, X[i]);
        i := i + 1;
      }
    }

    /** The source's loop as written, with the `return` inside the loop
      * body: row 0 is labelled and the result is returned at once; with no
      * query rows nothing is returned. */
    method PredictAsWritten(X: seq<seq<int>>) returns (Ypred: Option<array<int>>)
      requires Valid() && trained
      requires |X| > 0 ==> |Xtr| > 0
      requires forall i :: 0 <= i < |X| ==> SameWidth(Xtr, X[i])
      ensures Ypred.None? <==> EarlyReturnResult(Xtr, Ytr, X).None?
      ensures Ypred.Some? ==> fresh(Ypred.value) && Ypred.value[..] == EarlyReturnResult(Xtr, Ytr, X).value
      ensures unchanged(this)
    {
      var numTest := |X|;
      var out := new int[numTest](_ => 0);
      for i := 0 to numTest {
        out[i] := ClassifyRow(Xtr, Ytr, X[i]);
        assert out[..] == EarlyReturnResult(Xtr, Ytr, X).value;
        return Some(out);
      }
      return None;
    }
  }
}
