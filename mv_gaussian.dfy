/** The multivariate Gaussian contour classifier: per-feature Box-Cox
    normalisation fitted once and replayed, one Gaussian per class, and a
    saturated likelihood ratio as the melodiness score. The numerical library
    calls (the Box-Cox lambda optimiser, the Box-Cox transform itself, mean and
    covariance estimation, the Gaussian density) are parameters of the class. */
module MvGaussian {
  import opened Common

  /** Offset added to every feature before Box-Cox, whose domain is the positive reals. */
  const EPS: real := 1.0
  /** Saturation bound of the likelihood ratio. */
  const MAX_SCORE: real := 10000.0
  /** Decision threshold: the ratio favours the positive class above 1. */
  const THRESHOLD: real := 1.0
  /** Registry identifier of this classifier. */
  const ID: string := "mv_gaussian"

  /** A probability density value. */
  type Density = d: real | 0.0 <= d

  /** A multivariate normal (allow_singular=True) whose mean and covariance are
      estimated from `samples`; only which rows it is estimated from is modelled. */
  datatype Gaussian = Gaussian(samples: seq<seq<real>>)

  /** The score of one sample from its two class densities: no positive
      evidence scores 0, positive evidence against a zero negative density
      saturates, and every ratio is capped at MAX_SCORE. */
  function LikelihoodScore(numerator: real, denominator: real): (s: real)
    ensures s <= MAX_SCORE
    ensures 0.0 <= numerator && 0.0 <= denominator ==> 0.0 <= s
  {
    if numerator == 0.0 then 0.0
    else if denominator == 0.0 then MAX_SCORE
    else if numerator / denominator > MAX_SCORE then MAX_SCORE
    else numerator / denominator
  }

  /** At the threshold 1.0 a sample is called melody exactly when its
      positive-class density is non-zero and at least its negative-class
      density; saturation never changes that call. */
  lemma ThresholdDecision(numerator: real, denominator: real)
    requires 0.0 <= numerator && 0.0 <= denominator
    ensures LikelihoodScore(numerator, denominator) >= THRESHOLD <==> 0.0 < numerator && denominator <= numerator
  {
    if 0.0 < numerator && 0.0 < denominator {
      var q := numerator / denominator;
      assert numerator == q * denominator;
      assert q >= 1.0 <==> numerator >= denominator;
    }
  }

  // The contents of `ratio` after each of the writes of predict, for one sample.
  function AfterDivide(n: real, d: real): real { if d != 0.0 then n / d else 0.0 }
  function AfterSaturate(n: real, d: real): real { if d != 0.0 then n / d else MAX_SCORE }
  function AfterZeroNumerator(n: real, d: real): real { if n == 0.0 then 0.0 else AfterSaturate(n, d) }

  /** The ratio rule of predict, run in place on a zero-filled array: divide
      where the denominator is non-zero, saturate where it is zero, zero where
      the numerator is zero, then clamp. */
  method LikelihoodRatios(numerator: seq<real>, denominator: seq<real>) returns (scores: seq<real>)
    requires |numerator| == |denominator|
    ensures |scores| == |numerator|
    ensures forall i :: 0 <= i < |scores| ==> scores[i] == LikelihoodScore(numerator[i], denominator[i])
  {
    var n := |numerator|;
    var ratio := new real[n](_ => 0.0);
    for i := 0 to n
      modifies ratio
      invariant forall k :: 0 <= k < i ==> ratio[k] == AfterDivide(numerator[k], denominator[k])
      invariant forall k :: i <= k < n ==> ratio[k] == 0.0
    {
      if denominator[i] != 0.0 {
        ratio[i] := numerator[i] / denominator[i];
      }
    }
    for i := 0 to n
      modifies ratio
      invariant forall k :: 0 <= k < i ==> ratio[k] == AfterSaturate(numerator[k], denominator[k])
      invariant forall k :: i <= k < n ==> ratio[k] == AfterDivide(numerator[k], denominator[k])
    {
      if denominator[i] == 0.0 {
        ratio[i] := MAX_SCORE;
      }
    }
    for i := 0 to n
      modifies ratio
      invariant forall k :: 0 <= k < i ==> ratio[k] == AfterZeroNumerator(numerator[k], denominator[k])
      invariant forall k :: i <= k < n ==> ratio[k] == AfterSaturate(numerator[k], denominator[k])
    {
      if numerator[i] == 0.0 {
        ratio[i] := 0.0;
      }
    }
    for i := 0 to n
      modifies ratio
      invariant forall k :: 0 <= k < i ==> ratio[k] == LikelihoodScore(numerator[k], denominator[k])
      invariant forall k :: i <= k < n ==> ratio[k] == AfterZeroNumerator(numerator[k], denominator[k])
    {
      if ratio[i] > MAX_SCORE {
        ratio[i] := MAX_SCORE;
      }
    }
    scores := ratio[..];
  }

  /** The indices `k` with `Y[k] == target`, ascending (np.where(Y == target)[0]). */
  function IndicesOf(Y: seq<int>, target: int): (idx: seq<nat>)
    ensures forall j :: 0 <= j < |idx| ==> idx[j] < |Y| && Y[idx[j]] == target
    ensures forall k :: 0 <= k < |Y| && Y[k] == target ==> k in idx
    ensures forall j, j' :: 0 <= j < j' < |idx| ==> idx[j] < idx[j']
  {
    if |Y| == 0 then []
    else IndicesOf(Y[..|Y| - 1], target) + (if Y[|Y| - 1] == target then [|Y| - 1] else [])
  }

  predicate AllBinary(Y: seq<int>) {
    forall k :: 0 <= k < |Y| ==> Y[k] == 0 || Y[k] == 1
  }

  /** The positive and the negative index sets never share an index, and
      together they cover every sample exactly when every label is 0 or 1. */
  lemma {:induction false} LabelPartition(Y: seq<int>)
    ensures forall k :: k in IndicesOf(Y, 1) ==> k !in IndicesOf(Y, 0)
    ensures |IndicesOf(Y, 1)| + |IndicesOf(Y, 0)| <= |Y|
    ensures |IndicesOf(Y, 1)| + |IndicesOf(Y, 0)| == |Y| <==> AllBinary(Y)
  {
    if |Y| > 0 {
      var n := |Y| - 1;
      var p := Y[..n];
      LabelPartition(p);
      assert IndicesOf(Y, 1) == IndicesOf(p, 1) + (if Y[n] == 1 then [n] else []);
      assert IndicesOf(Y, 0) == IndicesOf(p, 0) + (if Y[n] == 0 then [n] else []);
      assert n !in IndicesOf(p, 1) && n !in IndicesOf(p, 0);
      assert AllBinary(Y) <==> AllBinary(p) && (Y[n] == 0 || Y[n] == 1) by {
        if AllBinary(p) && (Y[n] == 0 || Y[n] == 1) {
          forall k | 0 <= k < |Y| ensures Y[k] == 0 || Y[k] == 1 {
            if k < n { assert Y[k] == p[k]; }
          }
        }
      }
    }
  }

  /** Column `c` of `X` shifted by EPS (X[:, c] + EPS). */
  function ShiftedColumn(X: Matrix, c: nat): (col: seq<real>)
    requires c < X.width
  {
    seq(|X.rows|, r requires 0 <= r < |X.rows| => X.rows[r][c] + EPS)
  }

  /** A matrix with columns but no rows: scipy's boxcox hands back its
      empty columns bare, and fit cannot unpack them. */
  predicate NoRowsToFit(X: Matrix) {
    |X.rows| == 0 && 0 < X.width
  }

  /** True when no 0/1 label points past the last row of the matrix, so that
      the rows of both classes can be selected. */
  predicate LabelsWithinRows(Y: seq<int>, rows: nat) {
    forall k :: rows <= k < |Y| ==> Y[k] != 0 && Y[k] != 1
  }

  /** The contents of a two-dimensional buffer as a matrix. */
  function Snapshot(buf: array2<real>): (m: Matrix)
    reads buf
    ensures m.width == buf.Length1 && |m.rows| == buf.Length0
    ensures forall r, c :: 0 <= r < buf.Length0 && 0 <= c < buf.Length1 ==> m.rows[r][c] == buf[r, c]
  {
    RawMatrix(buf.Length1,
      seq(buf.Length0, r requires 0 <= r < buf.Length0 reads buf =>
        seq(buf.Length1, c requires 0 <= c < buf.Length1 reads buf => buf[r, c])))
  }

  /** A row under a fitted transform: feature `c < |lmbda|` is shifted by
      EPS and transformed with `lmbda[c]`; later features are left at zero. */
  function Replay(apply: (real, real) -> real, lmbda: seq<real>, row: seq<real>): seq<real>
    requires |lmbda| <= |row|
  {
    seq(|row|, c requires 0 <= c < |row| => if c < |lmbda| then apply(row[c] + EPS, lmbda[c]) else 0.0)
  }

  /** The transformed rows of the class `target` (0 or 1), in index order. */
  function ClassRows(apply: (real, real) -> real, lmbda: seq<real>, X: Matrix, Y: seq<int>, target: int): seq<seq<real>>
    requires |lmbda| == X.width && (target == 0 || target == 1) && LabelsWithinRows(Y, |X.rows|)
  {
    var idx := IndicesOf(Y, target);
    seq(|idx|, j requires 0 <= j < |idx| => Replay(apply, lmbda, X.rows[idx[j]]))
  }

  class MvGaussian {
    /** The maximum-likelihood Box-Cox lambda of a positive sample. */
    const boxcoxFit: seq<real> -> real
    /** The Box-Cox transform of one value with a given lambda. */
    const boxcoxApply: (real, real) -> real
    /** The density of a fitted Gaussian at a point. */
    const pdf: (Gaussian, seq<real>) -> Density

    var rvPos: Option<Gaussian>
    var rvNeg: Option<Gaussian>
    var nFeats: Option<nat>
    var lmbda: Option<seq<real>>

    /** Both Gaussians or neither, and a fitted classifier has a feature
        count and lambdas. The two need not agree: a fit that fails in the
        Box-Cox step has already stored the new feature count but not yet the
        new lambdas. */
    ghost predicate Valid()
      reads this
    {
      (rvPos.Some? <==> rvNeg.Some?) &&
      (rvPos.Some? ==> nFeats.Some? && lmbda.Some?)
    }

    constructor (boxcoxFit: seq<real> -> real, boxcoxApply: (real, real) -> real,
                 pdf: (Gaussian, seq<real>) -> Density)
      ensures Valid()
      ensures rvPos == None && rvNeg == None && nFeats == None && lmbda == None
      ensures this.boxcoxFit == boxcoxFit && this.boxcoxApply == boxcoxApply && this.pdf == pdf
    {
      this.boxcoxFit := boxcoxFit;
      this.boxcoxApply := boxcoxApply;
      this.pdf := pdf;
      rvPos, rvNeg, nFeats, lmbda := None, None, None, None;
    }

    /** scipy's boxcox(x) without a lambda, unpacked into (y, lmbda): the
        fitted lambda and x transformed with it. An empty x comes back bare,
        and unpacking it into two names raises ValueError. */
    function BoxcoxPair(x: seq<real>): Result<(seq<real>, real)>
    {
      if |x| == 0 then Failure(ValueError)
      else
        var lam := boxcoxFit(x);
        Success((seq(|x|, k requires 0 <= k < |x| => boxcoxApply(x[k], lam)), lam))
    }

    /** The stored transform can be replayed on rows of `width` features:
        there are a feature count and at least that many lambdas, and the rows
        have at least that many columns. */
    predicate Replayable(width: nat)
      reads this
    {
      nFeats.Some? && lmbda.Some? && nFeats.value <= |lmbda.value| && nFeats.value <= width
    }

    /** A row under the stored transform. */
    function Replayed(row: seq<real>): seq<real>
      reads this
      requires Replayable(|row|)
    {
      Replay(boxcoxApply, lmbda.value[..nFeats.value], row)
    }

    /** _transform: replays the stored lambdas column by column into a
        zero-filled matrix of the input's shape, changing nothing. */
    method Transform(X: Matrix) returns (xb: Matrix)
      requires Replayable(X.width)
      ensures xb.width == X.width && |xb.rows| == |X.rows|
      ensures forall r, c :: 0 <= r < |X.rows| && 0 <= c < X.width ==>
        xb.rows[r][c] == if c < nFeats.value then boxcoxApply(X.rows[r][c] + EPS, lmbda.value[c]) else 0.0
      ensures forall r :: 0 <= r < |X.rows| ==> xb.rows[r] == Replayed(X.rows[r])
    {
      var m, n := |X.rows|, X.width;
      var nf, lm := nFeats.value, lmbda.value;
      var buf := new real[m, n]((_, _) => 0.0);
      for c := 0 to nf
        modifies buf
        invariant forall r, j :: 0 <= r < m && 0 <= j < n ==>
          buf[r, j] == if j < c then boxcoxApply(X.rows[r][j] + EPS, lm[j]) else 0.0
      {
        var column := ShiftedColumn(X, c);
        for r := 0 to m
          modifies buf
          invariant forall r', j :: 0 <= r' < m && 0 <= j < n ==>
            buf[r', j] == if j < c || (j == c && r' < r) then boxcoxApply(X.rows[r'][j] + EPS, lm[j]) else 0.0
        {
          buf[r, c] := boxcoxApply(column[r], lm[c]);
        }
      }
      xb := Snapshot(buf);
      forall r | 0 <= r < m
        ensures xb.rows[r] == Replayed(X.rows[r])
      {
        assert |xb.rows[r]| == n;
      }
    }

    /** _fit_boxcox: stores the number of features, fits one lambda per
        column of X + EPS, stores the lambdas, and returns X transformed with
        them, which is exactly what Transform replays afterwards. With no
        rows and at least one column, the first column's unpack raises
        ValueError after the feature count is stored and before any lambda is. */
    method FitBoxcox(X: Matrix) returns (r: Result<Matrix>)
      requires Valid()
      modifies this
      ensures Valid()
      ensures rvPos == old(rvPos) && rvNeg == old(rvNeg) && nFeats == Some(X.width)
      ensures NoRowsToFit(X) ==> r == Failure(ValueError) && lmbda == old(lmbda)
      ensures !NoRowsToFit(X) ==> r.Success? && lmbda.Some? && |lmbda.value| == X.width
      ensures !NoRowsToFit(X) ==> forall c :: 0 <= c < X.width ==> lmbda.value[c] == boxcoxFit(ShiftedColumn(X, c))
      ensures r.Success? ==> r.value.width == X.width && |r.value.rows| == |X.rows| && Replayable(X.width)
      ensures r.Success? ==> forall i :: 0 <= i < |X.rows| ==> r.value.rows[i] == Replayed(X.rows[i])
    {
      nFeats := Some(X.width);
      var m, n := |X.rows|, X.width;
      var buf := new real[m, n]((_, _) => 0.0);
      var lmbdaOpt := new real[n](_ => 0.0);
      for c := 0 to n
        modifies buf, lmbdaOpt
        invariant m == 0 ==> c == 0
        invariant forall j :: 0 <= j < c ==> lmbdaOpt[j] == boxcoxFit(ShiftedColumn(X, j))
        invariant forall r, j :: 0 <= r < m && 0 <= j < n ==>
          buf[r, j] == if j < c then boxcoxApply(X.rows[r][j] + EPS, lmbdaOpt[j]) else 0.0
      {
        var pair :- BoxcoxPair(ShiftedColumn(X, c));
        var (transformed, lam) := pair;
        for r := 0 to m
          modifies buf
          invariant forall r', j :: 0 <= r' < m && 0 <= j < n ==>
            buf[r', j] == if j < c || (j == c && r' < r) then boxcoxApply(X.rows[r'][j] + EPS, if j == c then lam else lmbdaOpt[j]) else 0.0
        {
          buf[r, c] := transformed[r];
        }
        lmbdaOpt[c] := lam;
      }
      lmbda := Some(lmbdaOpt[..]);
      var xb := Snapshot(buf);
      forall i | 0 <= i < m
        ensures xb.rows[i] == Replayed(X.rows[i])
      {
        assert lmbda.value[..nFeats.value] == lmbdaOpt[..];
        assert |xb.rows[i]| == n;
      }
      r := Success(xb);
    }

    /** fit: Box-Cox on every column, then one Gaussian from the rows labelled
        1 and one from the rows labelled 0. With no rows to fit the Box-Cox
        step raises ValueError. A 0/1 target beyond the last row makes the
        row selection raise IndexError, after the lambdas were stored. Either
        error comes before any Gaussian is replaced. */
    method Fit(X: Matrix, Y: seq<int>) returns (outcome: Outcome)
      requires Valid()
      modifies this
      ensures Valid()
      ensures nFeats == Some(X.width)
      ensures NoRowsToFit(X) ==> lmbda == old(lmbda)
      ensures !NoRowsToFit(X) ==> lmbda.Some? && |lmbda.value| == X.width
      ensures !NoRowsToFit(X) ==> forall c :: 0 <= c < X.width ==> lmbda.value[c] == boxcoxFit(ShiftedColumn(X, c))
      ensures outcome == if NoRowsToFit(X) then Fail(ValueError)
                         else if LabelsWithinRows(Y, |X.rows|) then Pass else Fail(IndexError)
      ensures outcome.Pass? ==> lmbda.Some? && |lmbda.value| == X.width
      ensures outcome.Pass? ==>
        rvPos == Some(Gaussian(ClassRows(boxcoxApply, lmbda.value, X, Y, 1))) && rvNeg == Some(Gaussian(ClassRows(boxcoxApply, lmbda.value, X, Y, 0)))
      ensures outcome.Fail? ==> rvPos == old(rvPos) && rvNeg == old(rvNeg)
    {
      var transformed := FitBoxcox(X);
      if transformed.Failure? {
        return Fail(transformed.error);
      }
      var xb := transformed.value;
      var posIdx := IndicesOf(Y, 1);
      if exists j :: 0 <= j < |posIdx| && posIdx[j] >= |xb.rows| {
        return Fail(IndexError);
      }
      var posRows := seq(|posIdx|, j requires 0 <= j < |posIdx| => xb.rows[posIdx[j]]);
      var negIdx := IndicesOf(Y, 0);
      if exists j :: 0 <= j < |negIdx| && negIdx[j] >= |xb.rows| {
        return Fail(IndexError);
      }
      var negRows := seq(|negIdx|, j requires 0 <= j < |negIdx| => xb.rows[negIdx[j]]);
      assert lmbda.value[..nFeats.value] == lmbda.value;
      assert posRows == ClassRows(boxcoxApply, lmbda.value, X, Y, 1);
      assert negRows == ClassRows(boxcoxApply, lmbda.value, X, Y, 0);
      rvPos := Some(Gaussian(posRows));
      rvNeg := Some(Gaussian(negRows));
      outcome := Pass;
    }

    /** predict as its documentation promises it: refuses before fit;
        otherwise replays the transform and scores every sample, however many,
        by the ratio of the class densities. Nothing in the classifier
        changes, so repeated calls agree. */
    method PredictIntended(X: Matrix) returns (r: Result<seq<real>>)
      requires Valid()
      ensures rvPos.None? ==> r == Failure(NotFitted)
      ensures rvPos.Some? && !Replayable(X.width) ==> r == Failure(IndexError)
      ensures rvPos.Some? && Replayable(X.width) ==>
        r.Success? && |r.value| == |X.rows| &&
        forall i :: 0 <= i < |X.rows| ==>
          r.value[i] == LikelihoodScore(pdf(rvPos.value, Replayed(X.rows[i])), pdf(rvNeg.value, Replayed(X.rows[i])))
      ensures r.Success? ==> forall i :: 0 <= i < |r.value| ==> 0.0 <= r.value[i] <= MAX_SCORE
    {
      if rvPos.None? {
        return Failure(NotFitted);
      }
      if X.width < nFeats.value || |lmbda.value| < nFeats.value {
        return Failure(IndexError);
      }
      var transformed := Transform(X);
      var pos, neg, density := rvPos.value, rvNeg.value, pdf;
      var m := |transformed.rows|;
      var numerator := seq(m, i requires 0 <= i < m => density(pos, transformed.rows[i]) as real);
      var denominator := seq(m, i requires 0 <= i < m => density(neg, transformed.rows[i]) as real);
      var scores := LikelihoodRatios(numerator, denominator);
      r := Success(scores);
    }

    /** predict as written: as PredictIntended, except that for a single
        sample the densities arrive as scalars, and subscripting them with the
        index arrays of the ratio rule raises IndexError. */
    method Predict(X: Matrix) returns (r: Result<seq<real>>)
      requires Valid()
      ensures rvPos.None? ==> r == Failure(NotFitted)
      ensures rvPos.Some? && !Replayable(X.width) ==> r == Failure(IndexError)
      ensures rvPos.Some? && Replayable(X.width) && |X.rows| == 1 ==> r == Failure(IndexError)
      ensures rvPos.Some? && Replayable(X.width) && |X.rows| != 1 ==>
        r.Success? && |r.value| == |X.rows| &&
        forall i :: 0 <= i < |X.rows| ==>
          r.value[i] == LikelihoodScore(pdf(rvPos.value, Replayed(X.rows[i])), pdf(rvNeg.value, Replayed(X.rows[i])))
      ensures r.Success? ==> forall i :: 0 <= i < |r.value| ==> 0.0 <= r.value[i] <= MAX_SCORE
    {
      r := PredictIntended(X);
      if r.Success? && |X.rows| == 1 {
        r := Failure(IndexError);
      }
    }
  }
}
