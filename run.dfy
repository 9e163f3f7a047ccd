/** The pipeline orchestrator: registry lookup of the three kinds of module,
    per-file extraction, labelling and feature computation, and the
    training, testing and inference paths around one classifier instance.
    Contour extraction, labelling, feature computation and the classifier's
    own predict and score are abstract functions. */
module Run {
  import opened Common

  /** compute_contours: an audio file path to its contour object. */
  datatype ContourExtractor<C> = ContourExtractor(computeContours: string -> C)

  /** compute_all: a contour object to its feature matrix, one row per contour. */
  datatype FeatureExtractor<!C> = FeatureExtractor(computeAll: C -> Matrix)

  /** The metrics dictionary returned by a classifier's score. */
  type Scores = map<string, real>

  /** What is handed to score as Y_pred: discretised labels on the training
      path, the raw predict output on the testing path. */
  datatype Predictions = Discrete(labels: seq<int>) | Raw(values: seq<real>)

  /** A classifier kind: registry id, fixed decision threshold, what predict
      of a model fitted on (X, Y) returns or raises for a matrix, and the
      shared score routine (Y_pred, Y_true, optional y_prob), which may raise. */
  datatype ClassifierSpec = ClassifierSpec(
    id: string,
    threshold: real,
    predictWith: (Matrix, seq<int>, Matrix) -> Result<seq<real>>,
    score: (Predictions, seq<int>, Option<seq<real>>) -> Result<Scores>)

  /** The three registries, from identifier to zero-argument factory. */
  datatype Registries<!C> = Registries(
    extractors: map<string, () -> ContourExtractor<C>>,
    features: map<string, () -> FeatureExtractor<C>>,
    classifiers: map<string, () -> ClassifierSpec>)

  /** What a classifier instance's behaviour depends on: its kind and the data
      of its last fit, if any. */
  datatype Model = Model(spec: ClassifierSpec, fitted: Option<(Matrix, seq<int>)>)

  /** predict of a classifier in state `m`. */
  function Predicted(m: Model, X: Matrix): Result<seq<real>> {
    if m.fitted.None? then Failure(NotFitted) else m.spec.predictWith(m.fitted.value.0, m.fitted.value.1, X)
  }

  /** A classifier instance with its two-phase state: unfitted (trainedOn is
      None) or fitted on the data of its last fit. */
  class Classifier {
    const spec: ClassifierSpec
    var trainedOn: Option<(Matrix, seq<int>)>
    /** Every fit this instance received, in order. */
    ghost var fitCalls: seq<(Matrix, seq<int>)>

    constructor (spec: ClassifierSpec)
      ensures this.spec == spec && trainedOn == None && fitCalls == []
    {
      this.spec := spec;
      trainedOn := None;
      fitCalls := [];
    }

    /** fit replaces the fitted state wholesale. */
    method Fit(X: Matrix, Y: seq<int>)
      modifies this
      ensures trainedOn == Some((X, Y)) && fitCalls == old(fitCalls) + [(X, Y)]
    {
      trainedOn := Some((X, Y));
      fitCalls := fitCalls + [(X, Y)];
    }

    function State(): Model
      reads this
    {
      Model(spec, trainedOn)
    }

    /** predict raises the not-fitted error before any fit; afterwards it
        returns, or raises, what the model fitted on the stored data does. */
    method Predict(X: Matrix) returns (r: Result<seq<real>>)
      ensures trainedOn.None? ==> r == Failure(NotFitted)
      ensures trainedOn.Some? ==> r == spec.predictWith(trainedOn.value.0, trainedOn.value.1, X)
    {
      if trainedOn.None? {
        return Failure(NotFitted);
      }
      r := spec.predictWith(trainedOn.value.0, trainedOn.value.1, X);
    }
  }

  /** The state of a possibly absent classifier (None when the classifier id was None). */
  function ModelOf(clf: Classifier?): Option<Model>
    reads clf
  {
    if clf == null then None else Some(clf.State())
  }

  // ---------------------------------------------------------------------
  // Module lookup

  /** The RuntimeError message of an unknown id; it names the id. */
  function NotFoundMessage(id: string): (message: string)
    ensures |message| == |id| + 37 && message[10..10 + |id|] == id
  {
    "Algorithm " + id + " can not be found in motif!"
  }

  /** get_module: no id gives no module, an unknown id raises RuntimeError
      naming it, a known id gives what its factory constructs. */
  function GetModule<M>(moduleId: Option<string>, registry: map<string, () -> M>): (r: Result<Option<M>>)
    ensures moduleId.None? ==> r == Success(None)
    ensures moduleId.Some? ==> (r.Failure? <==> moduleId.value !in registry)
    ensures r.Failure? ==> r.error == RuntimeError(NotFoundMessage(moduleId.value))
    ensures moduleId.Some? && moduleId.value in registry ==> r == Success(Some(registry[moduleId.value]()))
  {
    match moduleId
    case None => Success(None)
    case Some(id) =>
      if id in registry then Success(Some(registry[id]()))
      else Failure(RuntimeError(NotFoundMessage(id)))
  }

  /** get_extract_module: lookup in the contour-extractor registry. */
  function GetExtractModule<C>(extractId: Option<string>, reg: Registries<C>): (r: Result<Option<ContourExtractor<C>>>)
    ensures extractId.None? ==> r == Success(None)
    ensures extractId.Some? && extractId.value !in reg.extractors ==>
      r == Failure(RuntimeError(NotFoundMessage(extractId.value)))
    ensures extractId.Some? && extractId.value in reg.extractors ==>
      r == Success(Some(reg.extractors[extractId.value]()))
  {
    GetModule(extractId, reg.extractors)
  }

  /** get_features_module: lookup in the feature-extractor registry. */
  function GetFeaturesModule<C>(featureId: Option<string>, reg: Registries<C>): (r: Result<Option<FeatureExtractor<C>>>)
    ensures featureId.None? ==> r == Success(None)
    ensures featureId.Some? && featureId.value !in reg.features ==>
      r == Failure(RuntimeError(NotFoundMessage(featureId.value)))
    ensures featureId.Some? && featureId.value in reg.features ==>
      r == Success(Some(reg.features[featureId.value]()))
  {
    GetModule(featureId, reg.features)
  }

  /** get_classify_module: lookup in the classifier registry. */
  function GetClassifyModule<C>(classifierId: Option<string>, reg: Registries<C>): (r: Result<Option<ClassifierSpec>>)
    ensures classifierId.None? ==> r == Success(None)
    ensures classifierId.Some? && classifierId.value !in reg.classifiers ==>
      r == Failure(RuntimeError(NotFoundMessage(classifierId.value)))
    ensures classifierId.Some? && classifierId.value in reg.classifiers ==>
      r == Success(Some(reg.classifiers[classifierId.value]()))
  {
    GetModule(classifierId, reg.classifiers)
  }

  // ---------------------------------------------------------------------
  // Row-wise concatenation (np.concatenate along the first axis)

  function RowsOf(ms: seq<Matrix>): seq<seq<seq<real>>> {
    seq(|ms|, i requires 0 <= i < |ms| => ms[i].rows)
  }

  predicate SameWidth(ms: seq<Matrix>)
    requires |ms| > 0
  {
    forall i :: 0 <= i < |ms| ==> ms[i].width == ms[0].width
  }

  lemma ConcatenatedWidth(ms: seq<Matrix>)
    requires |ms| > 0 && SameWidth(ms)
    ensures forall j :: 0 <= j < |Flatten(RowsOf(ms))| ==> |Flatten(RowsOf(ms))[j]| == ms[0].width
  {
    forall j | 0 <= j < |Flatten(RowsOf(ms))|
      ensures |Flatten(RowsOf(ms))[j]| == ms[0].width
    {
      FlattenMembers(RowsOf(ms), j);
    }
  }

  /** Concatenating nothing, or matrices of different widths, raises ValueError. */
  function ConcatRows(ms: seq<Matrix>): (r: Result<Matrix>)
    ensures r.Success? <==> |ms| > 0 && SameWidth(ms)
    ensures r.Failure? ==> r.error == ValueError
    ensures r.Success? ==> r.value.width == ms[0].width && r.value.rows == Flatten(RowsOf(ms))
  {
    if |ms| == 0 || !SameWidth(ms) then Failure(ValueError)
    else
      ConcatenatedWidth(ms);
      Success(RawMatrix(ms[0].width, Flatten(RowsOf(ms))))
  }

  /** The rows of the result are the rows of each matrix in turn. */
  lemma ConcatRowsLayout(ms: seq<Matrix>, f: nat, k: nat)
    requires ConcatRows(ms).Success? && f < |ms| && k < |ms[f].rows|
    ensures |ConcatRows(ms).value.rows| == TotalLength(RowsOf(ms))
    ensures TotalLength(RowsOf(ms)[..f]) + k < |ConcatRows(ms).value.rows|
    ensures ConcatRows(ms).value.rows[TotalLength(RowsOf(ms)[..f]) + k] == ms[f].rows[k]
  {
    FlattenLength(RowsOf(ms));
    FlattenAt(RowsOf(ms), f, k);
  }

  /** Concatenating label vectors: nothing raises ValueError; otherwise every
      vector's labels, in order. */
  function ConcatLabels(ls: seq<seq<int>>): (r: Result<seq<int>>)
    ensures r.Success? <==> |ls| > 0
    ensures r.Failure? ==> r.error == ValueError
    ensures r.Success? ==> |r.value| == TotalLength(ls) && forall f :: 0 <= f < |ls| ==> PartAt(r.value, ls, f)
  {
    if |ls| == 0 then Failure(ValueError)
    else
      FlattenLength(ls);
      assert forall f :: 0 <= f < |ls| ==> PartAt(Flatten(ls), ls, f) by {
        forall f | 0 <= f < |ls| ensures PartAt(Flatten(ls), ls, f) {
          FlattenPartAt(ls, f);
        }
      }
      Success(Flatten(ls))
  }

  // ---------------------------------------------------------------------
  // process_with_labels

  function FileContours<C, A>(ex: ContourExtractor<C>, pairs: seq<(string, A)>): seq<C> {
    seq(|pairs|, k requires 0 <= k < |pairs| => ex.computeContours(pairs[k].0))
  }

  function FileFeatures<C, A>(ex: ContourExtractor<C>, fx: FeatureExtractor<C>, pairs: seq<(string, A)>): seq<Matrix> {
    var ms := seq(|pairs|, k requires 0 <= k < |pairs| => fx.computeAll(ex.computeContours(pairs[k].0)));
    assert forall k :: 0 <= k < |ms| ==> Rectangular(ms[k]) by {
      forall k | 0 <= k < |ms| ensures Rectangular(ms[k]) {
        var m: Matrix := fx.computeAll(ex.computeContours(pairs[k].0));
        assert ms[k] == m;
      }
    }
    ms
  }

  function FileLabels<C, A>(ex: ContourExtractor<C>, pairs: seq<(string, A)>, labeler: (C, A) -> seq<int>): seq<seq<int>> {
    seq(|pairs|, k requires 0 <= k < |pairs| => labeler(ex.computeContours(pairs[k].0), pairs[k].1))
  }

  /** The global training (or testing) matrix, label vector and contour list. */
  datatype Labelled<C> = Labelled(X: Matrix, Y: seq<int>, contours: seq<C>)

  /** What process_with_labels returns or raises for a list of (audio,
      annotation) pairs: the first file's call on a missing module raises
      AttributeError, and the concatenations raise ValueError. */
  function LabelledData<C, A>(ex: Option<ContourExtractor<C>>, fx: Option<FeatureExtractor<C>>,
                              pairs: seq<(string, A)>, labeler: (C, A) -> seq<int>): Result<Labelled<C>>
  {
    if |pairs| == 0 then Failure(ValueError)
    else if ex.None? || fx.None? then Failure(AttributeError)
    else
      var X :- ConcatRows(FileFeatures(ex.value, fx.value, pairs));
      Success(Labelled(X, Flatten(FileLabels(ex.value, pairs, labeler)), FileContours(ex.value, pairs)))
  }

  /** The global matrix has as many rows as all files' feature matrices
      together, file f's rows following those of the files before it; the same
      holds for the labels; the contour list has one entry per pair, in order. */
  lemma LabelledLayout<C, A>(ex: Option<ContourExtractor<C>>, fx: Option<FeatureExtractor<C>>,
                             pairs: seq<(string, A)>, labeler: (C, A) -> seq<int>, f: nat)
    requires LabelledData(ex, fx, pairs, labeler).Success? && f < |pairs|
    ensures ex.Some? && fx.Some?
    ensures var d := LabelledData(ex, fx, pairs, labeler).value;
            var feats := FileFeatures(ex.value, fx.value, pairs);
            var labels := FileLabels(ex.value, pairs, labeler);
            |d.X.rows| == TotalLength(RowsOf(feats)) &&
            |d.Y| == TotalLength(labels) &&
            |d.contours| == |pairs| && d.contours[f] == ex.value.computeContours(pairs[f].0) &&
            PartAt(d.X.rows, RowsOf(feats), f) && PartAt(d.Y, labels, f)
  {
    var feats := FileFeatures(ex.value, fx.value, pairs);
    var labels := FileLabels(ex.value, pairs, labeler);
    FlattenLength(RowsOf(feats));
    FlattenLength(labels);
    FlattenPartAt(RowsOf(feats), f);
    FlattenPartAt(labels, f);
  }

  /** Two training files of ten contours each give a twenty-row matrix. */
  lemma TwoFilesOfTenRows<C, A>(ex: Option<ContourExtractor<C>>, fx: Option<FeatureExtractor<C>>,
                                pairs: seq<(string, A)>, labeler: (C, A) -> seq<int>)
    requires LabelledData(ex, fx, pairs, labeler).Success? && |pairs| == 2
    requires forall k :: 0 <= k < 2 ==> |fx.value.computeAll(ex.value.computeContours(pairs[k].0)).rows| == 10
    ensures |LabelledData(ex, fx, pairs, labeler).value.X.rows| == 20
  {
    LabelledLayout(ex, fx, pairs, labeler, 0);
    var feats := FileFeatures(ex.value, fx.value, pairs);
    var rows := RowsOf(feats);
    assert |rows[0]| == 10 && |rows[1]| == 10;
    assert rows[..1][..0] == [] && rows[..1][0] == rows[0];
    assert rows[..|rows| - 1] == rows[..1];
    assert TotalLength(rows[..1]) == 10;
  }

  /** process_with_labels: extracts, labels and featurises every pair in
      order, then concatenates. */
  method ProcessWithLabels<C, A>(ex: Option<ContourExtractor<C>>, fx: Option<FeatureExtractor<C>>,
                                 pairs: seq<(string, A)>, labeler: (C, A) -> seq<int>)
    returns (r: Result<Labelled<C>>)
    ensures r == LabelledData(ex, fx, pairs, labeler)
  {
    var contourList: seq<C> := [];
    var featuresList: seq<Matrix> := [];
    var labelsList: seq<seq<int>> := [];
    for i := 0 to |pairs|
      invariant i > 0 ==> ex.Some? && fx.Some?
      invariant |contourList| == i && |featuresList| == i && |labelsList| == i
      invariant forall k :: 0 <= k < i ==>
        contourList[k] == ex.value.computeContours(pairs[k].0) &&
        labelsList[k] == labeler(contourList[k], pairs[k].1) &&
        featuresList[k] == fx.value.computeAll(contourList[k])
    {
      var (audioFilepath, annotation) := pairs[i];
      if ex.None? {
        return Failure(AttributeError);
      }
      var ctr := ex.value.computeContours(audioFilepath);
      var labels := labeler(ctr, annotation);
      if fx.None? {
        return Failure(AttributeError);
      }
      var features := fx.value.computeAll(ctr);
      featuresList := featuresList + [features];
      labelsList := labelsList + [labels];
      contourList := contourList + [ctr];
    }
    assert |pairs| > 0 ==> featuresList == FileFeatures(ex.value, fx.value, pairs);
    assert |pairs| > 0 ==> labelsList == FileLabels(ex.value, pairs, labeler);
    assert |pairs| > 0 ==> contourList == FileContours(ex.value, pairs);
    var X :- ConcatRows(featuresList);
    var Y := ConcatLabels(labelsList).value;
    r := Success(Labelled(X, Y, contourList));
  }

  // ---------------------------------------------------------------------
  // process_audio_only

  type Triple<C> = (C, Matrix, seq<real>)

  /** One iteration of process_audio_only: contours, features, then predict;
      a missing module raises AttributeError where it is first used. */
  function AudioTriple<C>(ex: Option<ContourExtractor<C>>, fx: Option<FeatureExtractor<C>>,
                          m: Option<Model>, file: string): (r: Result<Triple<C>>)
    ensures ex.None? || fx.None? || m.None? ==> r == Failure(AttributeError)
    ensures ex.Some? && fx.Some? && m.Some? && m.value.fitted.None? ==> r == Failure(NotFitted)
    ensures ex.Some? && fx.Some? && m.Some? && m.value.fitted.Some? ==>
      var X := fx.value.computeAll(ex.value.computeContours(file));
      var p := m.value.spec.predictWith(m.value.fitted.value.0, m.value.fitted.value.1, X);
      (p.Failure? ==> r == Failure(p.error)) && (p.Success? ==> r.Success? && r.value.2 == p.value)
    ensures r.Success? ==>
      ex.Some? && fx.Some? && m.Some? && m.value.fitted.Some? &&
      r.value.0 == ex.value.computeContours(file) && r.value.1 == fx.value.computeAll(r.value.0)
  {
    if ex.None? then Failure(AttributeError)
    else
      var ctr := ex.value.computeContours(file);
      if fx.None? || m.None? then Failure(AttributeError)
      else
        var X := fx.value.computeAll(ctr);
        var Y :- Predicted(m.value, X);
        Success((ctr, X, Y))
  }

  /** What process_audio_only returns or raises for `files`, the first
      failing file ending the loop. */
  function AudioOnly<C>(ex: Option<ContourExtractor<C>>, fx: Option<FeatureExtractor<C>>,
                        m: Option<Model>, files: seq<string>): Result<seq<Triple<C>>>
  {
    if |files| == 0 then Success([])
    else
      var before :- AudioOnly(ex, fx, m, files[..|files| - 1]);
      var t :- AudioTriple(ex, fx, m, files[|files| - 1]);
      Success(before + [t])
  }

  /** A failure on a prefix of the files is the failure of the whole loop. */
  lemma {:induction false} AudioOnlyPrefixFailure<C>(ex: Option<ContourExtractor<C>>, fx: Option<FeatureExtractor<C>>,
                                                     m: Option<Model>, files: seq<string>, i: nat)
    requires i <= |files| && AudioOnly(ex, fx, m, files[..i]).Failure?
    ensures AudioOnly(ex, fx, m, files) == AudioOnly(ex, fx, m, files[..i])
    decreases |files|
  {
    if i < |files| {
      var p := files[..|files| - 1];
      assert p[..i] == files[..i];
      AudioOnlyPrefixFailure(ex, fx, m, p, i);
    } else {
      assert files[..i] == files;
    }
  }

  /** The loop succeeds exactly when every file does, and then holds every
      file's triple in input order. */
  lemma {:induction false} AudioOnlyLayout<C>(ex: Option<ContourExtractor<C>>, fx: Option<FeatureExtractor<C>>,
                                              m: Option<Model>, files: seq<string>)
    ensures AudioOnly(ex, fx, m, files).Success? <==>
      forall k :: 0 <= k < |files| ==> AudioTriple(ex, fx, m, files[k]).Success?
    ensures AudioOnly(ex, fx, m, files).Success? ==>
      |AudioOnly(ex, fx, m, files).value| == |files| &&
      forall k :: 0 <= k < |files| ==> AudioTriple(ex, fx, m, files[k]) == Success(AudioOnly(ex, fx, m, files).value[k])
  {
    if |files| > 0 {
      var n := |files| - 1;
      var p := files[..n];
      AudioOnlyLayout(ex, fx, m, p);
      assert forall k :: 0 <= k < n ==> p[k] == files[k];
    }
  }

  /** A failing loop fails with the error of its first failing file. */
  lemma {:induction false} AudioOnlyFirstFailure<C>(ex: Option<ContourExtractor<C>>, fx: Option<FeatureExtractor<C>>,
                                                    m: Option<Model>, files: seq<string>)
    requires AudioOnly(ex, fx, m, files).Failure?
    ensures exists j :: (0 <= j < |files| && (forall k :: 0 <= k < j ==> AudioTriple(ex, fx, m, files[k]).Success?) &&
                         AudioTriple(ex, fx, m, files[j]) == Failure(AudioOnly(ex, fx, m, files).error))
  {
    var n := |files| - 1;
    var p := files[..n];
    if AudioOnly(ex, fx, m, p).Failure? {
      AudioOnlyFirstFailure(ex, fx, m, p);
      var j :| 0 <= j < |p| && (forall k :: 0 <= k < j ==> AudioTriple(ex, fx, m, p[k]).Success?) &&
        AudioTriple(ex, fx, m, p[j]) == Failure(AudioOnly(ex, fx, m, p).error);
      assert forall k :: 0 <= k <= j ==> p[k] == files[k];
    } else {
      AudioOnlyLayout(ex, fx, m, p);
      assert forall k :: 0 <= k < n ==> p[k] == files[k];
      assert AudioTriple(ex, fx, m, files[n]).Failure?;
    }
  }

  /** process_audio_only: one (contour, features, scores) triple per file, in
      input order, predicted by the classifier as it stands; it never fits. */
  method ProcessAudioOnly<C>(ex: Option<ContourExtractor<C>>, fx: Option<FeatureExtractor<C>>,
                             clf: Classifier?, files: seq<string>)
    returns (r: Result<seq<Triple<C>>>)
    ensures r == AudioOnly(ex, fx, ModelOf(clf), files)
    ensures r.Success? ==> |r.value| == |files|
    ensures r.Success? ==>
      forall k :: 0 <= k < |r.value| ==>
        ex.Some? && fx.Some? && clf != null && clf.trainedOn.Some? &&
        r.value[k].0 == ex.value.computeContours(files[k]) &&
        r.value[k].1 == fx.value.computeAll(r.value[k].0) &&
        clf.spec.predictWith(clf.trainedOn.value.0, clf.trainedOn.value.1, r.value[k].1) == Success(r.value[k].2)
  {
    var contourList: seq<Triple<C>> := [];
    for i := 0 to |files|
      invariant AudioOnly(ex, fx, ModelOf(clf), files[..i]) == Success(contourList)
    {
      assert files[..i + 1][..i] == files[..i];
      if ex.None? {
        AudioOnlyPrefixFailure(ex, fx, ModelOf(clf), files, i + 1);
        return Failure(AttributeError);
      }
      var ctr := ex.value.computeContours(files[i]);
      if fx.None? || clf == null {
        AudioOnlyPrefixFailure(ex, fx, ModelOf(clf), files, i + 1);
        return Failure(AttributeError);
      }
      var X := fx.value.computeAll(ctr);
      var predicted := clf.Predict(X);
      if predicted.Failure? {
        AudioOnlyPrefixFailure(ex, fx, ModelOf(clf), files, i + 1);
        return Failure(predicted.error);
      }
      contourList := contourList + [(ctr, X, predicted.value)];
    }
    assert files[..|files|] == files;
    r := Success(contourList);
    AudioOnlyLayout(ex, fx, ModelOf(clf), files);
  }

  // ---------------------------------------------------------------------
  // process

  /** (Y_prob >= threshold).astype(int) */
  function Discretise(probs: seq<real>, threshold: real): (labels: seq<int>)
    ensures |labels| == |probs|
    ensures forall i :: 0 <= i < |probs| ==> (labels[i] == 1 <==> probs[i] >= threshold)
    ensures forall i :: 0 <= i < |probs| ==> (labels[i] == 0 <==> probs[i] < threshold)
  {
    seq(|probs|, i requires 0 <= i < |probs| => if probs[i] >= threshold then 1 else 0)
  }

  /** The training score of a classifier of kind `spec` fitted on `d`: its
      predictions on d.X, discretised at its threshold, scored together with
      the probabilities. */
  function TrainScores<C>(spec: ClassifierSpec, d: Labelled<C>): Result<Scores> {
    var probs :- spec.predictWith(d.X, d.Y, d.X);
    spec.score(Discrete(Discretise(probs, spec.threshold)), d.Y, Some(probs))
  }

  /** The testing score of a classifier in state `m` on `d`: predict raises
      before any fit and its errors propagate; the raw predictions are scored
      with no probabilities, and a ValueError from score gives no scores. */
  function TestScores<C>(m: Model, d: Labelled<C>): (r: Result<Scores>)
    ensures m.fitted.None? ==> r == Failure(NotFitted)
    ensures Predicted(m, d.X).Failure? ==> r == Failure(Predicted(m, d.X).error)
    ensures Predicted(m, d.X).Success? ==>
      var scored := m.spec.score(Raw(Predicted(m, d.X).value), d.Y, None);
      r == if scored.Success? then scored
           else if scored.error == ValueError then Success(map[])
           else Failure(scored.error)
  {
    var yPred :- Predicted(m, d.X);
    var scored := m.spec.score(Raw(yPred), d.Y, None);
    if scored.Success? then scored
    else if scored.error == ValueError then Success(map[])
    else Failure(scored.error)
  }

  /** The training path: fit once on the concatenated data, predict on that
      same data, discretise at the threshold and score with the probabilities;
      a failure of predict or score propagates after the fit. */
  method TrainPath<C, A>(ex: Option<ContourExtractor<C>>, fx: Option<FeatureExtractor<C>>, clf: Classifier?,
                         pairs: seq<(string, A)>, labeler: (C, A) -> seq<int>)
    returns (r: Result<(Scores, seq<C>)>)
    modifies clf
    ensures LabelledData(ex, fx, pairs, labeler).Failure? ==>
      r == Failure(LabelledData(ex, fx, pairs, labeler).error) && (clf != null ==> unchanged(clf))
    ensures LabelledData(ex, fx, pairs, labeler).Success? && clf == null ==> r == Failure(AttributeError)
    ensures LabelledData(ex, fx, pairs, labeler).Success? && clf != null ==>
      var d := LabelledData(ex, fx, pairs, labeler).value;
      var scored := TrainScores(clf.spec, d);
      clf.trainedOn == Some((d.X, d.Y)) && clf.fitCalls == old(clf.fitCalls) + [(d.X, d.Y)] &&
      r == if scored.Success? then Success((scored.value, d.contours)) else Failure(scored.error)
  {
    var d :- ProcessWithLabels(ex, fx, pairs, labeler);
    if clf == null {
      return Failure(AttributeError);
    }
    clf.Fit(d.X, d.Y);
    var yProb :- clf.Predict(d.X);
    var yPred := Discretise(yProb, clf.spec.threshold);
    var trainScores :- clf.spec.score(Discrete(yPred), d.Y, Some(yProb));
    r := Success((trainScores, d.contours));
  }

  /** The testing path: predict with the classifier as it stands and score the
      raw predictions; it cannot fit. */
  method TestPath<C, A>(ex: Option<ContourExtractor<C>>, fx: Option<FeatureExtractor<C>>, clf: Classifier?,
                        pairs: seq<(string, A)>, labeler: (C, A) -> seq<int>)
    returns (r: Result<(Scores, seq<C>)>)
    ensures LabelledData(ex, fx, pairs, labeler).Failure? ==> r == Failure(LabelledData(ex, fx, pairs, labeler).error)
    ensures LabelledData(ex, fx, pairs, labeler).Success? && clf == null ==> r == Failure(AttributeError)
    ensures LabelledData(ex, fx, pairs, labeler).Success? && clf != null ==>
      var d := LabelledData(ex, fx, pairs, labeler).value;
      var scored := TestScores(clf.State(), d);
      r == if scored.Success? then Success((scored.value, d.contours)) else Failure(scored.error)
  {
    var d :- ProcessWithLabels(ex, fx, pairs, labeler);
    if clf == null {
      return Failure(AttributeError);
    }
    var yPred :- clf.Predict(d.X);
    var scored := clf.spec.score(Raw(yPred), d.Y, None);
    var testScores: Scores;
    if scored.Success? {
      testScores := scored.value;
    } else if scored.error.ValueError? {
      testScores := map[];
    } else {
      return Failure(scored.error);
    }
    r := Success((testScores, d.contours));
  }

  /** The five results of process; each is present only when its path ran. */
  datatype Outputs<C> = Outputs(
    trainScores: Option<Scores>,
    testScores: Option<Scores>,
    trainContours: Option<seq<C>>,
    testContours: Option<seq<C>>,
    contourList: Option<seq<Triple<C>>>)

  predicate RanExactly<C, A>(o: Outputs<C>, audio: Option<seq<string>>,
                             train: Option<seq<(string, A)>>, test: Option<seq<(string, A)>>) {
    (o.trainScores.Some? <==> train.Some?) && (o.trainContours.Some? <==> train.Some?) &&
    (o.testScores.Some? <==> test.Some?) && (o.testContours.Some? <==> test.Some?) &&
    (o.contourList.Some? <==> audio.Some?)
  }

  /** The training stage of process: the training scores and contours, and
      the classifier state the later stages see. */
  function TrainStage<C, A>(ex: Option<ContourExtractor<C>>, fx: Option<FeatureExtractor<C>>, m0: Option<Model>,
                            train: Option<seq<(string, A)>>, labeler: (C, A) -> seq<int>)
    : Result<(Option<Scores>, Option<seq<C>>, Option<Model>)>
  {
    if train.None? then Success((None, None, m0))
    else
      var d :- LabelledData(ex, fx, train.value, labeler);
      if m0.None? then Failure(AttributeError)
      else
        var s :- TrainScores(m0.value.spec, d);
        Success((Some(s), Some(d.contours), Some(Model(m0.value.spec, Some((d.X, d.Y))))))
  }

  /** The testing stage of process with the classifier in state `m`. */
  function TestStage<C, A>(ex: Option<ContourExtractor<C>>, fx: Option<FeatureExtractor<C>>, m: Option<Model>,
                           test: Option<seq<(string, A)>>, labeler: (C, A) -> seq<int>)
    : Result<(Option<Scores>, Option<seq<C>>)>
  {
    if test.None? then Success((None, None))
    else
      var d :- LabelledData(ex, fx, test.value, labeler);
      if m.None? then Failure(AttributeError)
      else
        var s :- TestScores(m.value, d);
        Success((Some(s), Some(d.contours)))
  }

  /** What the three paths of process return or raise, run in order on one
      classifier that starts in state `m0`; the first exception ends the run. */
  function Pipeline<C, A>(ex: Option<ContourExtractor<C>>, fx: Option<FeatureExtractor<C>>, m0: Option<Model>,
                          audio: Option<seq<string>>, train: Option<seq<(string, A)>>, test: Option<seq<(string, A)>>,
                          labeler: (C, A) -> seq<int>): Result<Outputs<C>>
  {
    var t :- TrainStage(ex, fx, m0, train, labeler);
    var s :- TestStage(ex, fx, t.2, test, labeler);
    var a :- if audio.None? then Success(None)
             else var l :- AudioOnly(ex, fx, t.2, audio.value); Success(Some(l));
    Success(Outputs(t.0, s.0, t.1, s.1, a))
  }

  /** The data the classifier is fitted on once the training path, if any, ran. */
  function FittedData<C, A>(ex: Option<ContourExtractor<C>>, fx: Option<FeatureExtractor<C>>, m0: Model,
                            train: Option<seq<(string, A)>>, labeler: (C, A) -> seq<int>): Option<(Matrix, seq<int>)>
  {
    if train.Some? && LabelledData(ex, fx, train.value, labeler).Success? then
      var d := LabelledData(ex, fx, train.value, labeler).value;
      Some((d.X, d.Y))
    else m0.fitted
  }

  /** A run that returns has exactly the results of the paths whose input
      was given. */
  lemma PipelineRanExactly<C, A>(ex: Option<ContourExtractor<C>>, fx: Option<FeatureExtractor<C>>, m0: Option<Model>,
                                 audio: Option<seq<string>>, train: Option<seq<(string, A)>>, test: Option<seq<(string, A)>>,
                                 labeler: (C, A) -> seq<int>)
    requires Pipeline(ex, fx, m0, audio, train, test, labeler).Success?
    ensures RanExactly(Pipeline(ex, fx, m0, audio, train, test, labeler).value, audio, train, test)
  {
  }

  /** Training results: the classifier fitted on the training data predicts
      that same data, and the training scores are those predictions
      discretised at the classifier's threshold, scored with the probabilities. */
  lemma PipelineTraining<C, A>(ex: Option<ContourExtractor<C>>, fx: Option<FeatureExtractor<C>>, m0: Option<Model>,
                               audio: Option<seq<string>>, train: Option<seq<(string, A)>>, test: Option<seq<(string, A)>>,
                               labeler: (C, A) -> seq<int>)
    requires Pipeline(ex, fx, m0, audio, train, test, labeler).Success? && train.Some?
    ensures LabelledData(ex, fx, train.value, labeler).Success? && m0.Some?
    ensures var d := LabelledData(ex, fx, train.value, labeler).value;
            var spec := m0.value.spec;
            var probs := spec.predictWith(d.X, d.Y, d.X);
            probs.Success? &&
            spec.score(Discrete(Discretise(probs.value, spec.threshold)), d.Y, Some(probs.value)).Success? &&
            Pipeline(ex, fx, m0, audio, train, test, labeler).value.trainScores ==
              Some(spec.score(Discrete(Discretise(probs.value, spec.threshold)), d.Y, Some(probs.value)).value) &&
            Pipeline(ex, fx, m0, audio, train, test, labeler).value.trainContours == Some(d.contours)
  {
  }

  /** Testing results: the testing data is scored by the classifier fitted on
      the training data when training ran, and as it stood otherwise. */
  lemma PipelineTesting<C, A>(ex: Option<ContourExtractor<C>>, fx: Option<FeatureExtractor<C>>, m0: Option<Model>,
                              audio: Option<seq<string>>, train: Option<seq<(string, A)>>, test: Option<seq<(string, A)>>,
                              labeler: (C, A) -> seq<int>)
    requires Pipeline(ex, fx, m0, audio, train, test, labeler).Success? && test.Some?
    ensures LabelledData(ex, fx, test.value, labeler).Success? && m0.Some?
    ensures var d := LabelledData(ex, fx, test.value, labeler).value;
            var m := Model(m0.value.spec, FittedData(ex, fx, m0.value, train, labeler));
            TestScores(m, d).Success? &&
            Pipeline(ex, fx, m0, audio, train, test, labeler).value.testScores == Some(TestScores(m, d).value) &&
            Pipeline(ex, fx, m0, audio, train, test, labeler).value.testContours == Some(d.contours)
  {
  }

  /** Inference results: one triple per audio file in order, its predictions
      those of the classifier fitted on the training data when training ran,
      and as it stood otherwise. */
  lemma PipelineInference<C, A>(ex: Option<ContourExtractor<C>>, fx: Option<FeatureExtractor<C>>, m0: Option<Model>,
                                audio: Option<seq<string>>, train: Option<seq<(string, A)>>, test: Option<seq<(string, A)>>,
                                labeler: (C, A) -> seq<int>)
    requires Pipeline(ex, fx, m0, audio, train, test, labeler).Success? && audio.Some?
    ensures Pipeline(ex, fx, m0, audio, train, test, labeler).value.contourList.Some?
    ensures var l := Pipeline(ex, fx, m0, audio, train, test, labeler).value.contourList.value;
            |l| == |audio.value| &&
            forall k :: 0 <= k < |l| ==>
              ex.Some? && fx.Some? && m0.Some? && FittedData(ex, fx, m0.value, train, labeler).Some? &&
              l[k].0 == ex.value.computeContours(audio.value[k]) &&
              l[k].1 == fx.value.computeAll(l[k].0) &&
              m0.value.spec.predictWith(FittedData(ex, fx, m0.value, train, labeler).value.0,
                                        FittedData(ex, fx, m0.value, train, labeler).value.1, l[k].1) == Success(l[k].2)
  {
    var t := TrainStage(ex, fx, m0, train, labeler).value;
    AudioOnlyLayout(ex, fx, t.2, audio.value);
  }

  /** Testing a classifier that was never fitted raises the not-fitted error
      once the testing data is in hand. */
  lemma TestingUnfittedFails<C, A>(ex: Option<ContourExtractor<C>>, fx: Option<FeatureExtractor<C>>, spec: ClassifierSpec,
                                   audio: Option<seq<string>>, test: Option<seq<(string, A)>>, labeler: (C, A) -> seq<int>)
    requires test.Some? && LabelledData(ex, fx, test.value, labeler).Success?
    ensures Pipeline(ex, fx, Some(Model(spec, None)), audio, None, test, labeler) == Failure(NotFitted)
  {
  }

  /** The three paths in order (training, testing, inference) on one
      classifier instance, the first exception ending the run. */
  method RunPaths<C, A>(ex: Option<ContourExtractor<C>>, fx: Option<FeatureExtractor<C>>, clf: Classifier?,
                        audio: Option<seq<string>>, train: Option<seq<(string, A)>>, test: Option<seq<(string, A)>>,
                        labeler: (C, A) -> seq<int>)
    returns (r: Result<Outputs<C>>)
    modifies clf
    ensures r == Pipeline(ex, fx, old(ModelOf(clf)), audio, train, test, labeler)
    ensures clf != null && train.None? ==> unchanged(clf)
    ensures clf != null ==> |clf.fitCalls| <= |old(clf.fitCalls)| + 1
    ensures r.Success? ==> RanExactly(r.value, audio, train, test)
    ensures r.Success? && train.Some? ==>
      LabelledData(ex, fx, train.value, labeler).Success? && clf != null &&
      var d := LabelledData(ex, fx, train.value, labeler).value;
      clf.fitCalls == old(clf.fitCalls) + [(d.X, d.Y)] && r.value.trainContours == Some(d.contours)
    ensures r.Success? && test.Some? ==>
      LabelledData(ex, fx, test.value, labeler).Success? &&
      r.value.testContours == Some(LabelledData(ex, fx, test.value, labeler).value.contours)
    ensures (clf != null && old(clf.trainedOn).None? && train.None? && test.Some? &&
             LabelledData(ex, fx, test.value, labeler).Success?) ==> r == Failure(NotFitted)
  {
    var trainScores: Option<Scores> := None;
    var trainContours: Option<seq<C>> := None;
    if train.Some? {
      var t :- TrainPath(ex, fx, clf, train.value, labeler);
      trainScores, trainContours := Some(t.0), Some(t.1);
    }
    var testScores: Option<Scores> := None;
    var testContours: Option<seq<C>> := None;
    if test.Some? {
      var t :- TestPath(ex, fx, clf, test.value, labeler);
      testScores, testContours := Some(t.0), Some(t.1);
    }
    var contourList: Option<seq<Triple<C>>> := None;
    if audio.Some? {
      var l :- ProcessAudioOnly(ex, fx, clf, audio.value);
      contourList := Some(l);
    }
    r := Success(Outputs(trainScores, testScores, trainContours, testContours, contourList));
  }

  /** What process returns or raises: the modules are looked up in the order
      extractor, features, classifier, and the paths then run on a new,
      unfitted classifier of the looked-up kind. */
  function ProcessResult<C, A>(audio: Option<seq<string>>, train: Option<seq<(string, A)>>, test: Option<seq<(string, A)>>,
                               extractId: Option<string>, featureId: Option<string>, classifierId: Option<string>,
                               reg: Registries<C>, labeler: (C, A) -> seq<int>): Result<Outputs<C>>
  {
    var ex :- GetExtractModule(extractId, reg);
    var fx :- GetFeaturesModule(featureId, reg);
    var spec :- GetClassifyModule(classifierId, reg);
    Pipeline(ex, fx, if spec.Some? then Some(Model(spec.value, None)) else None, audio, train, test, labeler)
  }

  /** process, with every result an Option. */
  method Process<C, A>(audio: Option<seq<string>>, train: Option<seq<(string, A)>>, test: Option<seq<(string, A)>>,
                       extractId: Option<string>, featureId: Option<string>, classifierId: Option<string>,
                       reg: Registries<C>, labeler: (C, A) -> seq<int>)
    returns (r: Result<Outputs<C>>)
    ensures r == ProcessResult(audio, train, test, extractId, featureId, classifierId, reg, labeler)
    ensures GetExtractModule(extractId, reg).Failure? ==> r == Failure(GetExtractModule(extractId, reg).error)
    ensures GetExtractModule(extractId, reg).Success? && GetFeaturesModule(featureId, reg).Failure? ==>
      r == Failure(GetFeaturesModule(featureId, reg).error)
    ensures (GetExtractModule(extractId, reg).Success? && GetFeaturesModule(featureId, reg).Success? &&
             GetClassifyModule(classifierId, reg).Failure?) ==> r == Failure(GetClassifyModule(classifierId, reg).error)
    ensures r.Success? ==> RanExactly(r.value, audio, train, test)
    ensures r.Success? && train.Some? ==>
      var d := LabelledData(GetExtractModule(extractId, reg).value, GetFeaturesModule(featureId, reg).value, train.value, labeler);
      d.Success? && r.value.trainContours == Some(d.value.contours)
    ensures r.Success? && test.Some? ==>
      var d := LabelledData(GetExtractModule(extractId, reg).value, GetFeaturesModule(featureId, reg).value, test.value, labeler);
      d.Success? && r.value.testContours == Some(d.value.contours)
    ensures (GetExtractModule(extractId, reg).Success? && GetFeaturesModule(featureId, reg).Success? &&
             GetClassifyModule(classifierId, reg).Success? && classifierId.Some? && train.None? && test.Some? &&
             LabelledData(GetExtractModule(extractId, reg).value, GetFeaturesModule(featureId, reg).value, test.value, labeler).Success?)
      ==> r == Failure(NotFitted)
  {
    var contourExtractor :- GetExtractModule(extractId, reg);
    var featureExtractor :- GetFeaturesModule(featureId, reg);
    var classifierSpec :- GetClassifyModule(classifierId, reg);
    var contourClassifier: Classifier? := null;
    if classifierSpec.Some? {
      contourClassifier := new Classifier(classifierSpec.value);
    }
    r := RunPaths(contourExtractor, featureExtractor, contourClassifier, audio, train, test, labeler);
  }

  /** The return statement of process as written: it names all five results,
      so reading the first one whose path did not run raises UnboundLocalError,
      the subclass of NameError for unbound locals. */
  function ReturnAsWritten<C>(o: Outputs<C>): (r: Result<(Scores, Scores, seq<C>, seq<C>, seq<Triple<C>>)>)
    ensures r.Success? <==>
      o.trainScores.Some? && o.testScores.Some? && o.trainContours.Some? && o.testContours.Some? && o.contourList.Some?
    ensures r.Failure? ==> r.error.NameError?
  {
    if o.trainScores.None? then Failure(NameError("train_scores"))
    else if o.testScores.None? then Failure(NameError("test_scores"))
    else if o.trainContours.None? then Failure(NameError("train_contours"))
    else if o.testContours.None? then Failure(NameError("test_contours"))
    else if o.contourList.None? then Failure(NameError("contour_list"))
    else Success((o.trainScores.value, o.testScores.value, o.trainContours.value, o.testContours.value, o.contourList.value))
  }

  /** A call of process given only training pairs whose run succeeds still
      ends in NameError, for test_scores, at the return. */
  lemma TrainOnlyRaisesNameError<C, A>(train: seq<(string, A)>,
                                       extractId: Option<string>, featureId: Option<string>, classifierId: Option<string>,
                                       reg: Registries<C>, labeler: (C, A) -> seq<int>)
    requires ProcessResult(None, Some(train), None, extractId, featureId, classifierId, reg, labeler).Success?
    ensures ReturnAsWritten(ProcessResult(None, Some(train), None, extractId, featureId, classifierId, reg, labeler).value)
            == Failure(NameError("test_scores"))
  {
  }

  /** Inference without training on the new classifier of process raises the
      not-fitted error at the first audio file, once all three modules are
      found. */
  lemma InferenceUnfittedFails<C, A>(audio: seq<string>,
                                     extractId: string, featureId: string, classifierId: string,
                                     reg: Registries<C>, labeler: (C, A) -> seq<int>)
    requires |audio| > 0
    requires extractId in reg.extractors && featureId in reg.features && classifierId in reg.classifiers
    ensures ProcessResult(Some(audio), None, None, Some(extractId), Some(featureId), Some(classifierId), reg, labeler)
            == Failure(NotFitted)
  {
    var ex := Some(reg.extractors[extractId]());
    var fx := Some(reg.features[featureId]());
    var m := Some(Model(reg.classifiers[classifierId](), None));
    assert audio[..1] == [audio[0]];
    AudioOnlyPrefixFailure(ex, fx, m, audio, 1);
  }

  /** process as written: only a run given all three inputs can return. */
  method ProcessAsWritten<C, A>(audio: Option<seq<string>>, train: Option<seq<(string, A)>>, test: Option<seq<(string, A)>>,
                                extractId: Option<string>, featureId: Option<string>, classifierId: Option<string>,
                                reg: Registries<C>, labeler: (C, A) -> seq<int>)
    returns (r: Result<(Scores, Scores, seq<C>, seq<C>, seq<Triple<C>>)>)
    ensures r == (var p := ProcessResult(audio, train, test, extractId, featureId, classifierId, reg, labeler);
                  if p.Failure? then Failure(p.error) else ReturnAsWritten(p.value))
    ensures r.Success? ==> audio.Some? && train.Some? && test.Some?
  {
    var o :- Process(audio, train, test, extractId, featureId, classifierId, reg, labeler);
    r := ReturnAsWritten(o);
  }
}
