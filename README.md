# motif: the multivariate Gaussian contour classifier and the pipeline orchestrator

This project models two parts of motif, a melody-contour extraction and
classification toolkit, in Dafny:

- **The multivariate Gaussian contour classifier** (`MvGaussian`, in
  `mv_gaussian.dfy`). `fit` does three things:
  - it fits one Box-Cox lambda per feature column of `X + EPS` and stores the number of features and the lambdas;
  - it splits the training rows by label (1 and 0);
  - it estimates one Gaussian per class from the transformed rows of that class.

  `predict` has the following behaviour:
  - it refuses to run before `fit`;
  - it replays the stored transform;
  - it scores every sample by the ratio of its positive and negative class densities.

  The ratio is 0 where the positive density is 0, and `MAX_SCORE` where only the negative density is 0. It never exceeds `MAX_SCORE`.
  The class is a Dafny `class` with the fields the source mutates (`rvPos`, `rvNeg`, `nFeats`, `lmbda`). The fitting transform and the predicting transform are in-place loops over a two-dimensional array. The ratio rule is four passes over an array, as in the source.
  The numerical library calls are class parameters:
  - the Box-Cox lambda optimiser `boxcoxFit`;
  - the Box-Cox transform of one value with a given lambda, `boxcoxApply`;
  - the Gaussian density `pdf`.

  A Gaussian is represented by the rows it was estimated from.
- **The pipeline orchestrator** (`Run`, in `run.dfy`). It covers:
  - registry lookup of the contour extractor, the feature extractor and the classifier by identifier (`get_module` and its three wrappers);
  - per-file contour extraction, labelling and feature computation, followed by row-wise concatenation (`process_with_labels`);
  - inference on unlabelled files (`process_audio_only`);
  - `process`, which runs the training path, then the testing path, then the inference path, all on one classifier instance.

  The collaborators are abstract functions:
  - contour extraction;
  - `compute_labels`;
  - feature computation;
  - a classifier kind's predictions and score.

  A classifier instance is a class with an unfitted/fitted state.

`common.dfy` (module `Common`) holds the values both parts share:
- the exceptions the code raises;
- a failure-compatible `Result`;
- rectangular real matrices standing for two-dimensional numpy arrays;
- row-wise flattening with its layout lemmas.

Predicting with a matrix narrower than the fitted number of features raises `IndexError` in the transform (`motif/contour_classifiers/mv_gaussian.py:164-166`). For a wider matrix, the extra columns stay zero.

Fitting a matrix with columns but no rows raises `ValueError`. For an empty column, scipy's `boxcox` returns the empty array itself rather than a `(y, lmbda)` pair, so the unpack at `motif/contour_classifiers/mv_gaussian.py:142` fails. By then the number of features is already stored (line 136), but the lambdas (line 145) and the Gaussians are not. A later predict on such a classifier therefore raises `IndexError` as soon as the stored lambdas run out, just as `self.lmbda[i]` at line 166 would.

Two behaviours of the code differ from what a caller would expect. Each is modelled as written and as intended; see "## Findings":
- **The return of `process`.** A caller would expect the results of paths that did not run to be absent. The code names all five results in its return (`motif/run.py:47-49`). Each is bound only when its path runs, so the return raises `UnboundLocalError`, a `NameError`, unless audio files, training pairs and testing pairs are all given. `Run.Process` models the intended version, with every result optional; see "## Findings".
- **Predicting a single sample.** predict is documented to return one score per sample (`motif/contour_classifiers/mv_gaussian.py:43-46`). For a one-row matrix, scipy squeezes each class density to a scalar. The subscripts of the ratio rule (`motif/contour_classifiers/mv_gaussian.py:57-62`) then raise `IndexError`. `MvGaussian.MvGaussian.Predict` models the code as written, and `MvGaussian.MvGaussian.PredictIntended` returns the one score.

## Model

| member | source | states |
|---|---|---|
| MvGaussian.LikelihoodScore | motif/contour_classifiers/mv_gaussian.py:56-64 | A sample's score is never above MAX_SCORE, and it is non-negative whenever both densities are. |
| MvGaussian.ThresholdDecision | motif/contour_classifiers/mv_gaussian.py:101-110 | With densities ≥ 0, the score reaches the threshold 1.0 exactly when the positive density is non-zero and at least the negative one. |
| MvGaussian.LikelihoodRatios | motif/contour_classifiers/mv_gaussian.py:56-65 | The in-place passes over a zero-filled array (divide where the denominator is non-zero, saturate where it is zero, zero where the numerator is zero, clamp) give each sample exactly its LikelihoodScore, one per sample. |
| MvGaussian.IndicesOf | motif/contour_classifiers/mv_gaussian.py:85 | The result holds every index whose label is the target in strictly ascending order, and nothing else. |
| MvGaussian.LabelPartition | motif/contour_classifiers/mv_gaussian.py:85-91 | The positive and negative index lists are disjoint. Their sizes sum to at most the number of labels, with equality exactly when every label is 0 or 1. |
| MvGaussian.MvGaussian.constructor | motif/contour_classifiers/mv_gaussian.py:27-33 | A new classifier is unfitted: no Gaussians, no feature count, no lambdas. |
| MvGaussian.MvGaussian.FitBoxcox | motif/contour_classifiers/mv_gaussian.py:123-146 | Stores the input width as the number of features and leaves the Gaussians as they were. With columns but no rows: ValueError, and the old lambdas kept. Otherwise: lambda c is the optimiser's choice for column c + EPS, and the result has the input's shape, every row being that row under the stored transform. |
| MvGaussian.MvGaussian.Transform | motif/contour_classifiers/mv_gaussian.py:148-168 | Given at least as many columns and stored lambdas as the fitted count, it returns a matrix of the input's shape. Columns below the fitted count hold the Box-Cox transform of value + EPS with that column's lambda. Later columns are 0. So each row is exactly what FitBoxcox produced for that row. |
| MvGaussian.MvGaussian.Fit | motif/contour_classifiers/mv_gaussian.py:67-99 | Fit always stores the new number of features. With columns but no rows it raises ValueError and keeps the old lambdas. Otherwise it refits the lambdas, and it passes exactly when no 0/1 label points past the last row. On a pass each Gaussian is built from its class's transformed rows in index order. Otherwise it raises IndexError. Either error keeps the old Gaussians. |
| MvGaussian.MvGaussian.Predict | motif/contour_classifiers/mv_gaussian.py:35-65 | As written. Before fit: the not-fitted error. On a matrix narrower than the fitted width, when fewer lambdas than features are stored, or on exactly one row: IndexError. Otherwise: one score per row, the LikelihoodScore of the two class densities of the transformed row, always in [0, MAX_SCORE]. |
| MvGaussian.MvGaussian.PredictIntended | motif/contour_classifiers/mv_gaussian.py:35-65 | As documented. Before fit: the not-fitted error. On a narrower matrix, or when fewer lambdas than features are stored: IndexError. Otherwise, for any number of rows, a single row included: one score per row, the LikelihoodScore of the two class densities of the transformed row, always in [0, MAX_SCORE]. |
| Run.Classifier.constructor | motif/run.py:118 | A classifier instance built by its registry factory is unfitted and has received no fit. |
| Run.Classifier.Fit | motif/run.py:22 | The instance is fitted on exactly the given data, and the fit is recorded once. |
| Run.Classifier.Predict | motif/contour_classifiers/mv_gaussian.py:48-51 | Before any fit it returns the not-fitted error. After a fit it returns, or raises, exactly what predict of the model fitted on the stored data does. |
| Run.NotFoundMessage | motif/run.py:120-121 | The error message of an unknown identifier contains that identifier, at a fixed position. |
| Run.GetModule | motif/run.py:115-122 | No identifier gives no module. The lookup fails exactly when the identifier is not in the registry, and then it fails with a RuntimeError naming the identifier. A known identifier gives what its factory constructs. |
| Run.GetExtractModule | motif/run.py:139 | Against the contour-extractor registry: no id gives no module, an unknown id a RuntimeError naming it, a known id what its factory constructs. |
| Run.GetFeaturesModule | motif/run.py:156 | Against the feature-extractor registry: no id gives no module, an unknown id a RuntimeError naming it, a known id what its factory constructs. |
| Run.GetClassifyModule | motif/run.py:173 | Against the classifier registry: no id gives no module, an unknown id a RuntimeError naming it, a known id what its factory constructs. |
| Run.ConcatRows | motif/run.py:93 | Concatenation succeeds exactly when there is at least one matrix and all have the same width, otherwise ValueError. The result keeps that width and holds every matrix's rows in order. |
| Run.ConcatRowsLayout | motif/run.py:93 | Row k of matrix f appears in the result right after the rows of the matrices before f. |
| Run.ConcatLabels | motif/run.py:94 | Concatenating label vectors fails with ValueError exactly when there are none. Otherwise the result is as long as all vectors together, and vector f sits right after the vectors before it. |
| Run.LabelledLayout | motif/run.py:84-96 | For a successful run: the global matrix has as many rows as all files' features together, and the label vector is as long as all files' labels together. File f's rows and labels sit right after those of the files before it. There is one contour object per pair, in order. |
| Run.TwoFilesOfTenRows | motif/run.py:84-96 | Two files of ten feature rows each give a twenty-row training matrix. |
| Run.LabelledData | motif/run.py:80-96 | The reference definition of process_with_labels. No pairs: ValueError. A missing module: AttributeError. Otherwise the concatenated features, labels and contours of the pairs, or the concatenation's ValueError. LabelledLayout states its layout. |
| Run.ProcessWithLabels | motif/run.py:80-96 | The loop computes exactly LabelledData: ValueError for no pairs, AttributeError when a module is missing, ValueError for mismatched widths, otherwise the concatenated features, labels and contours of the pairs in order. |
| Run.AudioTriple | motif/run.py:57-62 | One file: a missing module raises AttributeError, an unfitted classifier the not-fitted error, and an error of predict propagates. Otherwise the triple holds the file's contours, their features and the prediction for them. |
| Run.AudioOnly | motif/run.py:55-63 | The reference definition of process_audio_only: the files' triples in order, the first failing file's error ending the loop. AudioOnlyLayout and AudioOnlyFirstFailure state what it returns. |
| Run.AudioOnlyPrefixFailure | motif/run.py:56-62 | An error on an early file is the error of the whole loop. |
| Run.AudioOnlyLayout | motif/run.py:55-63 | The loop succeeds exactly when every file does, and then returns every file's triple in input order. |
| Run.AudioOnlyFirstFailure | motif/run.py:56-62 | A failing loop fails with the error of the first failing file, every earlier file having succeeded. |
| Run.ProcessAudioOnly | motif/run.py:52-63 | The loop computes exactly AudioOnly for the classifier as it stands, so the layout and first-failure lemmas apply. On success: one (contours, features, predictions) triple per file, in order, the predictions those of the fitted classifier. |
| Run.Discretise | motif/run.py:26 | One label per probability: 1 exactly when the probability reaches the threshold, 0 exactly when it is below. |
| Run.TrainPath | motif/run.py:18-27 | Data errors propagate and leave the classifier untouched. With data, the classifier is fitted once on it. Then its predictions on that data, discretised at the classifier's threshold, are scored together with the probabilities. An error of predict or score propagates, after the fit. |
| Run.TrainScores | motif/run.py:25-27 | The training score of a classifier fitted on the data: its predictions on that same data, discretised at its threshold, scored together with the probabilities. |
| Run.TestScores | motif/run.py:35-39 | Unfitted: the not-fitted error. An error of predict propagates, ValueError included. Otherwise the raw predictions are scored without probabilities: a ValueError from score gives an empty score map, and any other error propagates. |
| Run.TestPath | motif/run.py:29-39 | Data errors propagate, a missing classifier raises AttributeError, and otherwise the result is TestScores of the classifier as it stands, with the testing contours. |
| Run.TrainStage | motif/run.py:18-27 | The training stage: no pairs given leaves every result absent and the classifier as it was. Otherwise it gives the training scores and contours, and the classifier fitted on the training data for the later stages. |
| Run.TestStage | motif/run.py:29-39 | The testing stage: no pairs given leaves both results absent. Otherwise it gives the TestScores of the classifier in the state training left it, and the testing contours. |
| Run.Pipeline | motif/run.py:18-45 | The reference definition of the three paths on one classifier: training, then testing, then inference, with the state left by training. The first error ends the run. The Pipeline lemmas below state what a run returns. |
| Run.PipelineRanExactly | motif/run.py:18-45 | A run that returns has exactly the results of the paths whose input was given. |
| Run.PipelineTraining | motif/run.py:18-27 | The training scores are the classifier's predictions on its own training data, discretised at its threshold and scored with the probabilities. The training contours are those of the training data. |
| Run.PipelineTesting | motif/run.py:29-39 | The testing scores are TestScores of the classifier fitted on the training data when training ran, and of the classifier as it stood otherwise. The testing contours are those of the testing data. |
| Run.PipelineInference | motif/run.py:41-45 | One triple per audio file in order: its contours, their features, and the predictions of the classifier fitted on the training data when training ran (as it stood otherwise). |
| Run.TestingUnfittedFails | motif/run.py:29-37 | Testing without training on a new classifier raises the not-fitted error. |
| Run.RunPaths | motif/run.py:18-45 | The three paths compute exactly Pipeline for the classifier's starting state, so the Pipeline lemmas apply. The classifier is fitted at most once, only by the training path, on the training data. Testing without training on an unfitted classifier fails with the not-fitted error. |
| Run.ProcessResult | motif/run.py:10-45 | The reference definition of process: the lookups in the order extractor, features, classifier, then Pipeline on a new, unfitted classifier of the looked-up kind. |
| Run.Process | motif/run.py:10-45 | The result is exactly ProcessResult: the lookups in the order extractor, features, classifier, then Pipeline on a new, unfitted classifier of the looked-up kind. Lookup errors surface in that order, exactly the given paths produce results, and testing without training fails with the not-fitted error. |
| Run.ReturnAsWritten | motif/run.py:47-49 | The five-name return succeeds exactly when all five results are bound. Otherwise it raises UnboundLocalError, a NameError. |
| Run.TrainOnlyRaisesNameError | motif/run.py:10-49 | A call of process given only training pairs whose run succeeds still ends in UnboundLocalError (a NameError) for test_scores at the return. |
| Run.InferenceUnfittedFails | motif/run.py:41-45 | Inference without training, with all three modules found and at least one audio file, raises the not-fitted error of the new classifier at the first file. |
| Run.ProcessAsWritten | motif/run.py:10-49 | process as written is ProcessResult followed by the five-name return. So it returns normally only when audio files, training pairs and testing pairs are all given, and otherwise a successful run ends in NameError. |

## Left out

- Numerical library calls are left out: scipy's Box-Cox lambda optimiser, the Box-Cox transform, mean and covariance estimation, and the multivariate normal density. They are uninterpreted parameters, and a Gaussian is identified by the rows it is estimated from.
- Errors raised inside those library calls are not modelled, because the calls are uninterpreted:
  - Box-Cox on a non-positive or constant column;
  - a density evaluated at a point of the wrong dimension;
  - a Gaussian estimated from an empty class: `np.mean` of no rows only warns and gives NaN (lines 86 and 90), and any failure would come later, in `multivariate_normal` (lines 92-97).
- MvGaussian.MvGaussian.Predict: a matrix wider than the fitted feature count is scored with the density of the longer row. scipy would reject the dimension mismatch, and the model does not.
- MvGaussian.MvGaussian.PredictIntended: as for Predict, a wider matrix is scored rather than rejected.
- MvGaussian.MvGaussian.Predict: the single-sample error is modelled as IndexError, raised by subscripting a scalar. With a numpy that refuses `np.where` on a zero-dimensional value, the same input raises ValueError at line 57 instead.
- Floating point is modelled as exact reals, with no NaN or infinity. The division and the comparisons of the ratio rule are exact.
- get_id and threshold of the Gaussian classifier are the constants `MvGaussian.ID` and `MvGaussian.THRESHOLD`. The threshold's meaning is stated by `MvGaussian.ThresholdDecision`.
- The random forest classifier and the bitteli feature extractor are not part of this model. In the orchestrator, any classifier is an abstract `ClassifierSpec`: identifier, threshold, what predict of a model fitted on given data returns or raises, and score.
- Run.Classifier.Fit: errors the concrete classifier's own fit may raise are not modelled. The abstract fit always succeeds. The Gaussian classifier's fit raises IndexError only for a 0/1 label past the last feature row. In the pipeline a file's labels and feature rows both come from the same contour object, one per contour, so that error would need `compute_labels` and `compute_all` to disagree on the number of contours. These collaborators are abstract here, and such a disagreement is not modelled.
- Run.Classifier.Fit: a fit is modelled as determined by its data. The random forest's fit shuffles and searches with an unseeded random state, so two fits on the same data can differ. No property here compares two fits, since a run fits at most once.
- Run.GetModule: the source's `try` also wraps the factory call, so a KeyError raised inside a factory is reported as "can not be found" too. Factories are total functions here, and that case is not modelled.
- Contour extraction, `compute_labels`, feature computation and the registries' contents are I/O-bound collaborators. They are abstract functions and maps. The second value returned by `compute_labels` is discarded by the source and is not modelled.
- The default identifiers of process ('salamon', 'bitteli', 'random_forest') are not built in. The caller passes every identifier.

## Findings

| source | as written | input that shows it | evidently intended | confidence | as-written member | corrected member |
|---|---|---|---|---|---|---|
| motif/run.py:47-49 | The return names train_scores, test_scores, train_contours, test_contours and contour_list, each bound only inside its path's guard. | process(training_pairs=pairs), with testing_pairs and audio_files left as None and a training path that succeeds, raises UnboundLocalError, a NameError, for test_scores at the return (Run.TrainOnlyRaisesNameError). | Each result is present only when its input was given, and omitted otherwise. | not executed | Run.ProcessAsWritten | Run.Process |
| motif/contour_classifiers/mv_gaussian.py:53-62 | pdf of a one-row matrix is squeezed to a scalar, and the ratio rule subscripts it with index arrays. | Any predict, after fit, on a matrix of one row and at least the fitted width raises IndexError (the third ensures of MvGaussian.MvGaussian.Predict). | One score per sample, as the docstring at lines 43-46 promises. | not executed | MvGaussian.MvGaussian.Predict | MvGaussian.MvGaussian.PredictIntended |
