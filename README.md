# face-api orchestration core in Dafny

This project models the orchestration layer of the face-api library, which
chains face-analysis stages. The pixel work and the neural networks are not
part of it. What it models:

- **Face results as plain objects.** A result starts with a `detection`. The
  `extendWith…` factories add `landmarks`, `unshiftedLandmarks`,
  `alignedRect`, `expressions`, `age`, `gender` and `genderProbability`. Each
  one builds a fresh object with `Object.assign({}, source, extension)`. The
  matching `isWith…` guards test for those properties.
- **Crop extraction around a computation.** `extractAllFacesAndComputeResults`
  does four things in order:
  - it picks one region per parent result: the `alignedRect` when landmarks
    are present, otherwise the `detection`;
  - it obtains crops, either the ones the caller supplied or by calling
    `extractFaceTensors` (tensor input) or `extractFaces` (anything else);
  - it calls the injected `computeResults` once;
  - only after that resolves, it disposes every tensor crop.

  The single-face variant wraps it.
- **The age-and-gender stage.** `PredictAllAgeAndGenderTask` and
  `PredictSingleAgeAndGenderTask` do three things:
  - they await a parent result;
  - they run `predictAgeAndGender` on the crops;
  - they extend each parent with the prediction at its index.

  The face-alignment subclasses add chaining methods. `ComposableTask` gives
  every stage `then`.
- **Box validation.** `LabeledBox.assertIsValidLabeledBox` and
  `PredictedBox.assertIsValidPredictedBox` run as a chain, and the
  constructors store their arguments unchanged.
- **Weight bookkeeping.** `extractWeightEntryFactory` gives an extractor that:
  - looks up an entry;
  - checks its rank;
  - appends a `{originalPath, paramPath}` mapping to a list the caller owns.

  `disposeUnusedWeightTensors` disposes the entries that no mapping names.
  `loadConvParamsFactory` requests `prefix/filters` (rank 4) and then
  `prefix/bias` (rank 1).

How JavaScript is represented:

- **Values.** `JsValues.Value` is a sum of the JavaScript values the code
  meets. Plain objects are `Record(map)`. Instances of `FaceDetection`,
  `FaceLandmarks`, `FaceExpressions` and `tf.Tensor` are their own variants, so
  `instanceof` is a constructor test.
- **Errors.** A thrown error carries its template-literal message as literal
  text and interpolated values. Reading a property of `undefined` or `null` is
  a `TypeError`.
- **Promises.** A promise is given by how it settles:
  `ComposableTasks.Settlement` is `Resolved`, `Rejected` or `Pending` (never
  settles). Awaiting a `Promise` gives its settlement. Awaiting a
  `ComposableTask` goes through its `then`, which drops the awaiter's `reject`.
  So awaiting a task whose `run()` rejects stays `Pending`
  (`ComposableTasks.AwaitTask`). A stage's parent is either kind
  (`ComposableTasks.Parent`). Every chaining method passes the task itself as
  the next stage's parent.
- **`Promise.all`.** The predictions are all started, one per crop in crop
  order, and each start is recorded. The result is taken as the first
  rejection in crop order.
- **Side effects.** The extractors, the predictor and `tensor.dispose()` are
  functions fixed in a `Runtime.Environment`. Each method call appends an event
  to the environment's `trace`. An injected compute callback reports its own
  calls along with its result (`Runtime.Observed`). This is how the predictor
  calls of the age-and-gender callbacks reach the trace. Each method's ensures
  give its result and its new trace as a function of its inputs:
  `ExtractAllOutcome`, `RunAllOutcome` and `RunSingleOutcome` for the helpers
  and the stages, `ObtainFaces` and `Disposals` for the extraction and the
  cleanup, `DisposalsOf` for the weight-disposal loop, `Lookup` and `ParamPath`
  for the weight-entry extractor, and the environment's own collaborators for
  its methods. The lemmas state the promised properties about those functions.
- **Mutated state.** The cleanup loop and the weight-disposal loop are
  `while` loops with invariants. The caller's `ParamMapping[]` is a class
  (`WeightEntries.ParamMappingList`) whose `items` the extractor extends in
  place.

No crop is disposed when `computeResults` rejects, because there is no
`finally`. Caller-supplied crops are disposed after a success like extracted
ones. The model follows the code on both points
(`ExtractFaces.RejectedComputeDisposesNothing`,
`ExtractFaces.SuccessDisposesEveryTensorCrop`).

## Model

| member | source | states |
|---|---|---|
| JsValues.IsNonNullObject | src/factories/WithAge.ts:6 | `!!(obj && typeof obj === 'object')` holds exactly for plain objects and class instances; it fails for primitives, functions, `null` and `undefined` |
| JsValues.ReadProperty | src/classes/LabeledBox.ts:10-11 | a property read throws a `TypeError` exactly on `undefined`/`null`; otherwise it yields the own property or `undefined` |
| JsValues.Assign | src/factories/WithAge.ts:9-12 | `Object.assign({}, source, extension)` has the union of keys; the extension's values win and the other source values are kept |
| WithAge.IsWithAge | src/factories/WithAge.ts:5-7 | true iff the value is an object whose `age` has type number (NaN included) |
| WithAge.ExtendWithAge | src/factories/WithAge.ts:9-12 | the copy adds `age`, keeps every other source property and adds no other key |
| WithAge.ExtendWithAgeIsWithAge | src/factories/WithAge.ts:5-12 | every extended object passes `isWithAge` |
| WithGender.IsWithGender | src/factories/WithGender.ts:9-17 | true iff the value is an object, `gender` is `"male"` or `"female"`, and `genderProbability` passes the probability check |
| WithGender.ExtendWithGender | src/factories/WithGender.ts:19-26 | the copy sets `gender` and `genderProbability` unchecked and keeps the rest |
| WithGender.ExtendWithGenderIsWithGender | src/factories/WithGender.ts:9-26 | the extended object passes `isWithGender` iff the stored probability is valid |
| WithFaceDetection.IsWithFaceDetection | src/factories/WithFaceDetection.ts:7-13 | true iff the value is an object whose `detection` is a `FaceDetection` instance |
| WithFaceDetection.ExtendWithFaceDetection | src/factories/WithFaceDetection.ts:15-21 | the copy sets `detection` and keeps the rest |
| WithFaceDetection.ExtendWithFaceDetectionIsWithFaceDetection | src/factories/WithFaceDetection.ts:7-21 | extending any object yields a value that passes the guard |
| WithFaceExpressions.IsWithFaceExpressions | src/factories/WithFaceExpressions.ts:7-13 | true iff the value is an object whose `expressions` is a `FaceExpressions` instance |
| WithFaceExpressions.ExtendWithFaceExpressions | src/factories/WithFaceExpressions.ts:15-21 | the copy sets `expressions` and keeps the rest |
| WithFaceExpressions.ExtendWithFaceExpressionsIsWithFaceExpressions | src/factories/WithFaceExpressions.ts:7-21 | extending any object yields a value that passes the guard |
| WithFaceLandmarks.IsWithFaceLandmarks | src/factories/WithFaceLandmarks.ts:15-23 | true iff the value is an object whose `landmarks` is a `FaceLandmarks` instance |
| WithFaceLandmarks.ExtendWithFaceLandmarks | src/factories/WithFaceLandmarks.ts:25-50 | the copy has three new fields. `landmarks` is the raw landmarks shifted by the detection box's corner. `unshiftedLandmarks` is the raw landmarks. `alignedRect` has the detection's score and image size, and as box the alignment box of the shifted landmarks rescaled by the reversed image size. Other keys are kept |
| WithFaceLandmarks.ExtendWithFaceLandmarksCapabilities | src/factories/WithFaceLandmarks.ts:25-50 | the result passes both the landmark and the detection guards; its detection is the source's; its `alignedRect` keeps the score and image size |
| LabeledBoxes.AssertIsValidLabeledBox | src/classes/LabeledBox.ts:7-14 | a box failure is raised first; it passes iff the box check passes, the box is not `null`/`undefined` and `label` is a valid number. A `null`/`undefined` box that passes the box check throws a `TypeError` on the label read; otherwise an invalid label throws the message naming the callee and the label |
| LabeledBoxes.NewLabeledBox | src/classes/LabeledBox.ts:18-25 | construction fails exactly when the `Box` part fails, and with its error; the label is stored unchecked and `label` returns it |
| PredictedBoxes.AssertIsValidPredictedBox | src/classes/PredictedBox.ts:7-16 | a labeled-box failure is raised first; it passes iff that passes and both `score` and `classScore` are probabilities; otherwise it throws the scores message |
| PredictedBoxes.AssertIsValidPredictedBoxIff | src/classes/PredictedBox.ts:7-16 | the whole chain passes iff the box, the non-null value, the label and both scores are valid |
| PredictedBoxes.NewPredictedBox | src/classes/PredictedBox.ts:21-37 | construction fails exactly when the `Box` part fails; the label goes through `LabeledBox`; both scores are stored unchecked and returned by the getters |
| Runtime.Environment.ExtractFaceTensors | src/globalApi/extractFacesAndComputeResults.ts:27 | awaiting `extractFaceTensors` yields its value and records one call with the input and regions |
| Runtime.Environment.ExtractFaces | src/globalApi/extractFacesAndComputeResults.ts:28 | awaiting `extractFaces` yields its value and records one call with the input and regions |
| Runtime.Environment.ComputeResults | src/globalApi/extractFacesAndComputeResults.ts:30 | awaiting `computeResults(faces)` yields its value; it records one call with the crops, followed by the calls the callback itself makes |
| Runtime.Environment.Dispose | src/globalApi/extractFacesAndComputeResults.ts:34 | `dispose()` records exactly one disposal of that tensor |
| ExtractFaces.DefaultRectForAlignment | src/globalApi/extractFacesAndComputeResults.ts:17-19 | the default chooser `({ alignedRect }) => alignedRect` yields the parent's own `alignedRect`, or `undefined` when it has none |
| ExtractFaces.RectForAlignment | src/globalApi/extractFacesAndComputeResults.ts:17-19 | the chooser in force is the one passed, or the default when the argument is left undefined |
| ExtractFaces.RegionFor | src/globalApi/extractFacesAndComputeResults.ts:21-23 | a parent with landmarks is cropped by the chooser's value; any other parent by its own `detection` (`undefined` when absent) |
| ExtractFaces.FaceBoxes | src/globalApi/extractFacesAndComputeResults.ts:21-23 | one region per parent, in order: the rectangle chooser's value when the parent has landmarks, else its `detection` |
| ExtractFaces.DefaultRegionIsAlignedRect | src/globalApi/extractFacesAndComputeResults.ts:17-23 | with the default chooser, a parent extended by `extendWithFaceLandmarks` is cropped by the aligned rectangle stored on it, and a parent without landmarks by its detection |
| ExtractFaces.ObtainFaces | src/globalApi/extractFacesAndComputeResults.ts:24-28 | supplied crops (any list, even an empty one) are taken with no call; otherwise exactly one call is made, to `extractFaceTensors` for a tensor input and to `extractFaces` otherwise, and its value or rejection is the outcome |
| ExtractFaces.ExtractAllOutcome | src/globalApi/extractFacesAndComputeResults.ts:21-38 | the extraction's calls come first; a failed extraction is the result with no further call; otherwise the result is `computeResults` on the obtained crops |
| ExtractFaces.ExtractAllFacesAndComputeResults | src/globalApi/extractFacesAndComputeResults.ts:9-39 | the result and the exact sequence of calls are those of `ExtractAllOutcome` |
| ExtractFaces.ObtainCrops | src/globalApi/extractFacesAndComputeResults.ts:24-28 | supplied crops are used as they are with no call; otherwise one call, to `extractFaceTensors` for a tensor input and `extractFaces` otherwise, whose value or rejection is the outcome |
| ExtractFaces.ComputeAndDispose | src/globalApi/extractFacesAndComputeResults.ts:30-38 | `computeResults` is called once and its value or rejection is returned unchanged; the callback's own calls follow the call; the crops are disposed only after it fulfils |
| ExtractFaces.DisposalOf | src/globalApi/extractFacesAndComputeResults.ts:32-36 | one crop disposes itself when it is a tensor and makes no call when it is a canvas |
| ExtractFaces.Disposals | src/globalApi/extractFacesAndComputeResults.ts:32-36 | the cleanup of a crop list makes at most one call per crop, and every call is a `dispose()` |
| ExtractFaces.DisposeTensorCrops | src/globalApi/extractFacesAndComputeResults.ts:32-36 | the loop disposes the tensor crops in list order and nothing else |
| ExtractFaces.DisposalsCount | src/globalApi/extractFacesAndComputeResults.ts:32-36 | each tensor is disposed exactly as often as it occurs among the crops |
| ExtractFaces.DisposalsOnlyTensorCrops | src/globalApi/extractFacesAndComputeResults.ts:32-36 | every disposal is of a tensor crop in the list; canvases are never disposed |
| ExtractFaces.SuppliedFacesSkipExtraction | src/globalApi/extractFacesAndComputeResults.ts:24-30 | with supplied crops (even an empty list), `computeResults` is the first call, on exactly those crops, and its value is the result; an extraction call can only come from the callback itself |
| ExtractFaces.ExtractionFollowsInputKind | src/globalApi/extractFacesAndComputeResults.ts:24-28 | without supplied crops the first call is `extractFaceTensors` for a tensor input and `extractFaces` otherwise, on the regions; a rejection is the result and no further call is made |
| ExtractFaces.ComputeCalledOnceBeforeCleanup | src/globalApi/extractFacesAndComputeResults.ts:30-38 | once crops exist, `computeResults` is called once, on them, after the extraction; the callback's own calls follow, then only disposals; its value is returned unchanged |
| ExtractFaces.SuccessDisposesEveryTensorCrop | src/globalApi/extractFacesAndComputeResults.ts:30-36 | after a successful computation, the helper disposes every tensor crop once per occurrence (caller-supplied ones included) beyond what the callback disposed itself; it disposes no other tensor |
| ExtractFaces.RejectedComputeDisposesNothing | src/globalApi/extractFacesAndComputeResults.ts:30-36 | a rejected `computeResults` is the result, and the helper disposes no crop: any disposal is one the callback made |
| ExtractFaces.FirstFace | src/globalApi/extractFacesAndComputeResults.ts:54 | `faces[0]`: the first crop when there is one, else `undefined` |
| ExtractFaces.ComputeOnFirstFace | src/globalApi/extractFacesAndComputeResults.ts:54 | the callback passed to the all-faces helper applies `computeResult` to the first crop, and to `undefined` on an empty list |
| ExtractFaces.ExtractSingleFaceAndComputeResult | src/globalApi/extractFacesAndComputeResults.ts:41-57 | behaves exactly as the all-faces helper on `[parent]`, with `computeResult` applied to the first crop |
| ExtractFaces.SingleComputesOnFirstFace | src/globalApi/extractFacesAndComputeResults.ts:51-57 | the single variant extracts exactly its parent's region and resolves to `computeResult` of the first crop (`undefined` when there is none) |
| ComposableTasks.BaseRun | src/globalApi/ComposableTask.ts:7-9 | the base `run` rejects with "ComposableTask - run is not implemented" |
| ComposableTasks.Then | src/globalApi/ComposableTask.ts:3-5 | the promise `then(onfulfilled)` returns fulfils iff `run()` fulfils and `onfulfilled` succeeds on its value, with `onfulfilled`'s value. It rejects with `run()`'s error without consulting `onfulfilled`. It stays pending iff `run()` does |
| ComposableTasks.ThenAdopting | src/globalApi/ComposableTask.ts:3-5 | with an `onfulfilled` that may return a thenable, `then`'s promise takes on the settlement of what `onfulfilled` returns once `run()` fulfils; a rejected or pending `run()` is passed through without calling it |
| ComposableTasks.ThenIsAdoptingPlainValues | src/globalApi/ComposableTask.ts:3-5 | `Then` is the special case of a callback returning a plain value or throwing; a callback returning a thenable that never settles keeps `then`'s promise pending although `run()` fulfilled |
| ComposableTasks.AwaitTask | src/globalApi/ComposableTask.ts:3-5 | awaiting a task never rejects: it fulfils exactly when `run()` fulfils, with the same value, and otherwise stays pending |
| ComposableTasks.ThenOnBaseTaskRejects | src/globalApi/ComposableTask.ts:3-9 | the promise an explicit `then` call returns on a task that keeps the base `run` rejects with "ComposableTask - run is not implemented" |
| ComposableTasks.AwaitingFailingTaskNeverSettles | src/globalApi/ComposableTask.ts:3-9 | awaiting a task whose `run()` rejects (the base task among them) never settles, while the promise `then` returns carries the rejection |
| ComposableTasks.AwaitTaskForwardingRejection | src/globalApi/ComposableTask.ts:3-5 | the corrected await: it fulfils, rejects or stays pending exactly as `run()` does |
| ComposableTasks.IntendedAwaitForwardsRejection | src/globalApi/ComposableTask.ts:3-9 | with the rejection forwarded, the awaiter settles exactly as `run()` does, and awaiting the base task rejects with its message |
| ComposableTasks.AwaitParent | src/globalApi/PredictAgeAndGenderTask.ts:40 | `await this.parentTask` gives a promise parent's own settlement and a task parent's `AwaitTask`; only a promise parent can reject it |
| ComposableTasks.ThenComposesRunAndOnFulfilled | src/globalApi/ComposableTask.ts:3-5 | `then` settles as `onfulfilled` of `run`'s value; a rejected `run` propagates the same way whatever `onfulfilled` is |
| AgeAndGenderTasks.ExtendWithPrediction | src/globalApi/PredictAgeAndGenderTask.ts:57-60 | the extended parent gains `age`, `gender` and `genderProbability` from the prediction and keeps every other property |
| AgeAndGenderTasks.ExtendWithPredictionCapabilities | src/globalApi/PredictAgeAndGenderTask.ts:57-60 | an extended parent always passes `isWithAge`, and passes `isWithGender` iff the predicted probability is valid |
| AgeAndGenderTasks.PredictAll | src/globalApi/PredictAgeAndGenderTask.ts:48-53 | succeeds iff every crop's prediction succeeds; it then gives one prediction per crop, in order; otherwise it rejects with the first rejection in crop order |
| AgeAndGenderTasks.PredictionCalls | src/globalApi/PredictAgeAndGenderTask.ts:48-53 | `faces.map` starts one prediction per crop, in crop order |
| AgeAndGenderTasks.PredictEach | src/globalApi/PredictAgeAndGenderTask.ts:48-53 | the callback of the all-faces stage resolves an empty crop list to `[]` with no predictor call; its one call per crop in crop order and its `Promise.all` result are stated by `PredictionCallsInOrder` and `PredictAll`, which `RunAllPredictsEveryCropInOrder` and `RunAllZipsPredictions` apply to it |
| AgeAndGenderTasks.PredictOne | src/globalApi/PredictAgeAndGenderTask.ts:86 | the callback of the single stage passes even an `undefined` face (no crop) to the predictor, with one call, and its result is that prediction; `RunSingleExtendsParent` applies it to the first crop |
| AgeAndGenderTasks.PredictionCallsInOrder | src/globalApi/PredictAgeAndGenderTask.ts:48-53 | the predictor calls of the all-faces callback are exactly the crops, one each, in order |
| AgeAndGenderTasks.ZipWithPredictions | src/globalApi/PredictAgeAndGenderTask.ts:57-60 | succeeds iff there are at least as many predictions as parents; output `i` is parent `i` extended with prediction `i`; otherwise it throws a `TypeError` |
| AgeAndGenderTasks.RunAllOutcome | src/globalApi/PredictAgeAndGenderTask.ts:39-61 | a pending parent leaves the stage pending and a rejected one rejects it, neither making any call; a fulfilled stage has one output per parent result |
| AgeAndGenderTasks.RunSingleOutcome | src/globalApi/PredictAgeAndGenderTask.ts:74-91 | a pending parent leaves the stage pending, a rejected one rejects it, and only an `undefined` parent gives `undefined`; without a parent result no call is made; a result is the parent with exactly `age`, `gender` and `genderProbability` added |
| AgeAndGenderTasks.RunAllZipsPredictions | src/globalApi/PredictAgeAndGenderTask.ts:39-61 | with crops obtained and all predictions fine, the stage gives one output per parent, parent `i` extended with crop `i`'s prediction; too few crops end in a `TypeError` |
| AgeAndGenderTasks.RunAllPredictsEveryCropInOrder | src/globalApi/PredictAgeAndGenderTask.ts:42-55 | once crops are obtained the predictor is called once per crop, in crop order, and on nothing else, even when a prediction rejects |
| AgeAndGenderTasks.RunAllExtractionRejectedPredictsNothing | src/globalApi/PredictAgeAndGenderTask.ts:42-55 | when the crops cannot be extracted, the stage rejects with that error and the predictor is never called |
| AgeAndGenderTasks.RunAllDisposesEveryTensorCrop | src/globalApi/PredictAgeAndGenderTask.ts:42-55 | when every prediction fulfils, each tensor crop is disposed once per occurrence and no other tensor is disposed |
| AgeAndGenderTasks.RunAllPredictionRejected | src/globalApi/PredictAgeAndGenderTask.ts:42-55 | a rejected prediction rejects the stage with the first rejection in crop order, and no crop is disposed |
| AgeAndGenderTasks.RunAllEmptyParents | src/globalApi/PredictAgeAndGenderTask.ts:39-61 | no parents and no crops: the stage resolves to `[]`, calls the predictor on nothing and disposes nothing |
| AgeAndGenderTasks.RunSingleShortCircuits | src/globalApi/PredictAgeAndGenderTask.ts:74-78 | an `undefined` parent resolves to `undefined` and a rejected parent promise rejects, both without any call |
| AgeAndGenderTasks.RunSingleExtendsParent | src/globalApi/PredictAgeAndGenderTask.ts:74-91 | with a parent, the predictor is called exactly once, on the first crop (`undefined` if none); the stage resolves to the parent extended with that prediction, or rejects with its rejection |
| AgeAndGenderTasks.StageOverFailingTaskNeverSettles | src/globalApi/PredictAgeAndGenderTask.ts:40 | a stage whose parent task fails never settles and makes no call; a rejected parent promise rejects it instead |
| AgeAndGenderTasks.StageOverFailingTaskForwardingRejection | src/globalApi/PredictAgeAndGenderTask.ts:40 | with the corrected await, a stage over a failing task rejects with that task's error and makes no call |
| AgeAndGenderTasks.PredictAllAgeAndGenderTask.constructor | src/globalApi/PredictAgeAndGenderTask.ts:26-34 | the task stores its parent, input and supplied crops |
| AgeAndGenderTasks.PredictAllAgeAndGenderTask.Run | src/globalApi/PredictAgeAndGenderTask.ts:39-61 | `run()` settles exactly as `RunAllOutcome` of the awaited parent and makes exactly its calls |
| AgeAndGenderTasks.PredictAllAgeAndGenderTask.Then | src/globalApi/ComposableTask.ts:3-5 | the promise `then` returns runs the stage once and settles as `ComposableTasks.Then` of the stage's settlement |
| AgeAndGenderTasks.PredictAllAgeAndGenderTask.WithFaceExpressions | src/globalApi/PredictAgeAndGenderTask.ts:63-103 | builds the expressions stage (the alignment variant for the alignment subclass) over this task and its input, without crops |
| AgeAndGenderTasks.PredictAllAgeAndGenderTask.WithFaceDescriptors | src/globalApi/PredictAgeAndGenderTask.ts:105-107 | only on the alignment subclass: builds the all-faces descriptor stage over this task and its input |
| AgeAndGenderTasks.PredictSingleAgeAndGenderTask.constructor | src/globalApi/PredictAgeAndGenderTask.ts:26-34 | the task stores its parent, input and supplied crops |
| AgeAndGenderTasks.PredictSingleAgeAndGenderTask.Run | src/globalApi/PredictAgeAndGenderTask.ts:74-91 | `run()` settles exactly as `RunSingleOutcome` of the awaited parent and makes exactly its calls |
| AgeAndGenderTasks.PredictSingleAgeAndGenderTask.Then | src/globalApi/ComposableTask.ts:3-5 | the promise `then` returns runs the stage once and settles as `ComposableTasks.Then` of the stage's settlement |
| AgeAndGenderTasks.PredictSingleAgeAndGenderTask.WithFaceExpressions | src/globalApi/PredictAgeAndGenderTask.ts:93-115 | builds the single expressions stage (the alignment variant for the alignment subclass) over this task and its input, without crops |
| AgeAndGenderTasks.PredictSingleAgeAndGenderTask.WithFaceDescriptor | src/globalApi/PredictAgeAndGenderTask.ts:117-119 | only on the alignment subclass: builds the single descriptor stage over this task and its input |
| WeightEntries.Lookup | src/common/extractWeightEntryFactory.ts:10 | `weightMap[originalPath]` is the tensor stored under a key of the map, and `undefined` for any other path |
| WeightEntries.ParamPath | src/common/extractWeightEntryFactory.ts:18 | the recorded `paramPath` is the mapped path, or the original path when the mapped path is absent or empty |
| WeightEntries.WeightEntryExtractor.constructor | src/common/extractWeightEntryFactory.ts:5-9 | the extractor captures the weight map and the caller's mapping list itself, not a copy |
| WeightEntries.WeightEntryExtractor.ExtractWeightEntry | src/common/extractWeightEntryFactory.ts:9-21 | when the entry is a tensor of the rank, it is returned and exactly one `{originalPath, paramPath}` mapping is appended. Otherwise the rank error naming the path, the rank and the value is thrown, and the list is unchanged |
| WeightDisposal.IsReferenced | src/common/disposeUnusedWeightTensors.ts:9 | a path is referenced iff some mapping's `originalPath` equals it |
| WeightDisposal.UnusedPaths | src/common/disposeUnusedWeightTensors.ts:8-9 | the chosen paths keep key order, and a path is chosen iff it is a key of the map and no mapping's `originalPath` equals it |
| WeightDisposal.DisposalsOf | src/common/disposeUnusedWeightTensors.ts:10 | one disposal per chosen path, in order, of the tensor stored there |
| WeightDisposal.DisposeUnusedWeightTensors | src/common/disposeUnusedWeightTensors.ts:4-13 | the loop disposes exactly the unreferenced entries in key order; the map and the mappings are unchanged |
| WeightDisposal.UnusedPathsDistinct | src/common/disposeUnusedWeightTensors.ts:8 | with distinct keys, each entry is disposed at most once |
| WeightDisposal.ParamPathIrrelevant | src/common/disposeUnusedWeightTensors.ts:9 | mapping lists that agree on `originalPath` dispose the same entries; `paramPath` plays no role |
| WeightDisposal.RecordedPathIsKept | src/common/disposeUnusedWeightTensors.ts:9 | appending a mapping protects exactly its `originalPath` from disposal and changes nothing else |
| ConvParamsLoader.LoadConvParams | src/common/loadConvParamsFactory.ts:5-14 | `prefix/filters` is requested at rank 4 first; if that throws, bias is never requested and no mapping is added. Then `prefix/bias` is requested at rank 1. On success `{filters, bias}` are the two map entries and two identity mappings are appended |
| ConvParamsLoader.LoadedConvParamsAreKept | src/common/loadConvParamsFactory.ts:9-10 | after a load, disposal keeps both convolution entries and otherwise disposes what it did before |

## Left out

- Concurrency: `Promise.all` starts every prediction, and the model records each start in crop order. When several predictions reject, the model picks the first rejection in crop order, not the first to settle in time.
- A parent task is represented by how its `run()` settles. Its own pipeline is not modelled, and neither is the fact that each `await` runs it again. The chained next-stage classes (expressions, descriptors) are not part of this model. The chaining methods return a description of the stage they construct.
- ComposableTasks.Then: `onfulfilled` returns a plain value or throws, so a `PromiseLike` it returns is not adopted; its "pending iff `run()` is pending" holds for such callbacks only (the `resolve` that `await` passes is one). `ComposableTasks.ThenAdopting` states the general case, and the task classes' `Then` uses the plain-value form.
- An unhandled rejection (the promise `then` returns when `run()` rejects) is not reported anywhere in the model. Only its settlement is stated.
- The geometry (`box`, `shiftBy`, `align`, `rescale`, `reverse`) is taken as uninterpreted functions. So are `Box.assertIsValidBox`, the `Box` constructor, `isValidNumber`, `isValidProbablitiy`, `isTensor`, the two crop extractors and the age/gender network. No pixel or numeric behaviour is modelled.
- WithFaceLandmarks.ExtendWithFaceLandmarks: the `FaceDetection` constructor is taken as total, because its validation is not part of this model.
- Property order of objects and lookup through the prototype chain are not modelled. Property reads see only the own properties of plain objects. Getters of class instances are not read through `Get`: `score` and `classScore` of a `FaceDetection`, and `label`, `score` and `classScore` of the box classes. A box-validation call on a class instance is therefore not modelled faithfully.
- `Object.assign` with a non-object source is not modelled. The factories are only called on result objects.
- WithGender.IsWithGender: the `Gender` enum is taken as the strings `"male"` and `"female"`, because ageGenderNet/types.ts is not part of this model.
- The loader in `loadConvParamsFactory` accepts any extractor. ConvParamsLoader.LoadConvParams is stated only for the one `extractWeightEntryFactory` returns.
- Immutability of the factory sources and of the weight map follows from value semantics. Aliasing between result objects is not modelled.
- Tensors are identities. Their memory, their shape and dispose on an already-disposed tensor are not modelled.

## Findings

| source | as written | input that shows it | evidently intended | confidence | as-written member | corrected member |
|---|---|---|---|---|---|---|
| src/globalApi/ComposableTask.ts:3-5 | `then(onfulfilled)` drops the `reject` function that `await` passes as its second argument. When `run()` rejects, the awaiter is never settled, and the promise `then` returns rejects unhandled | `await new ComposableTask()`; also an age-and-gender stage whose parent task rejects, awaited at src/globalApi/PredictAgeAndGenderTask.ts:40 (`AgeAndGenderTasks.StageOverFailingTaskNeverSettles`) | the awaiter rejects with `run()`'s error | high; not executed | ComposableTasks.AwaitingFailingTaskNeverSettles | ComposableTasks.IntendedAwaitForwardsRejection |

The stages themselves follow the code as written: `AwaitParent` uses
`AwaitTask`. `AgeAndGenderTasks.StageOverFailingTaskForwardingRejection` shows
what the stages do under the corrected await.
