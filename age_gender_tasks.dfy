/** The age-and-gender pipeline stage (src/globalApi/PredictAgeAndGenderTask.ts). */
module AgeAndGenderTasks {
  import opened Common
  import opened JsValues
  import opened WithAge
  import opened WithGender
  import opened Runtime
  import opened ExtractFaces
  import opened ComposableTasks

  /** `extendWithAge(extendWithGender(parentResult, gender, genderProbability), age)`. */
  function ExtendWithPrediction(parent: Props, p: AgeAndGenderPrediction): (r: Props)
    ensures r.Keys == parent.Keys + {AGE, GENDER, GENDER_PROBABILITY}
    ensures r[AGE] == Number(p.age)
    ensures r[GENDER] == GenderValue(p.gender)
    ensures r[GENDER_PROBABILITY] == Number(p.genderProbability)
    ensures forall k :: k in parent && k != AGE && k != GENDER && k != GENDER_PROBABILITY ==> r[k] == parent[k]
  {
    ExtendWithAge(ExtendWithGender(parent, p.gender, p.genderProbability), p.age)
  }

  /** An extended result has the age capability, and the gender one iff the probability is valid. */
  lemma ExtendWithPredictionCapabilities(parent: Props, p: AgeAndGenderPrediction, isValidProbability: Value -> bool)
    ensures IsWithAge(Record(ExtendWithPrediction(parent, p)))
    ensures IsWithGender(Record(ExtendWithPrediction(parent, p)), isValidProbability)
            <==> isValidProbability(Number(p.genderProbability))
  {
  }

  /**
   * `Promise.all(faces.map(face => predictAgeAndGender(face)))`, taken in crop
   * order: one prediction per crop, or the first rejection.
   */
  function PredictAll(faces: seq<Crop>, predict: Option<Crop> -> Result<AgeAndGenderPrediction, Error>)
    : (r: Result<seq<AgeAndGenderPrediction>, Error>)
    ensures r.Ok? <==> forall i :: 0 <= i < |faces| ==> predict(Some(faces[i])).Ok?
    ensures r.Ok? ==>
      && |r.value| == |faces|
      && forall i :: 0 <= i < |faces| ==> r.value[i] == predict(Some(faces[i])).value
    ensures r.Err? ==>
      exists i :: 0 <= i < |faces| && predict(Some(faces[i])) == Err(r.error)
                  && forall j :: 0 <= j < i ==> predict(Some(faces[j])).Ok?
  {
    if faces == [] then Ok([])
    else
      match predict(Some(faces[0]))
      case Err(e) => Err(e)
      case Ok(p) =>
        match PredictAll(faces[1..], predict)
        case Err(e) =>
          assert exists i :: 0 <= i < |faces| - 1 && predict(Some(faces[1..][i])) == Err(e)
                             && forall j :: 0 <= j < i ==> predict(Some(faces[1..][j])).Ok?;
          var i :| 0 <= i < |faces| - 1 && predict(Some(faces[1..][i])) == Err(e)
                   && forall j :: 0 <= j < i ==> predict(Some(faces[1..][j])).Ok?;
          assert forall j :: 0 <= j < i + 1 ==> predict(Some(faces[j])).Ok? by {
            forall j | 0 <= j < i + 1 ensures predict(Some(faces[j])).Ok? {
              if j > 0 { assert faces[j] == faces[1..][j - 1]; }
            }
          }
          Err(e)
        case Ok(ps) => Ok([p] + ps)
  }

  /**
   * The predictor calls `faces.map(...)` makes: every crop's prediction is
   * started, in crop order, whatever any of them settles to.
   */
  function PredictionCalls(faces: seq<Crop>): (events: seq<Event>)
    ensures |events| == |faces|
    ensures forall i :: 0 <= i < |faces| ==> events[i] == Predicted(Some(faces[i]))
  {
    if faces == [] then [] else [Predicted(Some(faces[0]))] + PredictionCalls(faces[1..])
  }

  /** The `computeResults` callback of the all-faces stage, with the predictor calls it makes. */
  function PredictEach(predict: Option<Crop> -> Result<AgeAndGenderPrediction, Error>)
    : (computeResults: seq<Crop> -> Observed<seq<AgeAndGenderPrediction>>)
    ensures computeResults([]) == Observed(Ok([]), [])
  {
    faces => Observed(PredictAll(faces, predict), PredictionCalls(faces))
  }

  /** The `computeResult` callback of the single stage: one predictor call on the face it is given. */
  function PredictOne(predict: Option<Crop> -> Result<AgeAndGenderPrediction, Error>)
    : (computeResult: Option<Crop> -> Observed<AgeAndGenderPrediction>)
    ensures computeResult(None) == Observed(predict(None), [Predicted(None)])
  {
    face => Observed(predict(face), [Predicted(face)])
  }

  /** The faces the predictor was called on, in call order. */
  function PredictorCalls(events: seq<Event>): seq<Option<Crop>> {
    if events == [] then []
    else (if events[0].Predicted? then [events[0].face] else []) + PredictorCalls(events[1..])
  }

  lemma {:induction false} PredictorCallsAppend(events: seq<Event>, more: seq<Event>)
    ensures PredictorCalls(events + more) == PredictorCalls(events) + PredictorCalls(more)
  {
    if events == [] {
      assert events + more == more;
    } else {
      assert (events + more)[0] == events[0];
      assert (events + more)[1..] == events[1..] + more;
      PredictorCallsAppend(events[1..], more);
    }
  }

  lemma {:induction false} NoPredictorCalls(events: seq<Event>)
    requires forall e :: e in events ==> !e.Predicted?
    ensures PredictorCalls(events) == []
  {
    if events != [] {
      assert events[0] in events;
      assert forall e :: e in events[1..] ==> e in events;
      NoPredictorCalls(events[1..]);
    }
  }

  /** Only the callback's own events can be predictor calls. */
  lemma PredictorCallsAroundCallback(before: seq<Event>, faces: seq<Crop>, own: seq<Event>, cleanup: seq<Event>)
    requires forall e :: e in before ==> !e.Predicted?
    requires forall e :: e in cleanup ==> !e.Predicted?
    ensures PredictorCalls(before + [ComputeResultsCalled(faces)] + own + cleanup) == PredictorCalls(own)
  {
    NoPredictorCalls(before);
    NoPredictorCalls(cleanup);
    PredictorCallsAppend(before + [ComputeResultsCalled(faces)] + own, cleanup);
    PredictorCallsAppend(before + [ComputeResultsCalled(faces)], own);
    PredictorCallsAppend(before, [ComputeResultsCalled(faces)]);
    assert PredictorCalls([ComputeResultsCalled(faces)]) == [];
  }

  /** The predictor calls of the all-faces callback are one per crop, in crop order. */
  lemma {:induction false} PredictionCallsInOrder(faces: seq<Crop>)
    ensures var calls := PredictorCalls(PredictionCalls(faces));
            |calls| == |faces| && forall i :: 0 <= i < |faces| ==> calls[i] == Some(faces[i])
  {
    if faces != [] {
      PredictionCallsInOrder(faces[1..]);
      assert PredictionCalls(faces) == [Predicted(Some(faces[0]))] + PredictionCalls(faces[1..]);
      PredictorCallsAppend([Predicted(Some(faces[0]))], PredictionCalls(faces[1..]));
      assert PredictorCalls([Predicted(Some(faces[0]))]) == [Some(faces[0])];
    }
  }

  /**
   * `parentResults.map((parentResult, i) => ...)`: parent `i` extended with
   * prediction `i`; destructuring a missing prediction throws a `TypeError`.
   */
  function ZipWithPredictions(parents: seq<Props>, predictions: seq<AgeAndGenderPrediction>)
    : (r: Result<seq<Props>, Error>)
    ensures r.Ok? <==> |parents| <= |predictions|
    ensures r.Err? ==> r.error == TypeError
    ensures r.Ok? ==>
      && |r.value| == |parents|
      && forall i {:trigger r.value[i]} :: 0 <= i < |parents| ==> r.value[i] == ExtendWithPrediction(parents[i], predictions[i])
  {
    if parents == [] then Ok([])
    else if predictions == [] then Err(TypeError)
    else
      var rest := ZipWithPredictions(parents[1..], predictions[1..]);
      if rest.Err? then rest
      else
        Ok([ExtendWithPrediction(parents[0], predictions[0])] + rest.value)
  }

  /** How a stage's `run()` settles, together with the calls it makes. */
  datatype StageOutcome<+R> = StageOutcome(settlement: Settlement<R>, events: seq<Event>)

  /**
   * What `PredictAllAgeAndGenderTask.run` settles to and which calls it makes,
   * given what awaiting the parent settles to.
   */
  function RunAllOutcome(
    env: Environment, parent: Settlement<seq<Props>>, input: NetInput, extractedFaces: Option<seq<Crop>>)
    : (o: StageOutcome<seq<Props>>)
    ensures o.settlement.Pending? <==> parent.Pending?
    ensures !parent.Resolved? ==> o.events == []
    ensures parent.Rejected? ==> o.settlement == Rejected(parent.error)
    ensures o.settlement.Resolved? ==> parent.Resolved? && |o.settlement.value| == |parent.value|
  {
    match parent
    case Pending => StageOutcome(Pending, [])
    case Rejected(e) => StageOutcome(Rejected(e), [])
    case Resolved(parents) =>
      var o := ExtractAllOutcome(env, parents, input, PredictEach(env.predictAgeAndGender), extractedFaces, None);
      match o.result
      case Err(e) => StageOutcome(Rejected(e), o.events)
      case Ok(predictions) => StageOutcome(Settle(ZipWithPredictions(parents, predictions)), o.events)
  }

  /**
   * What `PredictSingleAgeAndGenderTask.run` settles to and which calls it
   * makes, given what awaiting the parent settles to (`None` is `undefined`).
   */
  function RunSingleOutcome(
    env: Environment, parent: Settlement<Option<Props>>, input: NetInput, extractedFaces: Option<seq<Crop>>)
    : (o: StageOutcome<Option<Props>>)
    ensures o.settlement.Pending? <==> parent.Pending?
    ensures parent != Resolved(None) ==> o.settlement != Resolved(None)
    ensures !(parent.Resolved? && parent.value.Some?) ==> o.events == []
    ensures parent.Rejected? ==> o.settlement == Rejected(parent.error)
    ensures o.settlement.Resolved? && o.settlement.value.Some? ==>
              && parent.Resolved? && parent.value.Some?
              && o.settlement.value.value.Keys == parent.value.value.Keys + {AGE, GENDER, GENDER_PROBABILITY}
  {
    match parent
    case Pending => StageOutcome(Pending, [])
    case Rejected(e) => StageOutcome(Rejected(e), [])
    case Resolved(None) => StageOutcome(Resolved(None), [])
    case Resolved(Some(parentResult)) =>
      var o := ExtractAllOutcome(
        env, [parentResult], input, ComputeOnFirstFace(PredictOne(env.predictAgeAndGender)), extractedFaces, None);
      match o.result
      case Err(e) => StageOutcome(Rejected(e), o.events)
      case Ok(p) => StageOutcome(Resolved(Some(ExtendWithPrediction(parentResult, p))), o.events)
  }

  /**
   * With crops obtained and every prediction fulfilled, the all-faces stage
   * zips: output `i` is parent `i` extended with the prediction for crop `i`,
   * one output per parent; too few crops end in a `TypeError`.
   */
  lemma RunAllZipsPredictions(env: Environment, parents: seq<Props>, input: NetInput,
                              extractedFaces: Option<seq<Crop>>, faces: seq<Crop>)
    requires ObtainFaces(env, input, FaceBoxes(parents, RectForAlignment(None)), extractedFaces).result == Ok(faces)
    requires forall i :: 0 <= i < |faces| ==> env.predictAgeAndGender(Some(faces[i])).Ok?
    ensures var o := RunAllOutcome(env, Resolved(parents), input, extractedFaces);
            && (|parents| <= |faces| ==>
                  && o.settlement.Resolved?
                  && |o.settlement.value| == |parents|
                  && forall i :: 0 <= i < |parents| ==>
                       o.settlement.value[i]
                       == ExtendWithPrediction(parents[i], env.predictAgeAndGender(Some(faces[i])).value))
            && (|faces| < |parents| ==> o.settlement == Rejected(TypeError))
  {
  }

  /**
   * The predictor is called once per crop, in crop order, and on nothing else,
   * whether or not some prediction rejects.
   */
  lemma RunAllPredictsEveryCropInOrder(env: Environment, parents: seq<Props>, input: NetInput,
                                       extractedFaces: Option<seq<Crop>>, faces: seq<Crop>)
    requires ObtainFaces(env, input, FaceBoxes(parents, RectForAlignment(None)), extractedFaces).result == Ok(faces)
    ensures var calls := PredictorCalls(RunAllOutcome(env, Resolved(parents), input, extractedFaces).events);
            |calls| == |faces| && forall i :: 0 <= i < |faces| ==> calls[i] == Some(faces[i])
  {
    var obtained := ObtainFaces(env, input, FaceBoxes(parents, RectForAlignment(None)), extractedFaces);
    var predictEach := PredictEach(env.predictAgeAndGender);
    var cleanup := if predictEach(faces).result.Ok? then Disposals(faces) else [];
    EventsOnceCropsObtained(env, parents, input, predictEach, extractedFaces, None, faces);
    DisposalsOnlyTensorCrops(faces);
    PredictorCallsAroundCallback(obtained.events, faces, predictEach(faces).events, cleanup);
    PredictionCallsInOrder(faces);
  }

  /** When no crops can be extracted, the stage rejects with that error and the predictor is never called. */
  lemma RunAllExtractionRejectedPredictsNothing(env: Environment, parents: seq<Props>, input: NetInput,
                                                extractedFaces: Option<seq<Crop>>)
    requires ObtainFaces(env, input, FaceBoxes(parents, RectForAlignment(None)), extractedFaces).result.Err?
    ensures var o := RunAllOutcome(env, Resolved(parents), input, extractedFaces);
            && o.settlement
               == Rejected(ObtainFaces(env, input, FaceBoxes(parents, RectForAlignment(None)), extractedFaces).result.error)
            && PredictorCalls(o.events) == []
  {
    var obtained := ObtainFaces(env, input, FaceBoxes(parents, RectForAlignment(None)), extractedFaces);
    NoPredictorCalls(obtained.events);
  }

  /**
   * A rejected prediction rejects the stage with the first rejection in crop
   * order, and then no crop is disposed.
   */
  lemma RunAllPredictionRejected(env: Environment, parents: seq<Props>, input: NetInput,
                                 extractedFaces: Option<seq<Crop>>, faces: seq<Crop>, k: nat)
    requires ObtainFaces(env, input, FaceBoxes(parents, RectForAlignment(None)), extractedFaces).result == Ok(faces)
    requires k < |faces| && env.predictAgeAndGender(Some(faces[k])).Err?
    ensures var o := RunAllOutcome(env, Resolved(parents), input, extractedFaces);
            && o.settlement.Rejected?
            && (exists i :: 0 <= i < |faces| && env.predictAgeAndGender(Some(faces[i])) == Err(o.settlement.error)
                            && forall j :: 0 <= j < i ==> env.predictAgeAndGender(Some(faces[j])).Ok?)
            && forall e :: e in o.events ==> !e.Disposed?
  {
    var o := RunAllOutcome(env, Resolved(parents), input, extractedFaces);
    var obtained := ObtainFaces(env, input, FaceBoxes(parents, RectForAlignment(None)), extractedFaces);
    var calls := PredictionCalls(faces);
    assert o.events == obtained.events + [ComputeResultsCalled(faces)] + calls;
    forall e | e in calls
      ensures !e.Disposed?
    {
      var i :| 0 <= i < |calls| && calls[i] == e;
    }
  }

  /**
   * When every prediction is fulfilled, each tensor crop is disposed once per
   * occurrence among the crops, and no other tensor is disposed.
   */
  lemma RunAllDisposesEveryTensorCrop(env: Environment, parents: seq<Props>, input: NetInput,
                                      extractedFaces: Option<seq<Crop>>, faces: seq<Crop>)
    requires ObtainFaces(env, input, FaceBoxes(parents, RectForAlignment(None)), extractedFaces).result == Ok(faces)
    requires forall i :: 0 <= i < |faces| ==> env.predictAgeAndGender(Some(faces[i])).Ok?
    ensures var o := RunAllOutcome(env, Resolved(parents), input, extractedFaces);
            forall t :: multiset(o.events)[Disposed(t)] == multiset(faces)[TensorCrop(t)]
  {
    var predictEach := PredictEach(env.predictAgeAndGender);
    SuccessDisposesEveryTensorCrop(env, parents, input, predictEach, extractedFaces, None, faces);
    PredictionCallsDisposeNothing(faces);
  }

  /** The predictor calls of a crop list contain no `dispose()`. */
  lemma PredictionCallsDisposeNothing(faces: seq<Crop>)
    ensures forall t :: multiset(PredictionCalls(faces))[Disposed(t)] == 0
  {
    forall t
      ensures multiset(PredictionCalls(faces))[Disposed(t)] == 0
    {
      assert Disposed(t) !in PredictionCalls(faces);
    }
  }

  /**
   * No parent results and no crops: the stage resolves to an empty list, the
   * predictor is never called, and nothing is disposed.
   */
  lemma RunAllEmptyParents(env: Environment, input: NetInput, extractedFaces: Option<seq<Crop>>)
    requires ObtainFaces(env, input, [], extractedFaces).result == Ok([])
    ensures var o := RunAllOutcome(env, Resolved([]), input, extractedFaces);
            && o.settlement == Resolved([])
            && ComputeResultsCalled([]) in o.events
            && PredictorCalls(o.events) == []
            && forall e :: e in o.events ==> !e.Disposed?
  {
    assert FaceBoxes([], RectForAlignment(None)) == [];
    var predictEach := PredictEach(env.predictAgeAndGender);
    var obtained := ObtainFaces(env, input, [], extractedFaces);
    EventsOnceCropsObtained(env, [], input, predictEach, extractedFaces, None, []);
    assert RunAllOutcome(env, Resolved([]), input, extractedFaces).events
           == obtained.events + [ComputeResultsCalled([])];
    RunAllPredictsEveryCropInOrder(env, [], input, extractedFaces, []);
  }

  /**
   * The single stage short-circuits: a missing parent resolves it to
   * `undefined` and a rejected parent promise rejects it, both without any
   * extraction, prediction or disposal.
   */
  lemma RunSingleShortCircuits(env: Environment, input: NetInput, extractedFaces: Option<seq<Crop>>, e: Error)
    ensures RunSingleOutcome(env, Resolved(None), input, extractedFaces) == StageOutcome(Resolved(None), [])
    ensures RunSingleOutcome(env, Rejected(e), input, extractedFaces) == StageOutcome(Rejected(e), [])
  {
  }

  /**
   * With a parent, the single stage calls the predictor exactly once, on the
   * first crop (`undefined` when there is none), and resolves to the parent
   * extended with that prediction.
   */
  lemma RunSingleExtendsParent(env: Environment, parent: Props, input: NetInput,
                               extractedFaces: Option<seq<Crop>>, faces: seq<Crop>)
    requires ObtainFaces(env, input, FaceBoxes([parent], RectForAlignment(None)), extractedFaces).result == Ok(faces)
    ensures var o := RunSingleOutcome(env, Resolved(Some(parent)), input, extractedFaces);
            && PredictorCalls(o.events) == [FirstFace(faces)]
            && (env.predictAgeAndGender(FirstFace(faces)).Ok? ==>
                  o.settlement == Resolved(Some(ExtendWithPrediction(parent, env.predictAgeAndGender(FirstFace(faces)).value))))
            && (env.predictAgeAndGender(FirstFace(faces)).Err? ==>
                  o.settlement == Rejected(env.predictAgeAndGender(FirstFace(faces)).error))
  {
    var obtained := ObtainFaces(env, input, FaceBoxes([parent], RectForAlignment(None)), extractedFaces);
    var computeOnFirst := ComputeOnFirstFace(PredictOne(env.predictAgeAndGender));
    var cleanup := if computeOnFirst(faces).result.Ok? then Disposals(faces) else [];
    EventsOnceCropsObtained(env, [parent], input, computeOnFirst, extractedFaces, None, faces);
    DisposalsOnlyTensorCrops(faces);
    PredictorCallsAroundCallback(obtained.events, faces, computeOnFirst(faces).events, cleanup);
    assert computeOnFirst(faces).events == [Predicted(FirstFace(faces))];
    assert PredictorCalls([Predicted(FirstFace(faces))]) == [FirstFace(faces)];
  }

  /**
   * A stage whose parent is a task that fails (as every chained stage's parent
   * is a task) never settles and makes no call, because awaiting the failing
   * task never settles; a rejected parent promise rejects the stage instead.
   */
  lemma StageOverFailingTaskNeverSettles(env: Environment, input: NetInput, extractedFaces: Option<seq<Crop>>, e: Error)
    ensures RunAllOutcome(env, AwaitParent(TaskParent(Rejected(e))), input, extractedFaces) == StageOutcome(Pending, [])
    ensures RunSingleOutcome(env, AwaitParent(TaskParent(Rejected(e))), input, extractedFaces) == StageOutcome(Pending, [])
    ensures RunAllOutcome(env, AwaitParent(PromiseParent(Rejected(e))), input, extractedFaces) == StageOutcome(Rejected(e), [])
  {
  }

  /** With the rejection forwarded, a stage over a failing task rejects with the task's error. */
  lemma StageOverFailingTaskForwardingRejection(env: Environment, input: NetInput, extractedFaces: Option<seq<Crop>>, e: Error)
    ensures RunAllOutcome(env, AwaitTaskForwardingRejection(Rejected(e)), input, extractedFaces)
            == StageOutcome(Rejected(e), [])
    ensures RunSingleOutcome(env, AwaitTaskForwardingRejection(Rejected(e)), input, extractedFaces)
            == StageOutcome(Rejected(e), [])
  {
  }

  /** The classes a chaining method can construct. */
  datatype StageKind =
    | PredictAllFaceExpressions
    | PredictAllFaceExpressionsWithFaceAlignment
    | ComputeAllFaceDescriptors
    | PredictSingleFaceExpressions
    | PredictSingleFaceExpressionsWithFaceAlignment
    | ComputeSingleFaceDescriptor

  /** `new <kind>(parentTask, input, extractedFaces)`: a stage built but not yet run. */
  datatype ChainedStage = ChainedStage(kind: StageKind, parentTask: object, input: NetInput, extractedFaces: Option<seq<Crop>>)

  /**
   * `PredictAllAgeAndGenderTask`, and with `withFaceAlignment` its subclass
   * `PredictAllAgeAndGenderWithFaceAlignmentTask`.
   */
  class PredictAllAgeAndGenderTask {
    /** The parent task or promise. */
    const parentTask: Parent<seq<Props>>
    const input: NetInput
    const extractedFaces: Option<seq<Crop>>
    const withFaceAlignment: bool

    constructor (
      parentTask: Parent<seq<Props>>, input: NetInput, extractedFaces: Option<seq<Crop>>, withFaceAlignment: bool)
      ensures this.parentTask == parentTask && this.input == input
      ensures this.extractedFaces == extractedFaces && this.withFaceAlignment == withFaceAlignment
    {
      this.parentTask := parentTask;
      this.input := input;
      this.extractedFaces := extractedFaces;
      this.withFaceAlignment := withFaceAlignment;
    }

    /** `run()`: awaits the parent, predicts on every crop, zips predictions onto parents. */
    method Run(env: Environment) returns (r: Settlement<seq<Props>>)
      modifies env
      ensures var o := RunAllOutcome(env, AwaitParent(parentTask), input, extractedFaces);
              r == o.settlement && env.trace == old(env.trace) + o.events
    {
      var parent := AwaitParent(parentTask);
      if parent.Pending? {
        return Pending;
      }
      if parent.Rejected? {
        return Rejected(parent.error);
      }
      var parentResults := parent.value;
      var ageAndGenderByFace := ExtractAllFacesAndComputeResults(
        env, parentResults, input, PredictEach(env.predictAgeAndGender), extractedFaces, None);
      if ageAndGenderByFace.Err? {
        return Rejected(ageAndGenderByFace.error);
      }
      r := Settle(ZipWithPredictions(parentResults, ageAndGenderByFace.value));
    }

    /** `then(onfulfilled)`, inherited from `ComposableTask`: `run` first, then `onfulfilled`. */
    method Then(env: Environment, onfulfilled: seq<Props> -> Result<seq<Props>, Error>) returns (r: Settlement<seq<Props>>)
      modifies env
      ensures var o := RunAllOutcome(env, AwaitParent(parentTask), input, extractedFaces);
              r == ComposableTasks.Then(o.settlement, onfulfilled) && env.trace == old(env.trace) + o.events
    {
      var value := Run(env);
      r := ComposableTasks.Then(value, onfulfilled);
    }

    /** `withFaceExpressions()`: a new stage over this one, same input, no crops. */
    function WithFaceExpressions(): (next: ChainedStage)
      ensures next.parentTask == this && next.input == input && next.extractedFaces == None
      ensures next.kind == if withFaceAlignment then PredictAllFaceExpressionsWithFaceAlignment else PredictAllFaceExpressions
    {
      ChainedStage(
        if withFaceAlignment then PredictAllFaceExpressionsWithFaceAlignment else PredictAllFaceExpressions,
        this, input, None)
    }

    /** `withFaceDescriptors()`: only the face-alignment subclass defines it. */
    function WithFaceDescriptors(): (next: ChainedStage)
      requires withFaceAlignment
      ensures next.parentTask == this && next.input == input && next.extractedFaces == None
      ensures next.kind == ComputeAllFaceDescriptors
    {
      ChainedStage(ComputeAllFaceDescriptors, this, input, None)
    }
  }

  /**
   * `PredictSingleAgeAndGenderTask`, and with `withFaceAlignment` its subclass
   * `PredictSingleAgeAndGenderWithFaceAlignmentTask`.
   */
  class PredictSingleAgeAndGenderTask {
    /** The parent task or promise; a `None` result is `undefined`. */
    const parentTask: Parent<Option<Props>>
    const input: NetInput
    const extractedFaces: Option<seq<Crop>>
    const withFaceAlignment: bool

    constructor (
      parentTask: Parent<Option<Props>>, input: NetInput, extractedFaces: Option<seq<Crop>>, withFaceAlignment: bool)
      ensures this.parentTask == parentTask && this.input == input
      ensures this.extractedFaces == extractedFaces && this.withFaceAlignment == withFaceAlignment
    {
      this.parentTask := parentTask;
      this.input := input;
      this.extractedFaces := extractedFaces;
      this.withFaceAlignment := withFaceAlignment;
    }

    /** `run()`: `undefined` without a parent result, else the parent extended with its prediction. */
    method Run(env: Environment) returns (r: Settlement<Option<Props>>)
      modifies env
      ensures var o := RunSingleOutcome(env, AwaitParent(parentTask), input, extractedFaces);
              r == o.settlement && env.trace == old(env.trace) + o.events
    {
      var parent := AwaitParent(parentTask);
      if parent.Pending? {
        return Pending;
      }
      if parent.Rejected? {
        return Rejected(parent.error);
      }
      if parent.value.None? {
        return Resolved(None);
      }
      var parentResult := parent.value.value;
      var prediction := ExtractSingleFaceAndComputeResult(
        env, parentResult, input, PredictOne(env.predictAgeAndGender), extractedFaces, None);
      if prediction.Err? {
        return Rejected(prediction.error);
      }
      r := Resolved(Some(ExtendWithPrediction(parentResult, prediction.value)));
    }

    /** `then(onfulfilled)`, inherited from `ComposableTask`. */
    method Then(env: Environment, onfulfilled: Option<Props> -> Result<Option<Props>, Error>)
      returns (r: Settlement<Option<Props>>)
      modifies env
      ensures var o := RunSingleOutcome(env, AwaitParent(parentTask), input, extractedFaces);
              r == ComposableTasks.Then(o.settlement, onfulfilled) && env.trace == old(env.trace) + o.events
    {
      var value := Run(env);
      r := ComposableTasks.Then(value, onfulfilled);
    }

    /** `withFaceExpressions()`: a new stage over this one, same input, no crops. */
    function WithFaceExpressions(): (next: ChainedStage)
      ensures next.parentTask == this && next.input == input && next.extractedFaces == None
      ensures next.kind == if withFaceAlignment then PredictSingleFaceExpressionsWithFaceAlignment else PredictSingleFaceExpressions
    {
      ChainedStage(
        if withFaceAlignment then PredictSingleFaceExpressionsWithFaceAlignment else PredictSingleFaceExpressions,
        this, input, None)
    }

    /** `withFaceDescriptor()`: only the face-alignment subclass defines it. */
    function WithFaceDescriptor(): (next: ChainedStage)
      requires withFaceAlignment
      ensures next.parentTask == this && next.input == input && next.extractedFaces == None
      ensures next.kind == ComputeSingleFaceDescriptor
    {
      ChainedStage(ComputeSingleFaceDescriptor, this, input, None)
    }
  }
}
