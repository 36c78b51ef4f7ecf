/**
 * Crop extraction around an injected computation, followed by tensor disposal
 * (src/globalApi/extractFacesAndComputeResults.ts).
 */
module ExtractFaces {
  import opened Common
  import opened Geometry
  import opened JsValues
  import opened WithFaceDetection
  import opened WithFaceLandmarks
  import opened Runtime

  /** The default `getRectForAlignment`: `({ alignedRect }) => alignedRect`. */
  function DefaultRectForAlignment(parent: Props): (rect: Value)
    ensures ALIGNED_RECT in parent ==> rect == parent[ALIGNED_RECT]
    ensures ALIGNED_RECT !in parent ==> rect == Undefined
  {
    Get(Record(parent), ALIGNED_RECT)
  }

  /** The rectangle chooser in force: the one passed, or the default when the argument is undefined. */
  function RectForAlignment(getRectForAlignment: Option<Props -> Value>): (getRect: Props -> Value)
    ensures getRectForAlignment.Some? ==> getRect == getRectForAlignment.value
    ensures getRectForAlignment.None? ==> getRect == DefaultRectForAlignment
  {
    match getRectForAlignment
    case Some(f) => f
    case None => DefaultRectForAlignment
  }

  /** The region of one parent: its alignment rectangle when it has landmarks, else its detection. */
  function RegionFor(parent: Props, getRect: Props -> Value): (region: Value)
    ensures IsWithFaceLandmarks(Record(parent)) ==> region == getRect(parent)
    ensures !IsWithFaceLandmarks(Record(parent)) && DETECTION in parent ==> region == parent[DETECTION]
    ensures !IsWithFaceLandmarks(Record(parent)) && DETECTION !in parent ==> region == Undefined
  {
    if IsWithFaceLandmarks(Record(parent)) then getRect(parent) else Get(Record(parent), DETECTION)
  }

  /** `parentResults.map(...)`: one region per parent result, in parent order. */
  function FaceBoxes(parents: seq<Props>, getRect: Props -> Value): (boxes: seq<Value>)
    ensures |boxes| == |parents|
    ensures forall i :: 0 <= i < |parents| ==>
      boxes[i] == if IsWithFaceLandmarks(Record(parents[i])) then getRect(parents[i])
                  else Get(Record(parents[i]), DETECTION)
  {
    if parents == [] then [] else [RegionFor(parents[0], getRect)] + FaceBoxes(parents[1..], getRect)
  }

  /**
   * With the default chooser, a parent extended with landmarks is cropped by
   * the aligned rectangle `extendWithFaceLandmarks` stored, and a parent
   * without landmarks by its detection.
   */
  lemma DefaultRegionIsAlignedRect(source: Props, unshiftedLandmarks: FaceLandmarks, geo: GeometryOps)
    requires IsWithFaceDetection(Record(source))
    ensures var extended := ExtendWithFaceLandmarks(source, unshiftedLandmarks, geo);
            RegionFor(extended, RectForAlignment(None)) == extended[ALIGNED_RECT]
    ensures !IsWithFaceLandmarks(Record(source)) ==>
              RegionFor(source, RectForAlignment(None)) == source[DETECTION]
  {
    ExtendWithFaceLandmarksCapabilities(source, unshiftedLandmarks, geo);
  }

  /** The crops to compute on: the supplied list (any list, even an empty one), else an extraction. */
  function ObtainFaces(env: Environment, input: NetInput, regions: seq<Value>, extractedFaces: Option<seq<Crop>>)
    : (o: Observed<seq<Crop>>)
    ensures extractedFaces.Some? <==> o.events == []
    ensures extractedFaces.Some? ==> o.result == Ok(extractedFaces.value)
    ensures extractedFaces.None? && input.TensorInput? ==>
              o == Observed(env.extractFaceTensors(input, regions), [ExtractFaceTensorsCalled(input, regions)])
    ensures extractedFaces.None? && !input.TensorInput? ==>
              o == Observed(env.extractFaces(input, regions), [ExtractFacesCalled(input, regions)])
  {
    match extractedFaces
    case Some(faces) => Observed(Ok(faces), [])
    case None =>
      if input.TensorInput? then
        Observed(env.extractFaceTensors(input, regions), [ExtractFaceTensorsCalled(input, regions)])
      else
        Observed(env.extractFaces(input, regions), [ExtractFacesCalled(input, regions)])
  }

  /** The `dispose()` call the cleanup loop makes for one crop: tensors only. */
  function DisposalOf(face: Crop): (events: seq<Event>)
    ensures face.TensorCrop? ==> events == [Disposed(face.tensor)]
    ensures !face.TensorCrop? ==> events == []
  {
    if face.TensorCrop? then [Disposed(face.tensor)] else []
  }

  /** The `dispose()` calls of `faces.forEach(...)`, in crop order. */
  function Disposals(faces: seq<Crop>): (events: seq<Event>)
    ensures |events| <= |faces|
    ensures forall e :: e in events ==> e.Disposed?
  {
    if faces == [] then [] else DisposalOf(faces[0]) + Disposals(faces[1..])
  }

  /**
   * What `extractAllFacesAndComputeResults` returns and which calls it makes:
   * the extraction (if any), the computation with the calls it makes itself,
   * and on success the cleanup.  There is no `finally`: when `computeResults`
   * rejects, nothing is disposed.
   */
  function ExtractAllOutcome<R>(
    env: Environment, parents: seq<Props>, input: NetInput,
    computeResults: seq<Crop> -> Observed<R>,
    extractedFaces: Option<seq<Crop>>, getRectForAlignment: Option<Props -> Value>)
    : (o: Observed<R>)
    ensures var obtained := ObtainFaces(env, input, FaceBoxes(parents, RectForAlignment(getRectForAlignment)), extractedFaces);
            && obtained.events <= o.events
            && (obtained.result.Err? ==> o == Observed(Err(obtained.result.error), obtained.events))
            && (obtained.result.Ok? ==> o.result == computeResults(obtained.result.value).result)
  {
    var regions := FaceBoxes(parents, RectForAlignment(getRectForAlignment));
    var obtained := ObtainFaces(env, input, regions, extractedFaces);
    match obtained.result
    case Err(e) => Observed(Err(e), obtained.events)
    case Ok(faces) =>
      var computed := computeResults(faces);
      var events := obtained.events + [ComputeResultsCalled(faces)] + computed.events;
      if computed.result.Err? then Observed(computed.result, events) else Observed(computed.result, events + Disposals(faces))
  }

  /** `extractedFaces || (await extractFaceTensors(...) / extractFaces(...))`. */
  method ObtainCrops(env: Environment, input: NetInput, faceBoxes: seq<Value>, extractedFaces: Option<seq<Crop>>)
    returns (r: Result<seq<Crop>, Error>)
    modifies env
    ensures var obtained := ObtainFaces(env, input, faceBoxes, extractedFaces);
            r == obtained.result && env.trace == old(env.trace) + obtained.events
  {
    if extractedFaces.Some? {
      return Ok(extractedFaces.value);
    }
    if input.TensorInput? {
      r := env.ExtractFaceTensors(input, faceBoxes);
    } else {
      r := env.ExtractFaces(input, faceBoxes);
    }
  }

  /** `extractAllFacesAndComputeResults`, with its cleanup loop over the crops. */
  method ExtractAllFacesAndComputeResults<R>(
    env: Environment, parents: seq<Props>, input: NetInput,
    computeResults: seq<Crop> -> Observed<R>,
    extractedFaces: Option<seq<Crop>>, getRectForAlignment: Option<Props -> Value>)
    returns (r: Result<R, Error>)
    modifies env
    ensures var o := ExtractAllOutcome(env, parents, input, computeResults, extractedFaces, getRectForAlignment);
            r == o.result && env.trace == old(env.trace) + o.events
  {
    ghost var o := ExtractAllOutcome(env, parents, input, computeResults, extractedFaces, getRectForAlignment);
    var faceBoxes := FaceBoxes(parents, RectForAlignment(getRectForAlignment));
    ghost var obtained := ObtainFaces(env, input, faceBoxes, extractedFaces);
    var extracted := ObtainCrops(env, input, faceBoxes, extractedFaces);
    if extracted.Err? {
      return Err(extracted.error);
    }
    var faces := extracted.value;
    ghost var computed := computeResults(faces);
    EventsOnceCropsObtained(env, parents, input, computeResults, extractedFaces, getRectForAlignment, faces);
    assert o.events == obtained.events + [ComputeResultsCalled(faces)] + computed.events
                       + (if computed.result.Ok? then Disposals(faces) else []);
    r := ComputeAndDispose(env, computeResults, faces);
  }

  /** `const results = await computeResults(faces)`, then the cleanup once it has fulfilled. */
  method ComputeAndDispose<R>(env: Environment, computeResults: seq<Crop> -> Observed<R>, faces: seq<Crop>)
    returns (r: Result<R, Error>)
    modifies env
    ensures r == computeResults(faces).result
    ensures env.trace == old(env.trace) + [ComputeResultsCalled(faces)] + computeResults(faces).events
                         + (if r.Ok? then Disposals(faces) else [])
  {
    r := env.ComputeResults(computeResults, faces);
    if r.Ok? {
      DisposeTensorCrops(env, faces);
    }
  }

  /** `faces.forEach(f => { if (f instanceof tf.Tensor) f.dispose(); })`. */
  method DisposeTensorCrops(env: Environment, faces: seq<Crop>)
    modifies env
    ensures env.trace == old(env.trace) + Disposals(faces)
  {
    var i := 0;
    while i < |faces|
      invariant 0 <= i <= |faces|
      invariant env.trace == old(env.trace) + Disposals(faces[..i])
    {
      if faces[i].TensorCrop? {
        env.Dispose(faces[i].tensor);
      }
      DisposalsAppend(faces[..i], faces[i]);
      assert faces[..i + 1] == faces[..i] + [faces[i]];
      i := i + 1;
    }
    assert faces[..|faces|] == faces;
  }

  lemma {:induction false} DisposalsAppend(faces: seq<Crop>, face: Crop)
    ensures Disposals(faces + [face]) == Disposals(faces) + DisposalOf(face)
  {
    if faces == [] {
      assert [face][1..] == [];
    } else {
      assert (faces + [face])[1..] == faces[1..] + [face];
      DisposalsAppend(faces[1..], face);
    }
  }

  /** The cleanup loop disposes each tensor exactly as often as it occurs among the crops. */
  lemma {:induction false} DisposalsCount(faces: seq<Crop>, t: Tensor)
    ensures multiset(Disposals(faces))[Disposed(t)] == multiset(faces)[TensorCrop(t)]
  {
    if faces != [] {
      var head, rest := faces[0], faces[1..];
      DisposalsCount(rest, t);
      assert faces == [head] + rest;
      assert Disposals(faces) == DisposalOf(head) + Disposals(rest);
      if head == TensorCrop(t) {
        assert DisposalOf(head) == [Disposed(t)];
      } else {
        assert Disposed(t) !in DisposalOf(head);
      }
    }
  }

  /** The cleanup loop only ever disposes tensor crops of the list (never a canvas). */
  lemma {:induction false} DisposalsOnlyTensorCrops(faces: seq<Crop>)
    ensures forall e :: e in Disposals(faces) ==> e.Disposed? && TensorCrop(e.tensor) in faces
  {
    if faces != [] {
      DisposalsOnlyTensorCrops(faces[1..]);
      assert forall e :: e in Disposals(faces) ==> e in DisposalOf(faces[0]) || e in Disposals(faces[1..]);
    }
  }

  /** The calls made once crops are obtained: the computation, the callback's own calls, and on success the cleanup. */
  lemma EventsOnceCropsObtained<R>(
    env: Environment, parents: seq<Props>, input: NetInput,
    computeResults: seq<Crop> -> Observed<R>,
    extractedFaces: Option<seq<Crop>>, getRectForAlignment: Option<Props -> Value>, faces: seq<Crop>)
    requires ObtainFaces(env, input, FaceBoxes(parents, RectForAlignment(getRectForAlignment)), extractedFaces).result
             == Ok(faces)
    ensures ExtractAllOutcome(env, parents, input, computeResults, extractedFaces, getRectForAlignment).events
            == ObtainFaces(env, input, FaceBoxes(parents, RectForAlignment(getRectForAlignment)), extractedFaces).events
               + [ComputeResultsCalled(faces)] + computeResults(faces).events
               + (if computeResults(faces).result.Ok? then Disposals(faces) else [])
    ensures forall e ::
              e in ObtainFaces(env, input, FaceBoxes(parents, RectForAlignment(getRectForAlignment)), extractedFaces).events
              ==> e.ExtractFacesCalled? || e.ExtractFaceTensorsCalled?
  {
  }

  /**
   * Supplied crops are used as they are: `computeResults` is the first call
   * and receives exactly those crops, its value is the result, and neither
   * extraction function is called except by the callback itself.
   */
  lemma SuppliedFacesSkipExtraction<R>(
    env: Environment, parents: seq<Props>, input: NetInput,
    computeResults: seq<Crop> -> Observed<R>,
    faces: seq<Crop>, getRectForAlignment: Option<Props -> Value>)
    ensures var o := ExtractAllOutcome(env, parents, input, computeResults, Some(faces), getRectForAlignment);
            && o.result == computeResults(faces).result
            && |o.events| > 0 && o.events[0] == ComputeResultsCalled(faces)
            && forall e :: e in o.events && (e.ExtractFacesCalled? || e.ExtractFaceTensorsCalled?) ==>
                 e in computeResults(faces).events
  {
    DisposalsOnlyTensorCrops(faces);
    var o := ExtractAllOutcome(env, parents, input, computeResults, Some(faces), getRectForAlignment);
    var computed := computeResults(faces);
    assert o.events == [ComputeResultsCalled(faces)] + computed.events
                       + (if computed.result.Ok? then Disposals(faces) else []);
  }

  /**
   * Without supplied crops, the first call is `extractFaceTensors` for a tensor
   * input and `extractFaces` otherwise, given the regions in parent order; if
   * it rejects, that rejection is the result and nothing else is called.
   */
  lemma ExtractionFollowsInputKind<R>(
    env: Environment, parents: seq<Props>, input: NetInput,
    computeResults: seq<Crop> -> Observed<R>, getRectForAlignment: Option<Props -> Value>)
    ensures var regions := FaceBoxes(parents, RectForAlignment(getRectForAlignment));
            var o := ExtractAllOutcome(env, parents, input, computeResults, None, getRectForAlignment);
            var extracted := if input.TensorInput? then env.extractFaceTensors(input, regions)
                             else env.extractFaces(input, regions);
            && |o.events| > 0
            && o.events[0] == (if input.TensorInput? then ExtractFaceTensorsCalled(input, regions)
                               else ExtractFacesCalled(input, regions))
            && (extracted.Err? ==> o.result == Err(extracted.error) && |o.events| == 1)
  {
  }

  /**
   * Once crops are obtained, `computeResults` is called exactly once, with those
   * crops, after any extraction; the calls it makes itself follow, and only
   * disposals come after them.  Its value is returned unchanged.
   */
  lemma ComputeCalledOnceBeforeCleanup<R>(
    env: Environment, parents: seq<Props>, input: NetInput,
    computeResults: seq<Crop> -> Observed<R>,
    extractedFaces: Option<seq<Crop>>, getRectForAlignment: Option<Props -> Value>, faces: seq<Crop>)
    requires ObtainFaces(env, input, FaceBoxes(parents, RectForAlignment(getRectForAlignment)), extractedFaces).result
             == Ok(faces)
    ensures var o := ExtractAllOutcome(env, parents, input, computeResults, extractedFaces, getRectForAlignment);
            var own := computeResults(faces).events;
            var k := if extractedFaces.Some? then 0 else 1;
            && o.result == computeResults(faces).result
            && k + 1 + |own| <= |o.events|
            && o.events[k] == ComputeResultsCalled(faces)
            && (forall j :: 0 <= j < k ==> o.events[j].ExtractFacesCalled? || o.events[j].ExtractFaceTensorsCalled?)
            && o.events[k + 1..k + 1 + |own|] == own
            && (forall j :: k + 1 + |own| <= j < |o.events| ==> o.events[j].Disposed?)
  {
    var o := ExtractAllOutcome(env, parents, input, computeResults, extractedFaces, getRectForAlignment);
    var obtained := ObtainFaces(env, input, FaceBoxes(parents, RectForAlignment(getRectForAlignment)), extractedFaces);
    var computed := computeResults(faces);
    var k := if extractedFaces.Some? then 0 else 1;
    var cleanup := if computed.result.Ok? then Disposals(faces) else [];
    assert |obtained.events| == k;
    assert o.events == obtained.events + [ComputeResultsCalled(faces)] + computed.events + cleanup;
    DisposalsOnlyTensorCrops(faces);
    forall j | k + 1 + |computed.events| <= j < |o.events|
      ensures o.events[j].Disposed?
    {
      assert o.events[j] == cleanup[j - (k + 1 + |computed.events|)];
      assert o.events[j] in cleanup;
    }
  }

  /**
   * After a successful computation every tensor crop has been disposed once per
   * occurrence in the crop list (so exactly once when the crops are distinct),
   * caller-supplied crops included, on top of whatever the callback disposed
   * itself; no other tensor is disposed.
   */
  lemma SuccessDisposesEveryTensorCrop<R>(
    env: Environment, parents: seq<Props>, input: NetInput,
    computeResults: seq<Crop> -> Observed<R>,
    extractedFaces: Option<seq<Crop>>, getRectForAlignment: Option<Props -> Value>, faces: seq<Crop>)
    requires ObtainFaces(env, input, FaceBoxes(parents, RectForAlignment(getRectForAlignment)), extractedFaces).result
             == Ok(faces)
    requires computeResults(faces).result.Ok?
    ensures var o := ExtractAllOutcome(env, parents, input, computeResults, extractedFaces, getRectForAlignment);
            forall t :: multiset(o.events)[Disposed(t)]
                        == multiset(computeResults(faces).events)[Disposed(t)] + multiset(faces)[TensorCrop(t)]
  {
    var regions := FaceBoxes(parents, RectForAlignment(getRectForAlignment));
    var obtained := ObtainFaces(env, input, regions, extractedFaces);
    var computed := computeResults(faces);
    var o := ExtractAllOutcome(env, parents, input, computeResults, extractedFaces, getRectForAlignment);
    assert o.events == obtained.events + [ComputeResultsCalled(faces)] + computed.events + Disposals(faces);
    forall t
      ensures multiset(o.events)[Disposed(t)] == multiset(computed.events)[Disposed(t)] + multiset(faces)[TensorCrop(t)]
    {
      DisposalsCount(faces, t);
      assert multiset(obtained.events)[Disposed(t)] == 0;
    }
  }

  /**
   * A rejected `computeResults` is the result, and the helper disposes no crop
   * (there is no `finally`): every disposal is one the callback made itself.
   */
  lemma RejectedComputeDisposesNothing<R>(
    env: Environment, parents: seq<Props>, input: NetInput,
    computeResults: seq<Crop> -> Observed<R>,
    extractedFaces: Option<seq<Crop>>, getRectForAlignment: Option<Props -> Value>, faces: seq<Crop>)
    requires ObtainFaces(env, input, FaceBoxes(parents, RectForAlignment(getRectForAlignment)), extractedFaces).result
             == Ok(faces)
    requires computeResults(faces).result.Err?
    ensures var o := ExtractAllOutcome(env, parents, input, computeResults, extractedFaces, getRectForAlignment);
            && o.result == computeResults(faces).result
            && forall e :: e in o.events && e.Disposed? ==> e in computeResults(faces).events
  {
  }

  /** The first crop, or `undefined` when there is none (`faces[0]`). */
  function FirstFace(faces: seq<Crop>): (face: Option<Crop>)
    ensures face.Some? <==> |faces| > 0
    ensures face.Some? ==> face.value == faces[0]
  {
    if |faces| > 0 then Some(faces[0]) else None
  }

  /** `async faces => computeResult(faces[0])`. */
  function ComputeOnFirstFace<R>(computeResult: Option<Crop> -> Observed<R>): (computeResults: seq<Crop> -> Observed<R>)
    ensures computeResults([]) == computeResult(None)
    ensures forall faces :: |faces| > 0 ==> computeResults(faces) == computeResult(Some(faces[0]))
  {
    var computeResults := faces => computeResult(FirstFace(faces));
    assert FirstFace([]) == None;
    assert forall faces :: |faces| > 0 ==> FirstFace(faces) == Some(faces[0]);
    computeResults
  }

  /** `extractSingleFaceAndComputeResult`: the all-faces helper on `[parentResult]`. */
  method ExtractSingleFaceAndComputeResult<R>(
    env: Environment, parent: Props, input: NetInput,
    computeResult: Option<Crop> -> Observed<R>,
    extractedFaces: Option<seq<Crop>>, getRectForAlignment: Option<Props -> Value>)
    returns (r: Result<R, Error>)
    modifies env
    ensures var o := ExtractAllOutcome(env, [parent], input, ComputeOnFirstFace(computeResult), extractedFaces, getRectForAlignment);
            r == o.result && env.trace == old(env.trace) + o.events
  {
    r := ExtractAllFacesAndComputeResults(env, [parent], input, ComputeOnFirstFace(computeResult), extractedFaces, getRectForAlignment);
  }

  /**
   * The single variant extracts the one region of its parent and applies
   * `computeResult` to the first crop.
   */
  lemma SingleComputesOnFirstFace<R>(
    env: Environment, parent: Props, input: NetInput,
    computeResult: Option<Crop> -> Observed<R>,
    extractedFaces: Option<seq<Crop>>, getRectForAlignment: Option<Props -> Value>, faces: seq<Crop>)
    requires ObtainFaces(env, input, FaceBoxes([parent], RectForAlignment(getRectForAlignment)), extractedFaces).result
             == Ok(faces)
    ensures FaceBoxes([parent], RectForAlignment(getRectForAlignment))
            == [RegionFor(parent, RectForAlignment(getRectForAlignment))]
    ensures ExtractAllOutcome(env, [parent], input, ComputeOnFirstFace(computeResult), extractedFaces, getRectForAlignment).result
            == computeResult(FirstFace(faces)).result
  {
  }
}
