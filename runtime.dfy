/**
 * The world the pipeline talks to: the crop extractors, the age/gender
 * network and the tensor backend.  Their results are uninterpreted functions
 * fixed when the environment is built; every call the core makes to them is
 * appended to `trace`, so call counts and call order can be stated.
 */
module Runtime {
  import opened Common
  import opened JsValues
  import opened WithGender

  /** The media handed to the pipeline: a `tf.Tensor`, or anything else (image, canvas, video, id). */
  datatype NetInput = TensorInput(tensor: Tensor) | MediaInput(element: nat)

  /** One extracted face: a tensor crop or a canvas crop. */
  datatype Crop = TensorCrop(tensor: Tensor) | CanvasCrop(canvas: nat)

  /** What `ageGenderNet.predictAgeAndGender` resolves to for one face. */
  datatype AgeAndGenderPrediction = AgeAndGenderPrediction(age: JsNumber, gender: Gender, genderProbability: JsNumber)

  /** One observable call made by the core. */
  datatype Event =
    | ExtractFacesCalled(input: NetInput, regions: seq<Value>)
    | ExtractFaceTensorsCalled(input: NetInput, regions: seq<Value>)
    | ComputeResultsCalled(faces: seq<Crop>)
    /** `ageGenderNet.predictAgeAndGender(face)`; `None` is an `undefined` face. */
    | Predicted(face: Option<Crop>)
    | Disposed(tensor: Tensor)

  /** A result together with the calls made while computing it, oldest first. */
  datatype Observed<+R> = Observed(result: Result<R, Error>, events: seq<Event>)

  class Environment {
    /** Every call made so far, oldest first. */
    var trace: seq<Event>

    /** `extractFaces(input, boxes)`: canvas crops drawn from displayable media. */
    const extractFaces: (NetInput, seq<Value>) -> Result<seq<Crop>, Error>
    /** `extractFaceTensors(input, boxes)`: tensor crops sliced from a tensor. */
    const extractFaceTensors: (NetInput, seq<Value>) -> Result<seq<Crop>, Error>
    /**
     * `nets.ageGenderNet.predictAgeAndGender(face)`; `None` stands for the
     * `undefined` a caller passes when a crop list has no first element.
     */
    const predictAgeAndGender: Option<Crop> -> Result<AgeAndGenderPrediction, Error>

    constructor (
      extractFaces: (NetInput, seq<Value>) -> Result<seq<Crop>, Error>,
      extractFaceTensors: (NetInput, seq<Value>) -> Result<seq<Crop>, Error>,
      predictAgeAndGender: Option<Crop> -> Result<AgeAndGenderPrediction, Error>)
      ensures trace == []
      ensures this.extractFaces == extractFaces
      ensures this.extractFaceTensors == extractFaceTensors
      ensures this.predictAgeAndGender == predictAgeAndGender
    {
      trace := [];
      this.extractFaces := extractFaces;
      this.extractFaceTensors := extractFaceTensors;
      this.predictAgeAndGender := predictAgeAndGender;
    }

    /** `tensor.dispose()`. */
    method Dispose(t: Tensor)
      modifies this
      ensures trace == old(trace) + [Disposed(t)]
    {
      trace := trace + [Disposed(t)];
    }

    /** Awaiting `extractFaces(input, regions)`. */
    method ExtractFaces(input: NetInput, regions: seq<Value>) returns (r: Result<seq<Crop>, Error>)
      modifies this
      ensures r == extractFaces(input, regions)
      ensures trace == old(trace) + [ExtractFacesCalled(input, regions)]
    {
      trace := trace + [ExtractFacesCalled(input, regions)];
      r := extractFaces(input, regions);
    }

    /** Awaiting `extractFaceTensors(input, regions)`. */
    method ExtractFaceTensors(input: NetInput, regions: seq<Value>) returns (r: Result<seq<Crop>, Error>)
      modifies this
      ensures r == extractFaceTensors(input, regions)
      ensures trace == old(trace) + [ExtractFaceTensorsCalled(input, regions)]
    {
      trace := trace + [ExtractFaceTensorsCalled(input, regions)];
      r := extractFaceTensors(input, regions);
    }

    /**
     * Awaiting a caller-supplied `computeResults(faces)`: the call, then the
     * calls the callback itself makes.
     */
    method ComputeResults<R>(computeResults: seq<Crop> -> Observed<R>, faces: seq<Crop>) returns (r: Result<R, Error>)
      modifies this
      ensures r == computeResults(faces).result
      ensures trace == old(trace) + [ComputeResultsCalled(faces)] + computeResults(faces).events
    {
      var computed := computeResults(faces);
      trace := trace + [ComputeResultsCalled(faces)] + computed.events;
      r := computed.result;
    }
  }
}
