/**
 * The slice of JavaScript's value model the core relies on: truthiness,
 * `typeof`, `instanceof` for the library's own result classes, property
 * reads, `Object.assign({}, source, extension)`, and errors thrown with a
 * template-literal message.
 */
module JsValues {
  import opened Common
  import opened Geometry

  /** A JavaScript number. */
  datatype JsNumber = Finite(r: real) | NaN | Infinity(negative: bool)

  /** A `tf.Tensor`, identified by its object identity. */
  datatype Tensor = Tensor(id: nat)

  datatype Value =
    | Undefined
    | Null
    | Boolean(b: bool)
    | Number(n: JsNumber)
    | String(s: string)
    | Function(fid: nat)
    /** A plain object and its own enumerable properties. */
    | Record(props: map<string, Value>)
    /** An instance of `FaceDetection`. */
    | Detection(detection: FaceDetection)
    /** An instance of `FaceLandmarks` (or one of its subclasses). */
    | Landmarks(landmarks: FaceLandmarks)
    /** An instance of `FaceExpressions`. */
    | Expressions(expressions: FaceExpressions)
    /** An instance of `tf.Tensor`. */
    | TensorObject(tensor: Tensor)

  /** The own properties of a plain result object. */
  type Props = map<string, Value>

  /** One piece of a template-literal message: literal text or an interpolated value. */
  datatype Segment = Text(text: string) | Interpolated(value: Value)

  datatype Error =
    /** `throw new Error(message)` where the message is a template literal. */
    | Thrown(message: seq<Segment>)
    /** The engine's `TypeError`, e.g. reading a property of `undefined`. */
    | TypeError

  /** What an assertion helper does: return normally or throw. */
  datatype Outcome = Pass | Fail(error: Error)

  /** JavaScript's `ToBoolean`. */
  predicate Truthy(v: Value) {
    match v
    case Undefined => false
    case Null => false
    case Boolean(b) => b
    case Number(n) => n != NaN && n != Finite(0.0)
    case String(s) => s != ""
    case _ => true
  }

  /** JavaScript's `typeof`. */
  function TypeOf(v: Value): string {
    match v
    case Undefined => "undefined"
    case Null => "object"
    case Boolean(_) => "boolean"
    case Number(_) => "number"
    case String(_) => "string"
    case Function(_) => "function"
    case _ => "object"
  }

  /** `!!(obj && typeof obj === 'object')`: exactly the non-function objects. */
  predicate IsNonNullObject(v: Value)
    ensures IsNonNullObject(v) <==>
      v.Record? || v.Detection? || v.Landmarks? || v.Expressions? || v.TensorObject?
  {
    Truthy(v) && TypeOf(v) == "object"
  }

  /**
   * Reading `v[key]` on a value that is not `null` or `undefined`, as an own
   * property of a plain object.  Getters of the library's classes (`score`
   * and `classScore` of a detection, `label` of a box) are not modelled, so
   * such reads on class instances yield `undefined` here.
   */
  function Get(v: Value, key: string): Value {
    if v.Record? && key in v.props then v.props[key] else Undefined
  }

  /** Reading `v[key]` on any value: `null` and `undefined` throw a `TypeError`. */
  function ReadProperty(v: Value, key: string): (r: Result<Value, Error>)
    ensures r.Err? <==> v.Undefined? || v.Null?
    ensures r.Err? ==> r.error == TypeError
    ensures r.Ok? ==> r.value == Get(v, key)
  {
    if v.Undefined? || v.Null? then Err(TypeError) else Ok(Get(v, key))
  }

  /**
   * `Object.assign({}, source, extension)`: a fresh object holding the source's
   * properties, overwritten and extended by the extension's.
   */
  function Assign(source: Props, extension: Props): (r: Props)
    ensures r.Keys == source.Keys + extension.Keys
    ensures forall k :: k in extension ==> r[k] == extension[k]
    ensures forall k :: k in source && k !in extension ==> r[k] == source[k]
  {
    source + extension
  }
}
