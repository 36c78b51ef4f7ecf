/** The `detection` capability of a face result (src/factories/WithFaceDetection.ts). */
module WithFaceDetection {
  import opened Geometry
  import opened JsValues

  const DETECTION: string := "detection"

  /** `isWithFaceDetection`: a non-null object whose `detection` is a `FaceDetection`. */
  predicate IsWithFaceDetection(obj: Value): (b: bool)
    ensures b <==> obj.Record? && DETECTION in obj.props && obj.props[DETECTION].Detection?
  {
    IsNonNullObject(obj) && Get(obj, DETECTION).Detection?
  }

  /** `extendWithFaceDetection`: a copy of the source with `detection` set (an old one is overwritten). */
  function ExtendWithFaceDetection(source: Props, detection: FaceDetection): (r: Props)
    ensures r.Keys == source.Keys + {DETECTION}
    ensures r[DETECTION] == Detection(detection)
    ensures forall k :: k in source && k != DETECTION ==> r[k] == source[k]
  {
    Assign(source, map[DETECTION := Detection(detection)])
  }

  /** Extending any object makes it satisfy `isWithFaceDetection`. */
  lemma ExtendWithFaceDetectionIsWithFaceDetection(source: Props, detection: FaceDetection)
    ensures IsWithFaceDetection(Record(ExtendWithFaceDetection(source, detection)))
  {
  }
}
