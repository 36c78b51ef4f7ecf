/** The landmark capability of a face result (src/factories/WithFaceLandmarks.ts). */
module WithFaceLandmarks {
  import opened Geometry
  import opened JsValues
  import opened WithFaceDetection

  const LANDMARKS: string := "landmarks"
  const UNSHIFTED_LANDMARKS: string := "unshiftedLandmarks"
  const ALIGNED_RECT: string := "alignedRect"

  /** `isWithFaceLandmarks`: a non-null object whose `landmarks` is a `FaceLandmarks`. */
  predicate IsWithFaceLandmarks(obj: Value): (b: bool)
    ensures b <==> obj.Record? && LANDMARKS in obj.props && obj.props[LANDMARKS].Landmarks?
  {
    IsNonNullObject(obj) && Get(obj, LANDMARKS).Landmarks?
  }

  /** The landmarks moved from box-relative to image coordinates by the detection box's corner. */
  function ShiftedLandmarks(detection: FaceDetection, unshiftedLandmarks: FaceLandmarks, geo: GeometryOps): FaceLandmarks {
    var shift := geo.box(detection);
    geo.shiftBy(unshiftedLandmarks, shift.x, shift.y)
  }

  /**
   * The detection built for the aligned crop: the source detection's score and
   * image size, and the alignment box of the shifted landmarks rescaled by the
   * reversed image size.
   */
  function AlignedRect(detection: FaceDetection, landmarks: FaceLandmarks, geo: GeometryOps): FaceDetection {
    var rect := geo.align(landmarks);
    FaceDetection(detection.score, geo.rescale(rect, geo.reverse(detection.imageDims)), detection.imageDims)
  }

  /**
   * `extendWithFaceLandmarks`: a copy of the source with the shifted landmarks,
   * the raw landmarks and the aligned rectangle attached.  The source's type
   * guarantees it carries a `FaceDetection`.
   */
  function ExtendWithFaceLandmarks(source: Props, unshiftedLandmarks: FaceLandmarks, geo: GeometryOps): (r: Props)
    requires IsWithFaceDetection(Record(source))
    ensures r.Keys == source.Keys + {LANDMARKS, UNSHIFTED_LANDMARKS, ALIGNED_RECT}
    ensures var detection := source[DETECTION].detection;
            var shift := geo.box(detection);
            var landmarks := geo.shiftBy(unshiftedLandmarks, shift.x, shift.y);
            && r[LANDMARKS] == Landmarks(landmarks)
            && r[UNSHIFTED_LANDMARKS] == Landmarks(unshiftedLandmarks)
            && r[ALIGNED_RECT] == Detection(FaceDetection(
                 detection.score,
                 geo.rescale(geo.align(landmarks), geo.reverse(detection.imageDims)),
                 detection.imageDims))
    ensures forall k :: k in source && k != LANDMARKS && k != UNSHIFTED_LANDMARKS && k != ALIGNED_RECT ==>
              r[k] == source[k]
  {
    var detection := source[DETECTION].detection;
    var landmarks := ShiftedLandmarks(detection, unshiftedLandmarks, geo);
    var extension := map[
      LANDMARKS := Landmarks(landmarks),
      UNSHIFTED_LANDMARKS := Landmarks(unshiftedLandmarks),
      ALIGNED_RECT := Detection(AlignedRect(detection, landmarks, geo))];
    Assign(source, extension)
  }

  /**
   * The extended object has both capabilities: it keeps the source's detection
   * untouched, and its aligned rectangle carries that detection's score and
   * image size.
   */
  lemma ExtendWithFaceLandmarksCapabilities(source: Props, unshiftedLandmarks: FaceLandmarks, geo: GeometryOps)
    requires IsWithFaceDetection(Record(source))
    ensures var r := ExtendWithFaceLandmarks(source, unshiftedLandmarks, geo);
            && IsWithFaceLandmarks(Record(r))
            && IsWithFaceDetection(Record(r))
            && r[DETECTION] == source[DETECTION]
            && r[ALIGNED_RECT].Detection?
            && r[ALIGNED_RECT].detection.score == source[DETECTION].detection.score
            && r[ALIGNED_RECT].detection.imageDims == source[DETECTION].detection.imageDims
  {
  }
}
