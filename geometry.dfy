/**
 * The geometric value types the orchestration layer passes around.  Their
 * arithmetic lives in classes that are not part of this model, so every
 * operation on them is reached through `GeometryOps`, a bundle of
 * uninterpreted functions supplied by the caller.
 */
module Geometry {

  datatype Point = Point(x: real, y: real)

  datatype Box = Box(x: real, y: real, width: real, height: real)

  datatype Dimensions = Dimensions(width: real, height: real)

  /** The arguments a `FaceDetection` is constructed from: score, relative box, image size. */
  datatype FaceDetection = FaceDetection(score: real, relativeBox: Box, imageDims: Dimensions)

  /** A landmark set; its points are never inspected by the orchestration layer. */
  datatype FaceLandmarks = FaceLandmarks(positions: seq<Point>, imageDims: Dimensions)

  /** The expression probabilities of one face; opaque here. */
  datatype FaceExpressions = FaceExpressions(probabilities: seq<real>)

  /**
   * The geometry operations the factories call:
   * - `box`:     the `FaceDetection.box` getter (the detection box in image coordinates)
   * - `shiftBy`: `FaceLandmarks.shiftBy(x, y)`
   * - `align`:   `FaceLandmarks.align()`
   * - `rescale`: `Box.rescale(dims)`
   * - `reverse`: `Dimensions.reverse()`
   */
  datatype GeometryOps = GeometryOps(
    box: FaceDetection -> Box,
    shiftBy: (FaceLandmarks, real, real) -> FaceLandmarks,
    align: FaceLandmarks -> Box,
    rescale: (Box, Dimensions) -> Box,
    reverse: Dimensions -> Dimensions)
}
