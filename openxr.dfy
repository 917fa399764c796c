/**
 * The data the OpenXR runtime hands to the tracking loop each tick
 * (XR_FB_eye_tracking_social and XR_FB_face_tracking), reduced to the
 * fields the three programs read.
 */
module OpenXr {

  /** XR_FACE_EXPRESSION_COUNT_FB: size of the default face expression set. */
  const ExpressionCount: nat := 63
  /** XR_FACE_CONFIDENCE_COUNT_FB: lower and upper face confidence. */
  const ConfidenceCount: nat := 2
  /** XR_FACE_EXPRESSION_EYES_CLOSED_L_FB and XR_FACE_EXPRESSION_EYES_CLOSED_R_FB. */
  const EyesClosedL: nat := 12
  const EyesClosedR: nat := 13

  /** XrQuaternionf, with real components. */
  datatype Quaternion = Quaternion(x: real, y: real, z: real, w: real)

  /** One entry of XrEyeGazesFB::gaze: the validity flag and the pose orientation. */
  datatype EyeGaze = EyeGaze(isValid: bool, orientation: Quaternion)

  /** XrEyeGazesFB: the gaze of XR_EYE_POSITION_LEFT_FB and XR_EYE_POSITION_RIGHT_FB. */
  datatype EyeGazes = EyeGazes(left: EyeGaze, right: EyeGaze)

  /** The fixed-size `float weights[XR_FACE_EXPRESSION_COUNT_FB]` buffer. */
  type WeightVector = s: seq<real> | |s| == ExpressionCount
    witness seq(ExpressionCount, _ => 0.0)

  /** The fixed-size `float confidences[XR_FACE_CONFIDENCE_COUNT_FB]` buffer. */
  type ConfidenceVector = s: seq<real> | |s| == ConfidenceCount
    witness seq(ConfidenceCount, _ => 0.0)

  /**
   * XrFaceExpressionWeightsFB after xrGetFaceExpressionWeightsFB: the two
   * buffers it fills and `status.isValid`, which covers the whole vector.
   */
  datatype FaceExpressionWeights = FaceExpressionWeights(
    weights: WeightVector,
    confidences: ConfidenceVector,
    isValid: bool)
}
