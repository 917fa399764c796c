/**
 * The per-iteration locals shared by the loops of EyeTracker/main.cpp and
 * src/main.cpp: two eyelid values and four gaze angles, declared without an
 * initialiser at the top of every iteration and assigned only when the
 * corresponding data is valid.
 */
module EyeLocals {
  import opened Wrappers
  import opened OpenXr
  import opened Orientation

  /** `None` for a local the iteration did not assign. */
  datatype Locals = Locals(
    closedL: Option<real>, closedR: Option<real>,
    leftPitch: Option<real>, leftYaw: Option<real>,
    rightPitch: Option<real>, rightYaw: Option<real>)

  const EyesClosedAmountAddress: string := "/tracking/eye/EyesClosedAmount"
  const PitchYawAddress: string := "/tracking/eye/LeftRightPitchYaw"

  /**
   * One value per local. As an input (`junk`) it is whatever the
   * uninitialised locals happen to hold; as the result of `ReadLocals` it is
   * what the bundle reads from them.
   */
  datatype LocalValues = LocalValues(
    closedL: real, closedR: real,
    leftPitch: real, leftYaw: real,
    rightPitch: real, rightYaw: real)

  /** The value of each local: what was assigned, else the indeterminate content. */
  function ReadLocals(l: Locals, junk: LocalValues): LocalValues {
    LocalValues(
      l.closedL.GetOr(junk.closedL), l.closedR.GetOr(junk.closedR),
      l.leftPitch.GetOr(junk.leftPitch), l.leftYaw.GetOr(junk.leftYaw),
      l.rightPitch.GetOr(junk.rightPitch), l.rightYaw.GetOr(junk.rightYaw))
  }

  /** What the runtime and the stack hand to one iteration. */
  datatype TickInput = TickInput(gazes: EyeGazes, expr: FaceExpressionWeights, junk: LocalValues)

  /** Specification of the gating: what one iteration assigns to its locals. */
  function AssignedLocals(gazes: EyeGazes, expr: FaceExpressionWeights, trig: Trig): Locals {
    var l := Euler(gazes.left.orientation, trig);
    var r := Euler(gazes.right.orientation, trig);
    var gaze := gazes.left.isValid;
    Locals(
      if expr.isValid then Some(expr.weights[EyesClosedL]) else None,
      if expr.isValid then Some(expr.weights[EyesClosedR]) else None,
      if gaze then Some(NegatedDegrees(l.x)) else None,
      if gaze then Some(NegatedDegrees(l.y)) else None,
      if gaze then Some(NegatedDegrees(r.x)) else None,
      if gaze then Some(NegatedDegrees(r.y)) else None)
  }

  /**
   * The two `if` blocks of the loop body: the gaze block and then the face
   * block, each assigning its locals only when its validity flag is set.
   */
  method AssignLocals(gazes: EyeGazes, expr: FaceExpressionWeights, trig: Trig) returns (locals: Locals)
    ensures locals == AssignedLocals(gazes, expr, trig)
  {
    var closedL: Option<real>, closedR: Option<real> := None, None;
    var leftPitch: Option<real>, leftYaw: Option<real> := None, None;
    var rightPitch: Option<real>, rightYaw: Option<real> := None, None;
    if gazes.left.isValid {
      var orientationL := Euler(gazes.left.orientation, trig);
      var orientationR := Euler(gazes.right.orientation, trig);
      leftPitch := Some(NegatedDegrees(orientationL.x));
      leftYaw := Some(NegatedDegrees(orientationL.y));
      rightPitch := Some(NegatedDegrees(orientationR.x));
      rightYaw := Some(NegatedDegrees(orientationR.y));
    }
    if expr.isValid {
      closedL := Some(expr.weights[EyesClosedL]);
      closedR := Some(expr.weights[EyesClosedR]);
    }
    locals := Locals(closedL, closedR, leftPitch, leftYaw, rightPitch, rightYaw);
  }

  /** The four angles are assigned exactly when the LEFT gaze is valid. */
  lemma GazeGating(gazes: EyeGazes, expr: FaceExpressionWeights, trig: Trig)
    ensures AssignedLocals(gazes, expr, trig).leftPitch.Some? <==> gazes.left.isValid
    ensures AssignedLocals(gazes, expr, trig).leftYaw.Some? <==> gazes.left.isValid
    ensures AssignedLocals(gazes, expr, trig).rightPitch.Some? <==> gazes.left.isValid
    ensures AssignedLocals(gazes, expr, trig).rightYaw.Some? <==> gazes.left.isValid
  {
  }

  /**
   * The right gaze's own validity flag is never consulted: flipping it
   * changes nothing, although the right orientation is used.
   */
  lemma RightValidityIgnored(gazes: EyeGazes, expr: FaceExpressionWeights, trig: Trig, flag: bool)
    ensures AssignedLocals(EyeGazes(gazes.left, EyeGaze(flag, gazes.right.orientation)), expr, trig)
         == AssignedLocals(gazes, expr, trig)
  {
  }

  /** Each assigned angle is the negated `euler` component in degrees, pitch from x and yaw from y. */
  lemma AnglesAreNegatedDegrees(gazes: EyeGazes, expr: FaceExpressionWeights, trig: Trig)
    requires gazes.left.isValid
    ensures AssignedLocals(gazes, expr, trig).leftPitch == Some(-Euler(gazes.left.orientation, trig).x / PI * 180.0)
    ensures AssignedLocals(gazes, expr, trig).leftYaw == Some(-Euler(gazes.left.orientation, trig).y / PI * 180.0)
    ensures AssignedLocals(gazes, expr, trig).rightPitch == Some(-Euler(gazes.right.orientation, trig).x / PI * 180.0)
    ensures AssignedLocals(gazes, expr, trig).rightYaw == Some(-Euler(gazes.right.orientation, trig).y / PI * 180.0)
  {
  }

  /**
   * The eyelid values are assigned exactly when the expression status is
   * valid, from the EYES_CLOSED_L and EYES_CLOSED_R weights; the gaze data
   * has no influence on them.
   */
  lemma EyelidGating(gazes: EyeGazes, expr: FaceExpressionWeights, trig: Trig)
    ensures AssignedLocals(gazes, expr, trig).closedL.Some? <==> expr.isValid
    ensures AssignedLocals(gazes, expr, trig).closedR.Some? <==> expr.isValid
    ensures expr.isValid ==> AssignedLocals(gazes, expr, trig).closedL == Some(expr.weights[12])
    ensures expr.isValid ==> AssignedLocals(gazes, expr, trig).closedR == Some(expr.weights[13])
  {
  }

  /**
   * With the identity orientation in both eyes, a valid left gaze and the
   * usual atan2(0, 1) = asin(0) = 0, all four angles are 0.
   */
  lemma IdentityGazeZero(expr: FaceExpressionWeights, trig: Trig, rightValid: bool)
    requires trig.atan2(0.0, 1.0) == 0.0 && trig.asin(0.0) == 0.0
    ensures AssignedLocals(IdentityGazes(rightValid), expr, trig).leftPitch == Some(0.0)
    ensures AssignedLocals(IdentityGazes(rightValid), expr, trig).leftYaw == Some(0.0)
    ensures AssignedLocals(IdentityGazes(rightValid), expr, trig).rightPitch == Some(0.0)
    ensures AssignedLocals(IdentityGazes(rightValid), expr, trig).rightYaw == Some(0.0)
  {
  }

  /** Both eyes at the identity orientation, the left gaze valid. */
  function IdentityGazes(rightValid: bool): EyeGazes {
    var id := Quaternion(0.0, 0.0, 0.0, 1.0);
    EyeGazes(EyeGaze(true, id), EyeGaze(rightValid, id))
  }
}
