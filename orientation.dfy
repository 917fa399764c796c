/**
 * `euler`: decomposes a gaze quaternion into three angles, switching to a
 * gimbal-lock formula when |sy| reaches 0.99999. The trigonometric functions
 * are not interpreted: they are supplied as a `Trig` record, so every
 * statement here holds for any atan2 and asin.
 */
module Orientation {
  import opened OpenXr

  /** `const float PI` of the two eye-tracking programs. */
  const PI: real := 3.14159265358979

  /** The gimbal-lock threshold `0.99999f`. */
  const LockThreshold: real := 0.99999

  /** XrVector3f */
  datatype Vector3 = Vector3(x: real, y: real, z: real)

  /** std::atan2 and std::asin, left uninterpreted. */
  datatype Trig = Trig(atan2: (real, real) -> real, asin: real -> real)

  function Abs(r: real): real {
    if r < 0.0 then -r else r
  }

  /** The quantity `sy`, polynomial in the quaternion. */
  function Sy(q: Quaternion): real {
    2.0 * q.x * q.z + 2.0 * q.y * q.w
  }

  /** The `unlocked` flag of `euler`. */
  predicate Unlocked(q: Quaternion) {
    Abs(Sy(q)) < LockThreshold
  }

  /** Arguments of atan2 for the first component away from gimbal lock. */
  function UnlockedPitchArgs(q: Quaternion): (real, real) {
    (-(2.0 * q.y * q.z - 2.0 * q.x * q.w), 2.0 * q.w * q.w + 2.0 * q.z * q.z - 1.0)
  }

  /** Arguments of atan2 for the first component in gimbal lock. */
  function LockedPitchArgs(q: Quaternion): (real, real) {
    (2.0 * q.y * q.z + 2.0 * q.x * q.w, 2.0 * q.w * q.w + 2.0 * q.y * q.y - 1.0)
  }

  /** Arguments of atan2 for the third component away from gimbal lock. */
  function RollArgs(q: Quaternion): (real, real) {
    (-(2.0 * q.x * q.y - 2.0 * q.z * q.w), 2.0 * q.w * q.w + 2.0 * q.x * q.x - 1.0)
  }

  /** `euler(q)` */
  function Euler(q: Quaternion, trig: Trig): Vector3 {
    var sy := Sy(q);
    var unlocked := Unlocked(q);
    var (pu0, pu1) := UnlockedPitchArgs(q);
    var (pl0, pl1) := LockedPitchArgs(q);
    var (r0, r1) := RollArgs(q);
    Vector3(
      if unlocked then trig.atan2(pu0, pu1) else trig.atan2(pl0, pl1),
      trig.asin(sy),
      if unlocked then trig.atan2(r0, r1) else 0.0)
  }

  /** `-angle / PI * 180`: the sign flip and radian-to-degree conversion of the callers. */
  function NegatedDegrees(angle: real): real {
    -angle / PI * 180.0
  }

  /** The three components in terms of the named pieces: which formula each branch takes. */
  lemma EulerComponents(q: Quaternion, trig: Trig)
    ensures Euler(q, trig).y == trig.asin(Sy(q))
    ensures Unlocked(q) ==> Euler(q, trig).x == trig.atan2(UnlockedPitchArgs(q).0, UnlockedPitchArgs(q).1)
    ensures Unlocked(q) ==> Euler(q, trig).z == trig.atan2(RollArgs(q).0, RollArgs(q).1)
    ensures !Unlocked(q) ==> Euler(q, trig).x == trig.atan2(LockedPitchArgs(q).0, LockedPitchArgs(q).1)
    ensures !Unlocked(q) ==> Euler(q, trig).z == 0.0
  {
  }

  /**
   * In gimbal lock the two pitch formulas are fed different arguments: equal
   * arguments force y = z = 0, hence sy = 0, which is not locked.
   */
  lemma LockedArgsDiffer(q: Quaternion)
    requires !Unlocked(q)
    ensures LockedPitchArgs(q) != UnlockedPitchArgs(q)
  {
  }

  /**
   * The first component is the non-degenerate atan2 formula for every choice
   * of atan2 and asin exactly when |sy| < 0.99999.
   */
  lemma PitchFormulaIffUnlocked(q: Quaternion)
    ensures Unlocked(q) <==>
      forall trig: Trig :: Euler(q, trig).x == trig.atan2(UnlockedPitchArgs(q).0, UnlockedPitchArgs(q).1)
  {
    if !Unlocked(q) {
      var u := UnlockedPitchArgs(q);
      var trig := Trig((a: real, b: real) => if (a, b) == u then 1.0 else 0.0, (s: real) => 0.0);
      LockedArgsDiffer(q);
      assert Euler(q, trig).x == trig.atan2(LockedPitchArgs(q).0, LockedPitchArgs(q).1) == 0.0;
      assert trig.atan2(u.0, u.1) == 1.0;
    }
  }

  /**
   * The third component is the non-degenerate atan2 formula for every choice
   * of atan2 exactly when |sy| < 0.99999; otherwise it is 0.
   */
  lemma RollFormulaIffUnlocked(q: Quaternion)
    ensures Unlocked(q) <==>
      forall trig: Trig :: Euler(q, trig).z == trig.atan2(RollArgs(q).0, RollArgs(q).1)
    ensures !Unlocked(q) ==> forall trig: Trig :: Euler(q, trig).z == 0.0
  {
    if !Unlocked(q) {
      var trig := Trig((a: real, b: real) => 1.0, (s: real) => 0.0);
      assert Euler(q, trig).z == 0.0 != trig.atan2(RollArgs(q).0, RollArgs(q).1);
    }
  }

  /** The identity orientation is not locked; each component is the formula at (0, 1) or asin(0). */
  lemma IdentityOrientation(trig: Trig)
    ensures Unlocked(Quaternion(0.0, 0.0, 0.0, 1.0))
    ensures Euler(Quaternion(0.0, 0.0, 0.0, 1.0), trig) == Vector3(trig.atan2(0.0, 1.0), trig.asin(0.0), trig.atan2(0.0, 1.0))
  {
  }
}
