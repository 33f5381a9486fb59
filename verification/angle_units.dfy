/** The two angle-unit conversions of cs336util.js (`toRadians`, `toDegrees`).
    Arithmetic is over the reals: IEEE-754 rounding is not modelled, so the
    round trips below hold exactly here but only approximately in JavaScript. */
module AngleUnits {

  /** `Math.PI`: the exact value of the IEEE-754 double nearest to pi. */
  const PI: real := 3.141592653589793115997963468544185161590576171875

  /** Records the bound on the modelled `Math.PI`, in particular that it is
      positive, which the sign clauses of `ToRadians` and `ToDegrees` and the
      monotonicity lemma depend on. */
  lemma PiIsPositive()
    ensures 3.14 < PI < 3.15
  {}

  /** `toRadians(degrees)`: `degrees * Math.PI / 180`. */
  function ToRadians(degrees: real): (radians: real)
    ensures radians > 0.0 <==> degrees > 0.0
    ensures radians < 0.0 <==> degrees < 0.0
    ensures radians * 180.0 == degrees * PI
  {
    degrees * PI / 180.0
  }

  /** `toDegrees(radians)`: `radians * 180 / Math.PI`. */
  function ToDegrees(radians: real): (degrees: real)
    ensures degrees > 0.0 <==> radians > 0.0
    ensures degrees < 0.0 <==> radians < 0.0
    ensures degrees * PI == radians * 180.0
  {
    radians * 180.0 / PI
  }

  lemma DegreesRoundTrip(degrees: real)
    ensures ToDegrees(ToRadians(degrees)) == degrees
  {}

  lemma RadiansRoundTrip(radians: real)
    ensures ToRadians(ToDegrees(radians)) == radians
  {}

  /** A straight angle is 180 degrees and pi radians. */
  lemma StraightAngle()
    ensures ToRadians(180.0) == PI
    ensures ToDegrees(PI) == 180.0
  {}

  /** Both conversions are linear maps: they fix zero, respect sums and scaling. */
  lemma ToRadiansLinear(a: real, b: real, k: real)
    ensures ToRadians(0.0) == 0.0
    ensures ToRadians(a + b) == ToRadians(a) + ToRadians(b)
    ensures ToRadians(k * a) == k * ToRadians(a)
  {}

  lemma ToDegreesLinear(a: real, b: real, k: real)
    ensures ToDegrees(0.0) == 0.0
    ensures ToDegrees(a + b) == ToDegrees(a) + ToDegrees(b)
    ensures ToDegrees(k * a) == k * ToDegrees(a)
  {}

  /** Both conversions are strictly increasing, hence injective. */
  lemma ConversionsStrictlyIncreasing(a: real, b: real)
    ensures a < b <==> ToRadians(a) < ToRadians(b)
    ensures a < b <==> ToDegrees(a) < ToDegrees(b)
  {}
}
