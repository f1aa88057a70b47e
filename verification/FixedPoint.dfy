/** Gain and percentage conversions through rounded 32-bit floats. */
module FixedPoint {
  /** A float argument; every other value in these conversions is finite. */
  datatype F32 = NaN | NegInf | PosInf | Finite(v: real)

  const FULL_SCALE := 16383
  const ULP := 1.0 / 16777216.0

  /** Rounding to nearest, as seen here: an error of at most 2^-24 relative to the result,
      or to 1 for results below it. This covers subnormal results too. */
  ghost predicate RoundsWell(fl: real -> real) {
    forall x :: 0.0 <= x <= 16384.0 ==> -(x + 1.0) * ULP <= fl(x) - x <= (x + 1.0) * ULP
  }

  ghost predicate Monotone(fl: real -> real) {
    forall x, y :: x <= y ==> fl(x) <= fl(y)
  }

  predicate NoMoreThan(a: F32, b: F32) {
    match (a, b)
    case (NaN, _) => false
    case (_, NaN) => false
    case (NegInf, _) => true
    case (_, PosInf) => true
    case (Finite(x), Finite(y)) => x <= y
    case _ => false
  }

  /** `clamp(0.0, 1.0)`. */
  function ClampUnit(a: F32): (r: F32)
    ensures r == NaN || (r.Finite? && 0.0 <= r.v <= 1.0)
  {
    match a
    case NaN => NaN
    case NegInf => Finite(0.0)
    case PosInf => Finite(1.0)
    case Finite(v) => Finite(if v < 0.0 then 0.0 else if v > 1.0 then 1.0 else v)
  }

  /** `round()` of a non-negative number: halves go up. */
  function Round(x: real): int {
    (x + 0.5).Floor
  }

  /** `as u16` saturates, and sends NaN to zero. */
  function Saturate(n: int, max: nat): (r: nat)
    ensures r <= max && (0 <= n <= max ==> r == n)
  {
    if n < 0 then 0 else if n > max then max else n
  }

  function Min(a: nat, b: nat): nat {
    if a < b then a else b
  }

  function GainToU16(fl: real -> real, gain: F32): nat {
    match ClampUnit(gain)
    case Finite(v) => Min(Saturate(Round(fl(16383.0 * v)), 65535), FULL_SCALE)
    case _ => 0
  }

  function GainFromU16(fl: real -> real, raw: nat): real {
    fl(Min(raw, FULL_SCALE) as real / 16383.0)
  }

  function UnitToPercent(fl: real -> real, volume: F32): nat {
    match ClampUnit(volume)
    case Finite(v) => Saturate(Round(fl(v * 100.0)), 0xFFFF_FFFF)
    case _ => 0
  }

  function PercentToUnit(fl: real -> real, percent: nat): real {
    fl(Min(percent, 100) as real / 100.0)
  }

  lemma RoundNear(x: real, n: int)
    requires n as real - 0.5 < x < n as real + 0.5
    ensures Round(x) == n
  {
  }

  lemma {:induction false} Near(fl: real -> real, x: real)
    requires RoundsWell(fl) && 0.0 <= x <= 16383.0
    ensures -0.001 < fl(x) - x < 0.001
    ensures x <= 1.0 ==> -2.0 * ULP <= fl(x) - x <= 2.0 * ULP
  {
  }

  lemma {:induction false} NearInteger(fl: real -> real, x: real, n: nat)
    requires RoundsWell(fl) && 0.0 <= x <= 16383.0 && -0.002 < x - n as real < 0.002
    ensures Round(fl(x)) == n
  {
    Near(fl, x);
    RoundNear(fl(x), n);
  }

  /** The two roundings together stay far from the next integer: a gain read back from its
      encoding encodes to the same value, full scale at most. */
  lemma {:induction false} GainRoundTrip(fl: real -> real, raw: nat)
    requires RoundsWell(fl)
    ensures GainToU16(fl, Finite(GainFromU16(fl, raw))) == if raw <= 0x3FFF then raw else 0x3FFF
  {
    var n := Min(raw, FULL_SCALE);
    var exact := n as real / 16383.0;
    Near(fl, exact);
    var v := ClampUnit(Finite(fl(exact))).v;
    NearInteger(fl, 16383.0 * v, n);
  }

  lemma {:induction false} PercentRoundTrip(fl: real -> real, percent: nat)
    requires RoundsWell(fl)
    ensures UnitToPercent(fl, Finite(PercentToUnit(fl, percent))) == if percent <= 100 then percent else 100
  {
    var n := Min(percent, 100);
    var exact := n as real / 100.0;
    Near(fl, exact);
    var v := ClampUnit(Finite(fl(exact))).v;
    NearInteger(fl, v * 100.0, n);
  }

  /** What is read is the fraction of full scale to within two roundings, and what is written the
      nearest step of it, to within a thousandth more than half. */
  lemma {:induction false} ConversionsAreClose(fl: real -> real, raw: nat, percent: nat, v: real)
    requires RoundsWell(fl) && raw <= 0x3FFF && percent <= 100 && 0.0 <= v <= 1.0
    ensures -2.0 * ULP <= GainFromU16(fl, raw) - raw as real / 16383.0 <= 2.0 * ULP
    ensures -2.0 * ULP <= PercentToUnit(fl, percent) - percent as real / 100.0 <= 2.0 * ULP
    ensures -0.501 <= GainToU16(fl, Finite(v)) as real - v * 16383.0 <= 0.501
    ensures -0.501 <= UnitToPercent(fl, Finite(v)) as real - v * 100.0 <= 0.501
    ensures forall more :: more >= 0x3FFF ==> GainFromU16(fl, more) == GainFromU16(fl, 0x3FFF)
    ensures forall more :: more >= 100 ==> PercentToUnit(fl, more) == PercentToUnit(fl, 100)
  {
    Near(fl, raw as real / 16383.0);
    Near(fl, percent as real / 100.0);
    Near(fl, 16383.0 * v);
    Near(fl, v * 100.0);
  }

  /** Louder in, no quieter out. */
  lemma {:induction false} ConversionsAreMonotone(fl: real -> real, a: F32, b: F32)
    requires Monotone(fl) && NoMoreThan(a, b)
    ensures GainToU16(fl, a) <= GainToU16(fl, b) && UnitToPercent(fl, a) <= UnitToPercent(fl, b)
  {
    var x, y := ClampUnit(a).v, ClampUnit(b).v;
    assert fl(16383.0 * x) <= fl(16383.0 * y);
    assert fl(x * 100.0) <= fl(y * 100.0);
  }

  /** NaN is silent, and both ends are reached and never passed. */
  lemma {:induction false} ConversionsClamp(fl: real -> real, a: F32)
    requires RoundsWell(fl)
    ensures GainToU16(fl, a) <= 0x3FFF && UnitToPercent(fl, a) <= 100
    ensures a == NaN || NoMoreThan(a, Finite(0.0)) ==> GainToU16(fl, a) == 0 && UnitToPercent(fl, a) == 0
    ensures NoMoreThan(Finite(1.0), a) ==> GainToU16(fl, a) == 0x3FFF && UnitToPercent(fl, a) == 100
  {
    if a != NaN {
      var v := ClampUnit(a).v;
      Near(fl, 16383.0 * v);
      Near(fl, v * 100.0);
    }
  }
}
