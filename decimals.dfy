/**
 * Arbitrary-precision decimals in the style of `java.math.BigDecimal`: a value is an exact
 * rational (`real`) and `SetScale` rounds it to a given number of fraction digits.
 */
module Decimals {

  /** The rounding modes of `java.math.RoundingMode` except UNNECESSARY. */
  datatype RoundingMode = Up | Down | Ceiling | Floor | HalfUp | HalfDown | HalfEven

  function Pow10(n: nat): (p: int)
    ensures p >= 1
  {
    if n == 0 then 1 else 10 * Pow10(n - 1)
  }

  /** The factor 10^scale; a negative scale rounds to tens, hundreds, ... */
  function Scaler(scale: int): (f: real)
    ensures f > 0.0
    ensures scale == 0 ==> f == 1.0
  {
    if scale >= 0 then Pow10(scale) as real else 1.0 / Pow10(-scale) as real
  }

  predicate IsIntegral(x: real) {
    x == x.Floor as real
  }

  function Abs(x: real): (a: real)
    ensures a >= 0.0 && (a == x || a == -x)
  {
    if x < 0.0 then -x else x
  }

  /** The integer `mode` rounds `x` to. */
  function RoundToInt(x: real, mode: RoundingMode): (n: int)
    ensures IsIntegral(x) ==> n as real == x
    ensures n as real - x < 1.0 && x - n as real < 1.0
    ensures mode == Floor ==> n as real <= x
    ensures mode == Ceiling ==> x <= n as real
    ensures mode == Down ==> Abs(n as real) <= Abs(x) && (0.0 <= x ==> 0 <= n) && (x <= 0.0 ==> n <= 0)
    ensures mode == Up ==> Abs(x) <= Abs(n as real) && (0.0 <= x ==> 0 <= n) && (x <= 0.0 ==> n <= 0)
    ensures mode in {HalfUp, HalfDown, HalfEven} ==>
      n as real - x <= 0.5 && x - n as real <= 0.5
  {
    var f := x.Floor;
    var exact := f as real == x;
    var frac := x - f as real;
    match mode
    case Floor => f
    case Ceiling => if exact then f else f + 1
    case Down => if exact || 0.0 <= x then f else f + 1
    case Up => if exact || x < 0.0 then f else f + 1
    case HalfUp =>
      if frac < 0.5 then f else if 0.5 < frac then f + 1
      else if 0.0 < x then f + 1 else f
    case HalfDown =>
      if frac < 0.5 then f else if 0.5 < frac then f + 1
      else if 0.0 < x then f else f + 1
    case HalfEven =>
      if frac < 0.5 then f else if 0.5 < frac then f + 1
      else if f % 2 == 0 then f else f + 1
  }

  /** On a tie HALF_UP rounds away from zero, HALF_DOWN toward zero, HALF_EVEN to the even neighbour. */
  lemma HalfTies(x: real)
    requires x - x.Floor as real == 0.5
    ensures Abs(x) <= Abs(RoundToInt(x, HalfUp) as real)
    ensures Abs(RoundToInt(x, HalfDown) as real) <= Abs(x)
    ensures RoundToInt(x, HalfEven) % 2 == 0
  {
  }

  /** Whether `v` needs at most `scale` fraction digits. */
  predicate HasScale(v: real, scale: int) {
    IsIntegral(v * Scaler(scale))
  }

  /** `v.setScale(scale, mode)`: `v` rounded by `mode` to a multiple of 10^-scale. */
  function SetScale(v: real, scale: int, mode: RoundingMode): real {
    RoundToInt(v * Scaler(scale), mode) as real / Scaler(scale)
  }

  lemma SetScaleUnscales(v: real, scale: int, mode: RoundingMode)
    ensures SetScale(v, scale, mode) * Scaler(scale) == RoundToInt(v * Scaler(scale), mode) as real
  {
    Unscale(RoundToInt(v * Scaler(scale), mode), v, Scaler(scale));
  }

  /** The result needs no more than `scale` fraction digits. */
  lemma SetScaleHasScale(v: real, scale: int, mode: RoundingMode)
    ensures HasScale(SetScale(v, scale, mode), scale)
  {
    SetScaleUnscales(v, scale, mode);
  }

  /** A value that already fits the scale is left alone, whatever the mode. */
  lemma SetScaleExact(v: real, scale: int, mode: RoundingMode)
    requires HasScale(v, scale)
    ensures SetScale(v, scale, mode) == v
  {
    Unscale(RoundToInt(v * Scaler(scale), mode), v, Scaler(scale));
  }

  /** The rounding error is below one unit of the last kept digit. */
  lemma SetScaleError(v: real, scale: int, mode: RoundingMode)
    ensures (SetScale(v, scale, mode) - v) * Scaler(scale) < 1.0
    ensures (v - SetScale(v, scale, mode)) * Scaler(scale) < 1.0
  {
    SetScaleUnscales(v, scale, mode);
    ErrorBound(SetScale(v, scale, mode), v, Scaler(scale), RoundToInt(v * Scaler(scale), mode) as real);
  }

  lemma ErrorBound(r: real, v: real, f: real, n: real)
    requires r * f == n && n - v * f < 1.0 && v * f - n < 1.0
    ensures (r - v) * f < 1.0 && (v - r) * f < 1.0
  {
  }

  /** The real arithmetic of undoing a scaling, kept apart from the rounding so that each proof stays small. */
  lemma Unscale(n: int, v: real, f: real)
    requires f > 0.0
    ensures (n as real / f) * f == n as real
    ensures n as real == v * f ==> n as real / f == v
  {
  }

  /** Rounding twice to the same scale is rounding once, whatever the second mode. */
  lemma SetScaleIdempotent(v: real, scale: int, mode: RoundingMode, mode': RoundingMode)
    ensures SetScale(SetScale(v, scale, mode), scale, mode') == SetScale(v, scale, mode)
  {
    SetScaleHasScale(v, scale, mode);
    SetScaleExact(SetScale(v, scale, mode), scale, mode');
  }

  /** Every mode is monotone: a larger value never rounds to a smaller integer. */
  lemma RoundMonotone(x: real, y: real, mode: RoundingMode)
    requires x <= y
    ensures RoundToInt(x, mode) <= RoundToInt(y, mode)
  {
  }

  /** Rounding at scale 0 toward zero keeps the sign of every value above -1. */
  lemma DownAtScaleZeroNonNegative(v: real)
    ensures 0.0 <= SetScale(v, 0, Down) <==> -1.0 < v
  {
  }

  /** Rounding toward zero never grows the magnitude and keeps the sign. */
  lemma SetScaleDownTowardZero(v: real, scale: int)
    ensures Abs(SetScale(v, scale, Down)) <= Abs(v)
    ensures 0.0 <= v ==> 0.0 <= SetScale(v, scale, Down)
    ensures v <= 0.0 ==> SetScale(v, scale, Down) <= 0.0
  {
    SetScaleUnscales(v, scale, Down);
    ShrinkUnscaled(SetScale(v, scale, Down), v, Scaler(scale), RoundToInt(v * Scaler(scale), Down) as real);
  }

  lemma ShrinkUnscaled(r: real, v: real, f: real, n: real)
    requires f > 0.0 && r * f == n
    requires Abs(n) <= Abs(v * f) && (0.0 <= v * f ==> 0.0 <= n) && (v * f <= 0.0 ==> n <= 0.0)
    ensures Abs(r) <= Abs(v) && (0.0 <= v ==> 0.0 <= r) && (v <= 0.0 ==> r <= 0.0)
  {
    ScaleOrder(r, v, f);
    ScaleOrder(0.0, r, f);
    ScaleOrder(0.0, v, f);
    ScaleOrder(v, r, f);
    ScaleOrder(r, 0.0, f);
    ScaleOrder(v, 0.0, f);
  }

  lemma ScaleOrder(a: real, b: real, f: real)
    requires f > 0.0
    ensures a <= b <==> a * f <= b * f
  {
    if a <= b {
      assert (b - a) * f >= 0.0;
    } else {
      assert (a - b) * f > 0.0;
    }
  }

  /** A whole number fits every non-negative scale. */
  lemma WholeHasScale(k: int, scale: nat)
    ensures HasScale(k as real, scale)
  {
    assert k as real * Scaler(scale) == (k * Pow10(scale)) as real;
  }

  lemma FloorAt(x: real, k: int)
    requires k as real <= x < k as real + 1.0
    ensures x.Floor == k
  {
  }
}
