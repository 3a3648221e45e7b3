/**
 * The calculation helper: a running decimal value with a result scale and rounding mode.
 * Every operation updates the running value in place; with `roundingAlways` each step rounds
 * to the result scale, otherwise only `Decimal()` (and division) rounds.
 */
module Calculators {
  import opened Decimals

  const IntMin: int := -0x8000_0000
  const IntMax: int := 0x7fff_ffff
  const LongMin: int := -0x8000_0000_0000_0000
  const LongMax: int := 0x7fff_ffff_ffff_ffff

  /** Two's-complement narrowing to 32 bits: the low 32 bits of `n`, read as signed. */
  function Int32(n: int): (r: int)
    ensures IntMin <= r <= IntMax
    ensures (r - n) % 0x1_0000_0000 == 0
    ensures IntMin <= n <= IntMax ==> r == n
  {
    (n + 0x8000_0000) % 0x1_0000_0000 - 0x8000_0000
  }

  /** Two's-complement narrowing to 64 bits. */
  function Int64(n: int): (r: int)
    ensures LongMin <= r <= LongMax
    ensures (r - n) % 0x1_0000_0000_0000_0000 == 0
    ensures LongMin <= n <= LongMax ==> r == n
  {
    (n + 0x8000_0000_0000_0000) % 0x1_0000_0000_0000_0000 - 0x8000_0000_0000_0000
  }

  class Calculator {
    var value: real
    var scale: int
    var mode: RoundingMode
    /** Whether every step rounds to `scale` with `mode`. */
    var roundingAlways: bool
    /** The fraction digits a division keeps when `roundingAlways` is off. */
    const DefaultScale: int := 18

    /** `Calculator.init(v)` */
    constructor Init(v: real)
      ensures value == v && scale == 0 && mode == Down && !roundingAlways
    {
      value := v;
      scale := 0;
      mode := Down;
      roundingAlways := false;
    }

    /** `Calculator.init()` */
    constructor InitZero()
      ensures value == 0.0 && scale == 0 && mode == Down && !roundingAlways
    {
      value := 0.0;
      scale := 0;
      mode := Down;
      roundingAlways := false;
    }

    /** Sets the result scale, rounding toward zero. */
    method Scale(s: int)
      modifies this
      ensures scale == s && mode == Down
      ensures value == old(value) && roundingAlways == old(roundingAlways)
    {
      ScaleWith(s, Down);
    }

    method ScaleWith(s: int, m: RoundingMode)
      modifies this
      ensures scale == s && mode == m
      ensures value == old(value) && roundingAlways == old(roundingAlways)
    {
      scale := s;
      mode := m;
    }

    method RoundingAlways(b: bool)
      modifies this
      ensures roundingAlways == b
      ensures value == old(value) && scale == old(scale) && mode == old(mode)
    {
      roundingAlways := b;
    }

    /** The per-step rounding: to the result scale when `roundingAlways`, else exact. */
    function Rounding(v: real): (r: real)
      reads this
      ensures !roundingAlways ==> r == v
      ensures roundingAlways ==> HasScale(r, scale) && (HasScale(v, scale) ==> r == v)
    {
      if roundingAlways then
        SetScaleHasScale(v, scale, mode);
        if HasScale(v, scale) then SetScaleExact(v, scale, mode); SetScale(v, scale, mode)
        else SetScale(v, scale, mode)
      else v
    }

    method Add(v: real)
      modifies this
      ensures value == Rounding(old(value) + v)
      ensures scale == old(scale) && mode == old(mode) && roundingAlways == old(roundingAlways)
    {
      value := Rounding(value + v);
    }

    method Subtract(v: real)
      modifies this
      ensures value == Rounding(old(value) - v)
      ensures scale == old(scale) && mode == old(mode) && roundingAlways == old(roundingAlways)
    {
      value := Rounding(value - v);
    }

    method Multiply(v: real)
      modifies this
      ensures value == Rounding(old(value) * v)
      ensures scale == old(scale) && mode == old(mode) && roundingAlways == old(roundingAlways)
    {
      value := Rounding(value * v);
    }

    /** Division always rounds: to the result scale, or to 18 fraction digits when `roundingAlways` is off. */
    method DivideBy(v: real)
      requires v != 0.0
      modifies this
      ensures value == SetScale(old(value) / v, if roundingAlways then scale else DefaultScale, mode)
      ensures scale == old(scale) && mode == old(mode) && roundingAlways == old(roundingAlways)
    {
      value := SetScale(value / v, if roundingAlways then scale else DefaultScale, mode);
    }

    /** The result: the running value rounded to the result scale. */
    function Decimal(): (d: real)
      reads this
      ensures HasScale(d, scale)
      ensures HasScale(value, scale) ==> d == value
      ensures (d - value) * Scaler(scale) < 1.0 && (value - d) * Scaler(scale) < 1.0
    {
      SetScaleHasScale(value, scale, mode);
      SetScaleError(value, scale, mode);
      if HasScale(value, scale) then SetScaleExact(value, scale, mode); SetScale(value, scale, mode)
      else SetScale(value, scale, mode)
    }

    /** The result as a 32-bit integer: the fraction dropped, then the low 32 bits kept. */
    function IntValue(): (n: int)
      reads this
      ensures IntMin <= n <= IntMax
      ensures IntMin as real <= Decimal() < (IntMax + 1) as real ==> n == RoundToInt(Decimal(), Down)
    {
      Int32(RoundToInt(Decimal(), Down))
    }

    /** The result as a 64-bit integer. */
    function LongValue(): (n: int)
      reads this
      ensures LongMin <= n <= LongMax
      ensures LongMin as real <= Decimal() < (LongMax + 1) as real ==> n == RoundToInt(Decimal(), Down)
    {
      Int64(RoundToInt(Decimal(), Down))
    }
  }

  /** (10 + 2 - 4) * 4 / 8 = 4 */
  method IntegerChain() returns (n: int)
    ensures n == 4
  {
    var c := new Calculator.Init(10.0);
    c.Add(2.0);
    assert c.value == 12.0;
    c.Subtract(4.0);
    assert c.value == 8.0;
    c.Multiply(4.0);
    assert c.value == 32.0;
    ghost var before := c.value;
    c.DivideBy(8.0);
    assert c.value == SetScale(before / 8.0, 18, Down);
    WholeAtEighteenDigits(before);
    WholeHasScale(4, 0);
    n := c.IntValue();
  }

  lemma WholeAtEighteenDigits(x: real)
    requires x == 32.0
    ensures SetScale(x / 8.0, 18, Down) == 4.0
  {
    WholeHasScale(4, 18);
    SetScaleExact(4.0, 18, Down);
  }

  /** (12.4 + 0.033 - 2.33) * 0.3 / 3.3 = 0.91, rounding toward zero at two digits. */
  method FractionalChain() returns (d: real)
    ensures d == 0.91
  {
    var c := new Calculator.Init(12.4);
    c.Scale(2);
    c.Add(0.033);
    assert c.value == 12.433;
    c.Subtract(2.33);
    assert c.value == 10.103;
    c.Multiply(0.3);
    assert c.value == 3.0309;
    ghost var before := c.value;
    c.DivideBy(3.3);
    assert c.value == SetScale(before / 3.3, 18, Down);
    QuotientAtEighteenDigits(before);
    QuotientAtTwoDigits();
    d := c.Decimal();
  }

  lemma QuotientAtEighteenDigits(x: real)
    requires x == 3.0309
    ensures SetScale(x / 3.3, 18, Down) == 0.918454545454545454
  {
    assert Pow10(18) == Pow10(6) * 1_000_000_000_000;
    FloorAt(x / 3.3 * 1_000_000_000_000_000_000.0, 918_454_545_454_545_454);
  }

  lemma QuotientAtTwoDigits()
    ensures SetScale(0.918454545454545454, 2, Down) == 0.91
  {
    assert Scaler(2) == 100.0;
    FloorAt(91.8454545454545454, 91);
  }

  /** 3.333 + 0.001 + 0.001 = 3.335, which rounds half up to 3.34 at the end. */
  method RoundingAtTheEnd() returns (d: real)
    ensures d == 3.34
  {
    var c := new Calculator.Init(3.333);
    c.ScaleWith(2, HalfUp);
    c.Add(0.001);
    c.Add(0.001);
    assert (c.value * Scaler(2)).Floor == 333;
    d := c.Decimal();
  }

  /** With rounding at every step 3.333 + 0.001 rounds back to 3.33 each time. */
  method RoundingEveryStep() returns (d: real)
    ensures d == 3.33
  {
    var c := new Calculator.Init(3.333);
    c.ScaleWith(2, HalfUp);
    c.RoundingAlways(true);
    c.Add(0.001);
    assert (3.334 * Scaler(2)).Floor == 333;
    c.Add(0.001);
    assert (3.331 * Scaler(2)).Floor == 333;
    d := c.Decimal();
  }
}
