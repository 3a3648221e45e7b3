/**
 * Identifier generation: a per-key counter that is created lazily at 0 and incremented by one
 * per request (for the CashInOut key), formatted as "CIO" followed by the counter in decimal.
 */
module Uid {
  import opened Wrappers

  /** The range of a Kotlin `Long`, the width of the counters. */
  const LongMin: int := -0x8000_0000_0000_0000
  const LongMax: int := 0x7fff_ffff_ffff_ffff

  const CashInOutKey: string := "CashInOut"
  const CashInOutPrefix: string := "CIO"

  predicate InLongRange(v: int) {
    LongMin <= v <= LongMax
  }

  /** `AtomicLong.incrementAndGet`: adds one, wrapping from the largest `Long` to the smallest. */
  function Increment(v: int): (r: int)
    requires InLongRange(v)
    ensures InLongRange(r)
    ensures v < LongMax ==> r == v + 1
    ensures v == LongMax ==> r == LongMin
  {
    if v == LongMax then LongMin else v + 1
  }

  predicate IsDigit(c: char) {
    '0' <= c <= '9'
  }

  predicate AllDigits(s: string) {
    forall i :: 0 <= i < |s| ==> IsDigit(s[i])
  }

  function DigitChar(d: nat): (c: char)
    requires d < 10
    ensures IsDigit(c) && c as int - '0' as int == d
  {
    (('0' as int) + d) as char
  }

  /** The decimal digits of `n`, most significant first, without leading zeros. */
  function NatToDecimal(n: nat): (s: string)
    ensures |s| > 0 && AllDigits(s)
    decreases n
  {
    if n < 10 then [DigitChar(n)] else NatToDecimal(n / 10) + [DigitChar(n % 10)]
  }

  /** The number a string of decimal digits denotes. */
  function DecimalValue(s: string): nat
    requires AllDigits(s)
  {
    if s == [] then 0 else DecimalValue(s[..|s| - 1]) * 10 + (s[|s| - 1] as int - '0' as int)
  }

  lemma {:induction false} DecimalRoundTrip(n: nat)
    ensures DecimalValue(NatToDecimal(n)) == n
  {
    if n >= 10 {
      var s := NatToDecimal(n);
      assert s[..|s| - 1] == NatToDecimal(n / 10);
      DecimalRoundTrip(n / 10);
    }
  }

  /** `Long.toString`: an optional minus sign followed by the decimal digits. */
  function LongToString(v: int): string {
    if v < 0 then "-" + NatToDecimal(-v) else NatToDecimal(v)
  }

  /** Reads back the number `LongToString` printed; `None` when `s` is not such a text. */
  function ParseLong(s: string): Option<int> {
    if |s| > 1 && s[0] == '-' && AllDigits(s[1..]) then Some(-(DecimalValue(s[1..]) as int))
    else if |s| > 0 && AllDigits(s) then Some(DecimalValue(s))
    else None
  }

  lemma LongToStringRoundTrip(v: int)
    ensures ParseLong(LongToString(v)) == Some(v)
  {
    var s := LongToString(v);
    if v < 0 {
      assert s[1..] == NatToDecimal(-v);
      DecimalRoundTrip(-v);
    } else {
      DecimalRoundTrip(v);
    }
  }

  /** The CashInOut identifier for counter value `v`. */
  function FormatCashInOut(v: int): (id: string)
    ensures |id| > |CashInOutPrefix| && id[..|CashInOutPrefix|] == CashInOutPrefix
  {
    CashInOutPrefix + LongToString(v)
  }

  /** The counter value a CashInOut identifier carries. */
  function CashInOutNumber(id: string): Option<int> {
    if |id| >= |CashInOutPrefix| && id[..|CashInOutPrefix|] == CashInOutPrefix
    then ParseLong(id[|CashInOutPrefix|..])
    else None
  }

  lemma CashInOutNumberRoundTrip(v: int)
    ensures CashInOutNumber(FormatCashInOut(v)) == Some(v)
  {
    var id := FormatCashInOut(v);
    assert id[|CashInOutPrefix|..] == LongToString(v);
    LongToStringRoundTrip(v);
  }

  /** Distinct counter values give distinct identifiers. */
  lemma FormatCashInOutInjective(a: int, b: int)
    ensures FormatCashInOut(a) == FormatCashInOut(b) ==> a == b
  {
    CashInOutNumberRoundTrip(a);
    CashInOutNumberRoundTrip(b);
  }

  class IdGenerator {
    /** Counter per key; a key absent from the map has not been asked for yet. */
    var values: map<string, int>

    ghost predicate Valid()
      reads this
    {
      forall k :: k in values ==> InLongRange(values[k])
    }

    constructor ()
      ensures Valid() && values == map[]
    {
      values := map[];
    }

    /** The current counter of `key`; 0 before its first use. */
    function CounterOf(key: string): (v: int)
      reads this
      requires Valid()
      ensures InLongRange(v)
      ensures key !in values ==> v == 0
    {
      if key in values then values[key] else 0
    }

    /** Creates the counter of `key` at 0 if needed and increments it. */
    method NextValue(key: string) returns (v: int)
      requires Valid()
      modifies this
      ensures Valid()
      ensures v == Increment(old(CounterOf(key)))
      ensures values == old(values)[key := v]
    {
      var current := if key in values then values[key] else 0;
      v := Increment(current);
      values := values[key := v];
    }

    /**
     * A new identifier for entities of kind `key`. The CashInOut kind draws the next counter
     * value; every other kind gets a random UUID, modelled as some text outside `taken`, the
     * identifiers already stored for that kind.
     */
    method Generate(key: string, taken: set<string>) returns (id: string)
      requires Valid()
      modifies this
      ensures Valid()
      ensures key == CashInOutKey ==>
        && values == old(values)[key := Increment(old(CounterOf(key)))]
        && id == FormatCashInOut(values[key])
      ensures key != CashInOutKey ==> values == old(values) && id !in taken
    {
      if key == CashInOutKey {
        var v := NextValue(key);
        id := FormatCashInOut(v);
      } else {
        id := Unused(taken);
      }
    }
  }

  /** Stands for a random UUID: a text longer than every identifier in `taken`, so not among them. */
  method Unused(taken: set<string>) returns (id: string)
    ensures id !in taken
  {
    var rest := taken;
    var longest := 0;
    while rest != {}
      invariant rest <= taken
      invariant 0 <= longest
      invariant forall k :: k in taken && k !in rest ==> |k| <= longest
      decreases |rest|
    {
      var k :| k in rest;
      if |k| > longest {
        longest := |k|;
      }
      rest := rest - {k};
    }
    id := seq(longest + 1, _ => 'u');
  }

  /** A freshly started generator hands out "CIO1" first. */
  method FirstCashInOutId() returns (id: string)
    ensures id == "CIO1"
  {
    var g := new IdGenerator();
    id := g.Generate(CashInOutKey, {});
  }

  /** Two successive CashInOut identifiers differ and their numbers go up by one. */
  method SuccessiveCashInOutIds(g: IdGenerator) returns (first: string, second: string)
    requires g.Valid() && g.CounterOf(CashInOutKey) < LongMax - 1
    modifies g
    ensures g.Valid()
    ensures CashInOutNumber(first) == Some(old(g.CounterOf(CashInOutKey)) + 1)
    ensures CashInOutNumber(second) == Some(old(g.CounterOf(CashInOutKey)) + 2)
    ensures first != second
  {
    first := g.Generate(CashInOutKey, {});
    second := g.Generate(CashInOutKey, {});
    CashInOutNumberRoundTrip(old(g.CounterOf(CashInOutKey)) + 1);
    CashInOutNumberRoundTrip(old(g.CounterOf(CashInOutKey)) + 2);
  }
}
