/** Amounts travel to the database as decimal text and come back multiplied by one hundred:
    the two renderers of internal/repository/finance_repository.go and the NUMERIC columns they feed. */
module Numeric {
  import opened Prelude

  // ----- rendering -----

  function DigitChar(d: nat): char
    requires d < 10
  {
    "0123456789"[d]
  }

  /** Decimal rendering of a natural number. */
  function Digits(n: nat): (s: string)
    ensures s != []
  {
    if n < 10 then [DigitChar(n)] else Digits(n / 10) + [DigitChar(n % 10)]
  }

  function Decimal(x: int): string {
    if x < 0 then "-" + Digits(-x) else Digits(x)
  }

  /** Rendering padded with a zero to two characters; the sign takes part in the width. */
  function Padded(x: int): string {
    var s := Decimal(x);
    if |s| < 2 then "0" + s else s
  }

  /** The remainder that goes with a quotient cut toward zero. */
  function TruncMod(x: int, y: int): int
    requires y > 0
  {
    x - TruncDiv(x, y) * y
  }

  /** Whole part, point and two-character remainder of a number of hundredths. */
  function HundredthsText(value: int): string {
    Decimal(TruncDiv(value, 100)) + "." + Padded(TruncMod(value, 100))
  }

  /** Negating the lowest 64-bit amount wraps back to it. */
  function MoneyText(cents: int): string
    requires MIN_INT64 <= cents <= MAX_INT64
  {
    if cents < 0 then "-" + HundredthsText(Wrap64(-cents)) else HundredthsText(cents)
  }

  function BasisPointsText(rate: int): string {
    HundredthsText(rate)
  }

  // ----- the database side -----

  predicate IsDigit(c: char) {
    '0' <= c <= '9'
  }

  function DigitValue(c: char): nat
    requires IsDigit(c)
  {
    c as int - '0' as int
  }

  function ParseDigits(s: string): Option<nat> {
    if s == [] then Some(0)
    else
      var front := ParseDigits(s[..|s| - 1]);
      if front.None? || !IsDigit(s[|s| - 1]) then None else Some(10 * front.value + DigitValue(s[|s| - 1]))
  }

  /** The hundredths denoted by an unsigned literal with two decimals. */
  function ParseUnsigned(s: string): Option<nat> {
    var n := |s|;
    if n < 4 || s[n - 3] != '.' then None
    else
      var whole, cents := ParseDigits(s[..n - 3]), ParseDigits(s[n - 2..]);
      if whole.None? || cents.None? then None else Some(100 * whole.value + cents.value)
  }

  function ParseNumeric(s: string): Option<int> {
    if s != [] && s[0] == '-' then
      var magnitude := ParseUnsigned(s[1..]);
      if magnitude.None? then None else var m: int := magnitude.value; Some(-m)
    else ParseUnsigned(s)
  }

  /** What a NUMERIC column with two decimals holds, in hundredths, when its magnitude stays below `limit`. */
  function Stored(s: string, limit: int): Option<int> {
    var x := ParseNumeric(s);
    if x.Some? && -limit < x.value < limit then x else None
  }

  /** NUMERIC(12,2) and NUMERIC(5,2), in hundredths. */
  const MONEY_LIMIT: int := 1_000_000_000_000
  const RATE_LIMIT: int := 100_000

  // ----- round trips -----

  lemma {:induction false} DigitsRoundTrip(n: nat)
    ensures ParseDigits(Digits(n)) == Some(n)
    ensures forall i :: 0 <= i < |Digits(n)| ==> IsDigit(Digits(n)[i])
  {
    if n >= 10 {
      DigitsRoundTrip(n / 10);
      assert Digits(n)[..|Digits(n)| - 1] == Digits(n / 10);
    } else {
      assert Digits(n)[..0] == [];
    }
  }

  lemma PaddedTwo(x: nat)
    requires x < 100
    ensures |Padded(x)| == 2 && ParseDigits(Padded(x)) == Some(x)
  {
    if x >= 10 {
      assert Digits(x) == [DigitChar(x / 10)] + [DigitChar(x % 10)];
      DigitsRoundTrip(x);
    } else {
      var s := Padded(x);
      assert s == ['0', DigitChar(x)];
      assert s[..1] == ['0'] && ['0'][..0] == [];
    }
  }

  lemma ParseParts(s: string, whole: string, cents: string, w: nat, c: nat)
    requires s == whole + "." + cents && whole != [] && |cents| == 2
    requires ParseDigits(whole) == Some(w) && ParseDigits(cents) == Some(c)
    ensures ParseUnsigned(s) == Some(100 * w + c)
    ensures whole[0] != '-' ==> ParseNumeric(s) == Some(100 * w + c)
  {
    assert s[..|s| - 3] == whole && s[|s| - 2..] == cents;
  }

  lemma HundredthsRoundTrip(x: nat)
    ensures ParseNumeric(HundredthsText(x)) == Some(x)
    ensures ParseUnsigned(HundredthsText(x)) == Some(x)
  {
    var w, c := x / 100, x % 100;
    PaddedTwo(c);
    DigitsRoundTrip(w);
    assert HundredthsText(x) == Digits(w) + "." + Padded(c);
    ParseParts(HundredthsText(x), Digits(w), Padded(c), w, c);
  }

  lemma SignedParse(text: string, s: string, x: nat)
    requires text == "-" + s && ParseUnsigned(s) == Some(x)
    ensures ParseNumeric(text) == Some(0 - x)
  {
    assert text[1..] == s;
  }

  lemma NegativeText(cents: int, magnitude: int)
    requires MIN_INT64 < cents < 0 && magnitude == Wrap64(-cents)
    ensures magnitude == -cents && MoneyText(cents) == "-" + HundredthsText(magnitude)
  {
  }

  lemma NegativeParses(text: string, x: nat)
    requires text == "-" + HundredthsText(x)
    ensures ParseNumeric(text) == Some(0 - x)
  {
    HundredthsRoundTrip(x);
    SignedParse(text, HundredthsText(x), x);
  }

  lemma StoredParse(s: string, x: int, limit: int)
    requires ParseNumeric(s) == Some(x)
    ensures Stored(s, limit) == if -limit < x < limit then Some(x) else None
  {
  }

  lemma HundredthsStored(x: nat, limit: int)
    ensures Stored(HundredthsText(x), limit) == if -limit < x < limit then Some(x) else None
  {
    HundredthsRoundTrip(x);
    StoredParse(HundredthsText(x), x, limit);
  }

  lemma NegativeStored(text: string, x: nat, limit: int)
    requires text == "-" + HundredthsText(x)
    ensures Stored(text, limit) == if -limit < 0 - x < limit then Some(0 - x) else None
  {
    NegativeParses(text, x);
    StoredParse(text, 0 - x, limit);
  }

  lemma NegativeReadBack(cents: int, magnitude: nat, text: string)
    requires MIN_INT64 < cents < 0 && magnitude == Wrap64(-cents) && text == MoneyText(cents)
    ensures Stored(text, MONEY_LIMIT) == if -MONEY_LIMIT < cents then Some(cents) else None
  {
    NegativeText(cents, magnitude);
    NegativeStored(text, magnitude, MONEY_LIMIT);
  }

  /** An amount survives the trip through its column exactly when its magnitude fits, and is otherwise refused. */
  lemma MoneyReadBack(cents: int)
    requires MIN_INT64 <= cents <= MAX_INT64
    ensures Stored(MoneyText(cents), MONEY_LIMIT)
         == if -MONEY_LIMIT < cents < MONEY_LIMIT then Some(cents) else None
  {
    if cents == MIN_INT64 {
      LowestAmountIsMalformed();
    } else if cents < 0 {
      NegativeReadBack(cents, Wrap64(-cents), MoneyText(cents));
    } else {
      HundredthsStored(cents, MONEY_LIMIT);
    }
  }

  /** The lowest 64-bit amount has no magnitude, and its text has two signs. */
  lemma LowestAmountIsMalformed()
    ensures Stored(MoneyText(MIN_INT64), MONEY_LIMIT) == None
  {
    assert Wrap64(-MIN_INT64) == MIN_INT64;
    var s := MoneyText(MIN_INT64);
    assert s[0] == '-' && s[1] == '-';
    HeadNotDigit(s[1..]);
  }

  lemma HeadNotDigit(s: string)
    requires s != [] && !IsDigit(s[0])
    ensures ParseUnsigned(s) == None
  {
    if |s| >= 4 {
      NotDigits(s[..|s| - 3], 0);
    }
  }

  lemma {:induction false} NotDigits(s: string, i: nat)
    requires i < |s| && !IsDigit(s[i])
    ensures ParseDigits(s) == None
  {
    if i < |s| - 1 {
      NotDigits(s[..|s| - 1], i);
    }
  }

  /** A rate survives the trip exactly when it fits. */
  lemma RateReadBack(rate: nat)
    ensures Stored(BasisPointsText(rate), RATE_LIMIT) == if rate < RATE_LIMIT then Some(rate) else None
  {
    HundredthsStored(rate, RATE_LIMIT);
  }
}
