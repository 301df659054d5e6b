/** Decimal text for integers: Go's `strconv.Itoa` and `strconv.Atoi` on a
    64-bit platform, where `int` is a signed 64-bit integer. */
module Decimal {
  import opened Base

  const MinInt64: int := -0x8000_0000_0000_0000
  const MaxInt64: int := 0x7FFF_FFFF_FFFF_FFFF

  predicate InInt64(n: int)
  {
    MinInt64 <= n <= MaxInt64
  }

  predicate IsDigit(c: char)
  {
    '0' <= c <= '9'
  }

  predicate AllDigits(s: string)
  {
    forall k :: 0 <= k < |s| ==> IsDigit(s[k])
  }

  function DigitChar(d: int): (c: char)
    requires 0 <= d <= 9
    ensures IsDigit(c) && c as int - '0' as int == d
  {
    ('0' as int + d) as char
  }

  /** The value of a string of decimal digits, most significant first. */
  function DigitsValue(s: string): (v: nat)
    requires AllDigits(s)
  {
    if |s| == 0 then 0
    else DigitsValue(s[..|s| - 1]) * 10 + (s[|s| - 1] as int - '0' as int)
  }

  /** The shortest decimal digits of a natural number. */
  function NatToDigits(n: nat): (s: string)
    ensures |s| > 0 && AllDigits(s)
    ensures |s| > 1 ==> s[0] != '0'
    decreases n
  {
    if n < 10 then [DigitChar(n)] else NatToDigits(n / 10) + [DigitChar(n % 10)]
  }

  /** Go's `strconv.Itoa`: a minus sign for negative numbers, then the
      shortest digits. */
  function Itoa(n: int): (s: string)
  {
    if n < 0 then "-" + NatToDigits(-n) else NatToDigits(n)
  }

  const MaxUint64: int := 0xFFFF_FFFF_FFFF_FFFF

  /** The outcome of Go's `strconv.ParseUint(s, 10, 64)`. */
  datatype UintParse = UintOk(value: nat) | UintSyntaxError | UintRangeError

  /** The digit loop of `ParseUint`, with `acc` the value read so far. A
      non-digit is a syntax error; a digit that takes the value past
      `MaxUint64` is a range error, and the rest of the text is not read. */
  function ParseUintDigits(s: string, acc: nat): (r: UintParse)
    requires acc <= MaxUint64
    ensures r.UintOk? ==> acc <= r.value <= MaxUint64
    decreases |s|
  {
    if |s| == 0 then UintOk(acc)
    else if !IsDigit(s[0]) then UintSyntaxError
    else if acc >= MaxUint64 / 10 + 1 then UintRangeError
    else
      var next := acc * 10 + (s[0] as int - '0' as int);
      if next > MaxUint64 then UintRangeError else ParseUintDigits(s[1..], next)
  }

  /** Go's `strconv.ParseInt(s, 10, 64)`: an optional sign, then
      `ParseUint`. A syntax error gives 0; a range error, or a magnitude
      past the signed range, gives the bound on the side of the sign. */
  function ParseInt(s: string): (r: (int, bool))
  {
    if |s| == 0 then (0, false)
    else
      var neg := s[0] == '-';
      var body := if s[0] == '-' || s[0] == '+' then s[1..] else s;
      var u := if |body| == 0 then UintSyntaxError else ParseUintDigits(body, 0);
      if u.UintSyntaxError? then (0, false)
      else
        var un := if u.UintRangeError? then MaxUint64 else u.value;
        if !neg && un > MaxInt64 then (MaxInt64, false)
        else if neg && un > -MinInt64 then (MinInt64, false)
        else (if neg then -un else un, true)
  }

  /** The digit loop of `Atoi`'s fast path, which cannot overflow. */
  function FastDigits(s: string, acc: nat): (r: Option<nat>)
    decreases |s|
  {
    if |s| == 0 then Some(acc)
    else if !IsDigit(s[0]) then None
    else FastDigits(s[1..], acc * 10 + (s[0] as int - '0' as int))
  }

  /** The fast path of `Atoi` for texts shorter than 19 characters. */
  function AtoiFast(s: string): (r: (int, bool))
    requires |s| > 0
  {
    var body := if s[0] == '-' || s[0] == '+' then s[1..] else s;
    if |body| == 0 then (0, false)
    else
      match FastDigits(body, 0)
      case None => (0, false)
      case Some(n) => (if s[0] == '-' then -(n as int) else n, true)
  }

  /** Go's `strconv.Atoi` on a 64-bit platform: the fast path for texts of
      1 to 18 characters, `ParseInt` otherwise. (Go counts bytes; the two
      paths agree on short texts, see `AtoiFastAgrees`, so where the split
      falls makes no difference.) */
  function Atoi(s: string): (r: (int, bool))
    ensures r.1 <==> Wellformed(s) && InInt64(SignedValue(s))
    ensures r.1 ==> r.0 == SignedValue(s)
    ensures r.1 ==> InInt64(r.0)
    ensures r.1 ==> |s| > 0 && (IsDigit(s[0]) || s[0] == '-' || s[0] == '+')
    ensures Wellformed(s) && !InInt64(SignedValue(s)) ==> r == (if SignedValue(s) < 0 then MinInt64 else MaxInt64, false)
    ensures !Wellformed(s) && PrefixValue(s) > MaxUint64 ==> r == (if Negative(s) then MinInt64 else MaxInt64, false)
    ensures !Wellformed(s) && PrefixValue(s) <= MaxUint64 ==> r == (0, false)
  {
    AtoiMeaning(s);
    if 0 < |s| < 19 then AtoiFastAgrees(s); AtoiFast(s) else ParseInt(s)
  }

  /** The text after an optional leading sign. */
  function Unsigned(s: string): string
  {
    if |s| > 0 && (s[0] == '-' || s[0] == '+') then s[1..] else s
  }

  predicate Negative(s: string)
  {
    |s| > 0 && s[0] == '-'
  }

  /** An optional sign followed by one or more digits. */
  predicate Wellformed(s: string)
  {
    |Unsigned(s)| > 0 && AllDigits(Unsigned(s))
  }

  /** The number a well-formed text spells, not yet bounded. */
  function SignedValue(s: string): int
    requires Wellformed(s)
  {
    if Negative(s) then -(DigitsValue(Unsigned(s)) as int) else DigitsValue(Unsigned(s))
  }

  /** The number of leading digits of a text. */
  function DigitPrefixLength(s: string): (n: nat)
    ensures n <= |s| && AllDigits(s[..n])
    ensures n < |s| ==> !IsDigit(s[n])
    decreases |s|
  {
    if |s| == 0 || !IsDigit(s[0]) then 0
    else
      var n := 1 + DigitPrefixLength(s[1..]);
      assert s[..n] == [s[0]] + s[1..][..n - 1];
      n
  }

  /** The value of the digits after the sign, up to the first non-digit:
      what `ParseUint` has read when it meets the non-digit. */
  function PrefixValue(s: string): nat
  {
    var u := Unsigned(s);
    DigitsValue(u[..DigitPrefixLength(u)])
  }

  function Pow10(n: nat): (p: nat)
    ensures p >= 1
  {
    if n == 0 then 1 else 10 * Pow10(n - 1)
  }

  /** Splitting the first digit off: `d s` is worth `d * 10^|s| + s`. */
  lemma {:induction false} DigitsValueFront(s: string)
    requires |s| > 0 && AllDigits(s)
    ensures DigitsValue(s) == (s[0] as int - '0' as int) * Pow10(|s| - 1) + DigitsValue(s[1..])
    decreases |s|
  {
    if |s| > 1 {
      var init := s[..|s| - 1];
      var tail := s[1..];
      DigitsValueFront(init);
      assert init[1..] == tail[..|tail| - 1];
      assert init[0] == s[0];
      assert tail[|tail| - 1] == s[|s| - 1];
      var d := s[0] as int - '0' as int;
      var q := Pow10(|s| - 2);
      var b := DigitsValue(init[1..]);
      var c := s[|s| - 1] as int - '0' as int;
      assert DigitsValue(s) == (d * q + b) * 10 + c;
      assert DigitsValue(tail) == b * 10 + c;
      MoveUpOnePlace(d, q, b, c);
    }
  }

  lemma MoveUpOnePlace(d: int, q: int, b: int, c: int)
    ensures (d * q + b) * 10 + c == d * (10 * q) + (b * 10 + c)
  {
  }

  /** `ParseUint`'s loop stops with a range error exactly when the digits
      before the first non-digit are worth more than `MaxUint64`; otherwise
      it fails on a non-digit or returns that value. */
  lemma {:induction false} ParseUintDigitsMeaning(s: string, acc: nat)
    requires acc <= MaxUint64
    ensures var n := DigitPrefixLength(s);
            var v := acc * Pow10(n) + DigitsValue(s[..n]);
            ParseUintDigits(s, acc) == (if v > MaxUint64 then UintRangeError
                                        else if n < |s| then UintSyntaxError
                                        else UintOk(v))
    decreases |s|
  {
    if |s| > 0 && IsDigit(s[0]) {
      var n := DigitPrefixLength(s);
      var d := s[0] as int - '0' as int;
      var n1 := DigitPrefixLength(s[1..]);
      assert n == n1 + 1;
      assert s[..n][1..] == s[1..][..n1];
      DigitsValueFront(s[..n]);
      var rest := DigitsValue(s[1..][..n1]);
      ShiftDigit(acc, d, Pow10(n1), rest);
      if acc * 10 + d <= MaxUint64 {
        ParseUintDigitsMeaning(s[1..], acc * 10 + d);
      }
    } else {
      assert s[..0] == [];
    }
  }

  /** The fast digit loop fails exactly on a non-digit and otherwise reads
      the value. */
  lemma {:induction false} FastDigitsMeaning(s: string, acc: nat)
    ensures FastDigits(s, acc) == (if AllDigits(s) then Some(acc * Pow10(|s|) + DigitsValue(s)) else None)
    decreases |s|
  {
    if |s| > 0 && IsDigit(s[0]) {
      var d := s[0] as int - '0' as int;
      FastDigitsMeaning(s[1..], acc * 10 + d);
      assert AllDigits(s) <==> AllDigits(s[1..]);
      if AllDigits(s) {
        DigitsValueFront(s);
        ShiftDigit(acc, d, Pow10(|s| - 1), DigitsValue(s[1..]));
      }
    }
  }

  /** Reading one more digit `d` in front of a tail worth `rest` out of
      `p`: the value read so far moves one place up. */
  lemma ShiftDigit(acc: nat, d: nat, p: nat, rest: nat)
    requires p >= 1
    ensures acc * (10 * p) + (d * p + rest) == (acc * 10 + d) * p + rest
    ensures (acc * 10 + d) * p + rest >= acc * 10 + d
  {
    var x := acc * 10 + d;
    assert acc * (10 * p) == (acc * 10) * p;
    assert x * p == (acc * 10) * p + d * p;
    AtLeastOnce(x, p);
  }

  lemma AtLeastOnce(x: nat, p: nat)
    requires p >= 1
    ensures x * p >= x
  {
    assert x * p == x * (p - 1) + x;
  }

  /** A text of `n` digits is worth less than `10^n`. */
  lemma {:induction false} DigitsValueBound(s: string)
    requires AllDigits(s)
    ensures DigitsValue(s) < Pow10(|s|)
    decreases |s|
  {
    if |s| > 0 {
      DigitsValueBound(s[..|s| - 1]);
    }
  }

  lemma {:induction false} Pow10Monotone(m: nat, n: nat)
    requires m <= n
    ensures Pow10(m) <= Pow10(n)
    decreases n
  {
    if m < n {
      Pow10Monotone(m, n - 1);
    }
  }

  lemma Pow10Of18()
    ensures Pow10(18) == 1_000_000_000_000_000_000
  {
    assert Pow10(6) == 1_000_000;
    assert Pow10(12) == 1_000_000_000_000;
  }

  /** `Atoi`'s fast path and `ParseInt` agree on texts of 1 to 18
      characters: no such text can overflow. */
  lemma AtoiFastAgrees(s: string)
    requires 0 < |s| < 19
    ensures AtoiFast(s) == ParseInt(s)
  {
    var body := Unsigned(s);
    if |body| > 0 {
      FastDigitsMeaning(body, 0);
      ShortDigitsParse(body);
    }
  }

  /** `ParseUint` on at most 18 characters: a syntax error on a non-digit,
      otherwise the value, which fits in an `int64`. */
  lemma ShortDigitsParse(body: string)
    requires 0 < |body| <= 18
    ensures !AllDigits(body) ==> ParseUintDigits(body, 0) == UintSyntaxError
    ensures AllDigits(body) ==> ParseUintDigits(body, 0) == UintOk(DigitsValue(body)) && DigitsValue(body) <= MaxInt64
  {
    ParseUintDigitsMeaning(body, 0);
    var n := DigitPrefixLength(body);
    DigitsValueBound(body[..n]);
    Pow10Monotone(n, 18);
    Pow10Of18();
    assert 1 * Pow10(n) == Pow10(n);
    if AllDigits(body) {
      assert body[..n] == body;
    }
  }

  /** `ParseInt` means what `Atoi`'s contract says. */
  lemma AtoiMeaning(s: string)
    ensures var r := ParseInt(s);
            && (r.1 <==> Wellformed(s) && InInt64(SignedValue(s)))
            && (r.1 ==> r.0 == SignedValue(s))
            && (Wellformed(s) && !InInt64(SignedValue(s)) ==> r == (if SignedValue(s) < 0 then MinInt64 else MaxInt64, false))
            && (!Wellformed(s) && PrefixValue(s) > MaxUint64 ==> r == (if Negative(s) then MinInt64 else MaxInt64, false))
            && (!Wellformed(s) && PrefixValue(s) <= MaxUint64 ==> r == (0, false))
  {
    var body := Unsigned(s);
    if |body| > 0 {
      ParseUintDigitsMeaning(body, 0);
      var n := DigitPrefixLength(body);
      if AllDigits(body) {
        assert body[..n] == body;
      }
    } else {
      assert body[..0] == [];
    }
  }

  /** Reading more digits never lowers the value. */
  lemma {:induction false} DigitsValueMonotone(s: string, i: nat, j: nat)
    requires i <= j <= |s| && AllDigits(s[..j])
    ensures DigitsValue(s[..i]) <= DigitsValue(s[..j])
    decreases j
  {
    if i < j {
      assert s[..j][..j - 1] == s[..j - 1];
      DigitsValueMonotone(s, i, j - 1);
    }
  }

  /** Digits worth more than `MaxUint64` make `Atoi` report the bound on
      the side of the sign, whatever follows them: `ParseUint` gives up at
      the overflowing digit and never reaches a later non-digit. */
  lemma AtoiClampsOverflowingDigits(digits: string, rest: string)
    requires |digits| > 0 && AllDigits(digits) && DigitsValue(digits) > MaxUint64
    ensures Atoi(digits + rest) == (MaxInt64, false)
    ensures Atoi("-" + digits + rest) == (MinInt64, false)
  {
    OverflowingUnsigned(digits, rest);
    AtoiOfOverflow(digits + rest);
    assert "-" + digits + rest == "-" + (digits + rest);
    AtoiOfNegatedOverflow(digits + rest);
  }

  lemma AtoiOfNegatedOverflow(s: string)
    requires Unsigned(s) == s && PrefixValue(s) > MaxUint64
    requires Wellformed(s) ==> DigitsValue(s) > MaxUint64
    ensures Atoi("-" + s) == (MinInt64, false)
  {
    var t := "-" + s;
    assert t[0] == '-' && t[1..] == s;
    assert Unsigned(t) == s;
    AtoiOfOverflow(t);
  }

  /** A text whose digits overflow before any non-digit. */
  lemma AtoiOfOverflow(t: string)
    requires PrefixValue(t) > MaxUint64
    requires Wellformed(t) ==> DigitsValue(Unsigned(t)) > MaxUint64
    ensures Atoi(t) == (if Negative(t) then MinInt64 else MaxInt64, false)
  {
    var r := Atoi(t);
    if Wellformed(t) {
      assert !InInt64(SignedValue(t));
    }
  }

  /** An unsigned text that starts with overflowing digits. */
  lemma OverflowingUnsigned(digits: string, rest: string)
    requires |digits| > 0 && AllDigits(digits) && DigitsValue(digits) > MaxUint64
    ensures Unsigned(digits + rest) == digits + rest && !Negative(digits + rest)
    ensures PrefixValue(digits + rest) > MaxUint64
    ensures Wellformed(digits + rest) ==> DigitsValue(digits + rest) > MaxUint64
  {
    var s := digits + rest;
    assert s[..|digits|] == digits;
    assert IsDigit(s[0]);
    var n := DigitPrefixLength(s);
    DigitsValueMonotone(s, |digits|, n);
    if Wellformed(s) {
      assert s[..|s|] == s;
      DigitsValueMonotone(s, |digits|, |s|);
    }
  }

  /** Twenty nines followed by a letter: Go's `Atoi` reports the 64-bit
      bound, not 0, because the overflow comes before the letter. */
  lemma AtoiOverflowExample()
    ensures Atoi(TwentyNines + "x") == (MaxInt64, false)
    ensures Atoi("-" + TwentyNines + "x") == (MinInt64, false)
  {
    TwentyNinesOverflow();
    AtoiClampsOverflowingDigits(TwentyNines, "x");
  }

  const TwentyNines: string := "99999999999999999999"

  lemma TwentyNinesOverflow()
    ensures |TwentyNines| > 0 && AllDigits(TwentyNines) && DigitsValue(TwentyNines) > MaxUint64
  {
    NinesValue(TwentyNines);
    Pow10Of18();
    assert Pow10(20) == 10 * Pow10(19) && Pow10(19) == 10 * Pow10(18);
  }

  /** A run of nines is one less than a power of ten. */
  lemma {:induction false} NinesValue(s: string)
    requires forall k :: 0 <= k < |s| ==> s[k] == '9'
    ensures AllDigits(s) && DigitsValue(s) == Pow10(|s|) - 1
    decreases |s|
  {
    if |s| > 0 {
      NinesValue(s[..|s| - 1]);
    }
  }

  lemma {:induction false} DigitsValueOfNat(n: nat)
    ensures DigitsValue(NatToDigits(n)) == n
    decreases n
  {
    if n >= 10 {
      var s := NatToDigits(n);
      DigitsValueOfNat(n / 10);
      assert s[..|s| - 1] == NatToDigits(n / 10);
    }
  }

  /** Reading back what `Itoa` writes gives the number again, for every
      64-bit integer. */
  lemma ItoaAtoiRoundTrip(n: int)
    requires InInt64(n)
    ensures Atoi(Itoa(n)) == (n, true)
  {
    var s := Itoa(n);
    if n < 0 {
      var d := NatToDigits(-n);
      DigitsValueOfNat(-n);
      assert s == "-" + d;
      assert s[0] == '-' && s[1..] == d;
      assert DigitsValue(d) == -n;
    } else {
      var d := NatToDigits(n);
      DigitsValueOfNat(n);
      assert s == d && IsDigit(s[0]);
    }
  }

  /** `Itoa` writes only digits and a leading minus sign. */
  lemma ItoaAlphabet(n: int)
    ensures forall k :: 0 <= k < |Itoa(n)| ==> IsDigit(Itoa(n)[k]) || (k == 0 && Itoa(n)[k] == '-')
    ensures |Itoa(n)| > 0
  {
  }

  /** Go's conversion of a floating-point value to an integer: truncation
      toward zero. */
  function Truncate(x: real): (n: int)
    ensures x >= 0.0 ==> n as real <= x < n as real + 1.0
    ensures x < 0.0 ==> n as real - 1.0 < x <= n as real
  {
    if x >= 0.0 then x.Floor else -((-x).Floor)
  }
}
