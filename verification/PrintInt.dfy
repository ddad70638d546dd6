/** printint (kernel/printf.c): a 64-bit value as digits, through a buffer of 20 characters. */
module PrintInt {
  import opened Riscv

  const LLONG_MIN := -0x8000_0000_0000_0000
  const LLONG_MAX := 0x7FFF_FFFF_FFFF_FFFF

  /** long long */
  type LongLong = x: int | LLONG_MIN <= x <= LLONG_MAX

  const BUFFER := 20

  const DIGITS: string := "0123456789abcdef"

  // ----- what is printed

  /** x converted to unsigned long long. */
  function Unsigned(x: LongLong): (r: Word) {
    if x < 0 then x + TWO64 else x
  }

  /** The magnitude that is converted: -xx in two's complement for a negative value that is printed with its sign. */
  function Magnitude(x: LongLong, sign: bool): (r: Word) {
    if sign && x < 0 then (TWO64 - Unsigned(x)) % TWO64 else Unsigned(x)
  }

  /** The digits of x, the most significant one first. */
  function Digits(x: nat, base: nat): (s: string)
    requires base == 10 || base == 16
    ensures |s| > 0
  {
    if x < base then [DIGITS[x]] else Digits(x / base, base) + [DIGITS[x % base]]
  }

  function Printed(x: LongLong, base: nat, sign: bool): (r: string)
    requires base == 10 || base == 16
  {
    (if sign && x < 0 then "-" else "") + Digits(Magnitude(x, sign), base)
  }

  // ----- reading it back

  function DigitValue(c: char): (r: int) {
    if '0' <= c <= '9' then c as int - '0' as int
    else if 'a' <= c <= 'f' then c as int - 'a' as int + 10
    else -1
  }

  predicate IsNumeral(s: string, base: nat) {
    forall i :: 0 <= i < |s| ==> 0 <= DigitValue(s[i]) < base
  }

  function Parse(s: string, base: nat): (r: int) {
    if s == "" then 0 else Parse(s[..|s| - 1], base) * base + DigitValue(s[|s| - 1])
  }

  function ParseSigned(s: string, base: nat): (r: int) {
    if s != "" && s[0] == '-' then -Parse(s[1..], base) else Parse(s, base)
  }

  lemma DigitRoundTrip(d: nat, base: nat)
    requires (base == 10 || base == 16) && d < base
    ensures DigitValue(DIGITS[d]) == d && (DIGITS[d] == '0' <==> d == 0) && DIGITS[d] != '-'
  {
  }

  lemma {:induction false} DigitsRoundTrip(x: nat, base: nat)
    requires base == 10 || base == 16
    ensures IsNumeral(Digits(x, base), base) && Parse(Digits(x, base), base) == x
    ensures Digits(x, base)[0] == '0' <==> x == 0
    ensures Digits(x, base)[0] != '-'
  {
    var s := Digits(x, base);
    if x < base {
      DigitRoundTrip(x, base);
      assert s[..0] == "";
    } else {
      DigitsRoundTrip(x / base, base);
      DigitRoundTrip(x % base, base);
      assert s[..|s| - 1] == Digits(x / base, base);
    }
  }

  lemma MagnitudeIs(x: LongLong, sign: bool)
    ensures Magnitude(x, sign) as int == if sign && x < 0 then 0 - x as int else Unsigned(x) as int
  {
    if sign && x < 0 { assert 0 < TWO64 - Unsigned(x) < TWO64; }
  }

  /** What is printed parses back to the value: itself if signed, its 64-bit pattern if not. */
  lemma PrintedRoundTrip(x: LongLong, base: nat, sign: bool)
    requires base == 10 || base == 16
    ensures ParseSigned(Printed(x, base, sign), base) == if sign then x else Unsigned(x)
  {
    var m := Magnitude(x, sign);
    MagnitudeIs(x, sign);
    DigitsRoundTrip(m, base);
    if sign && x < 0 {
      assert Printed(x, base, sign)[1..] == Digits(m, base);
    } else {
      assert Printed(x, base, sign) == Digits(m, base);
    }
  }

  /** No leading zeros: a first digit 0 is the only one. */
  lemma {:induction false} NoLeadingZero(x: nat, base: nat)
    requires base == 10 || base == 16
    ensures Digits(x, base)[0] == '0' <==> Digits(x, base) == "0"
  {
    DigitsRoundTrip(x, base);
    if x < base { DigitRoundTrip(x, base); }
  }

  /** Two values never look alike. */
  lemma PrintedInjective(x: LongLong, y: LongLong, base: nat, sign: bool)
    requires (base == 10 || base == 16) && Printed(x, base, sign) == Printed(y, base, sign)
    ensures x == y
  {
    PrintedRoundTrip(x, base, sign);
    PrintedRoundTrip(y, base, sign);
  }

  // ----- how much of the buffer it takes

  function Power(base: nat, n: nat): (r: nat) {
    if n == 0 then 1 else base * Power(base, n - 1)
  }

  /** n digits are enough exactly for the numbers below base^n. */
  lemma {:induction false} DigitsFit(x: nat, base: nat, n: nat)
    requires (base == 10 || base == 16) && n > 0
    ensures |Digits(x, base)| <= n <==> x < Power(base, n)
    decreases n
  {
    if n == 1 {
      assert Power(base, 1) == base * Power(base, 0);
    } else if x >= base {
      DigitsFit(x / base, base, n - 1);
    } else {
      PowerGrows(base, n);
    }
  }

  lemma {:induction false} PowerGrows(base: nat, n: nat)
    requires base >= 10 && n > 0
    ensures Power(base, n) >= base
  {
    if n > 1 { PowerGrows(base, n - 1); }
  }

  lemma Powers()
    ensures Power(10, 20) == 100_000_000_000_000_000_000
    ensures Power(10, 19) == 10_000_000_000_000_000_000
    ensures Power(16, 16) == TWO64
  {
    assert Power(10, 4) == 10_000;
    assert Power(10, 8) == 10_000 * Power(10, 4);
    assert Power(10, 12) == 10_000 * Power(10, 8);
    assert Power(10, 16) == 10_000 * Power(10, 12);
    assert Power(16, 4) == 0x1_0000;
    assert Power(16, 8) == 0x1_0000 * Power(16, 4);
    assert Power(16, 12) == 0x1_0000 * Power(16, 8);
  }

  /** The buffer of 20 characters is never overrun ... */
  lemma FitsBuffer(x: LongLong, base: nat, sign: bool)
    requires base == 10 || base == 16
    ensures |Printed(x, base, sign)| <= BUFFER
  {
    var m := Magnitude(x, sign);
    Powers();
    DigitsFit(m, 10, 20);
    DigitsFit(m, 10, 19);
    DigitsFit(m, 16, 16);
  }

  /** ... and it is filled completely exactly by these values. */
  lemma FillsBuffer(x: LongLong, base: nat, sign: bool)
    requires base == 10 || base == 16
    ensures |Printed(x, base, sign)| == BUFFER <==>
      base == 10 && if sign then x <= -1_000_000_000_000_000_000 else Unsigned(x) >= 10_000_000_000_000_000_000
  {
    var m := Magnitude(x, sign);
    Powers();
    FitsBuffer(x, base, sign);
    DigitsFit(m, 10, 19);
    DigitsFit(m, 16, 16);
    DigitsFit(m, 10, 18);
    assert Power(10, 19) == 10 * Power(10, 18);
  }

  // ----- the code

  function Reverse(s: string): (r: string)
    ensures |r| == |s|
  {
    if s == "" then "" else [s[|s| - 1]] + Reverse(s[..|s| - 1])
  }

  lemma {:induction false} ReverseAppend(s: string, c: char)
    ensures Reverse(s + [c]) == [c] + Reverse(s)
  {
    assert (s + [c])[..|s|] == s;
  }

  lemma LastDigit(x: nat, base: nat)
    requires base == 10 || base == 16
    ensures x / base == 0 <==> x < base
    ensures x < base ==> x % base == x
  {
    if base == 10 { assert x / 10 == 0 <==> x < 10; } else { assert x / 16 == 0 <==> x < 16; }
  }

  lemma Joined(a: string, d: char, b: string)
    ensures (a + [d]) + b == a + ([d] + b) && "" + b == b
  {
  }

  /** One turn of the conversion loop. */
  lemma TakeDigit(x: nat, base: nat, done: string)
    requires base == 10 || base == 16
    ensures Digits(x, base) + Reverse(done) ==
            (if x < base then "" else Digits(x / base, base)) + Reverse(done + [DIGITS[x % base]])
  {
    var d := DIGITS[x % base];
    LastDigit(x, base);
    ReverseAppend(done, d);
    if x < base {
      Joined("", d, Reverse(done));
      Joined("", d, [d] + Reverse(done));
    } else {
      Joined(Digits(x / base, base), d, Reverse(done));
    }
  }

  /** The conversion: the digits of x, least significant first; it stays within what `room` says the digits take. */
  method Convert(buf: array<char>, x0: Word, base: int) returns (i: nat)
    requires (base == 10 || base == 16) && |Digits(x0, base)| <= buf.Length
    modifies buf
    ensures i == |Digits(x0, base)| && Reverse(buf[..i]) == Digits(x0, base)
  {
    var x: Word := x0;
    i := 0;
    while true
      invariant i + |Digits(x, base)| <= buf.Length
      invariant Digits(x, base) + Reverse(buf[..i]) == Digits(x0, base)
      decreases x
    {
      TakeDigit(x, base, buf[..i]);
      LastDigit(x, base);
      ghost var done := buf[..i];
      buf[i] := DIGITS[x % base];
      assert buf[..i + 1] == done + [DIGITS[x % base]];
      i := i + 1;
      if x / base == 0 {
        assert "" + Reverse(buf[..i]) == Reverse(buf[..i]);
        return;
      }
      x := x / base;
    }
  }

  /** The second loop: it hands the buffered characters out last to first. */
  method Drain(buf: array<char>, n: nat) returns (out: string)
    requires n <= buf.Length
    ensures out == Reverse(buf[..n])
  {
    var i := n;
    out := "";
    while i > 0
      invariant 0 <= i <= n && out + Reverse(buf[..i]) == Reverse(buf[..n])
    {
      assert buf[..i][..i - 1] == buf[..i - 1];
      i := i - 1;
      out := out + [buf[i]];
    }
  }

  /** printint; the result is what goes to consputc, character by character. */
  method PrintInt(xx: LongLong, base: int, sign: bool) returns (out: string)
    requires base == 10 || base == 16
    ensures out == Printed(xx, base, sign)
  {
    var buf := new char[BUFFER];
    var neg := sign && xx < 0;
    var x: Word := if neg then (TWO64 - Unsigned(xx)) % TWO64 else Unsigned(xx);
    FitsBuffer(xx, base, sign);
    var i := Convert(buf, x, base);
    if neg {
      ghost var done := buf[..i];
      buf[i] := '-';
      assert buf[..i + 1] == done + ['-'];
      ReverseAppend(done, '-');
      i := i + 1;
    }
    out := Drain(buf, i);
  }
}
