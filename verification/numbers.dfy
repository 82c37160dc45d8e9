/** Reading numbers back: `strtol` in base 10, against what `%d` prints. */
module Numbers {
  import opened Text

  const LONG_MAX := 0x7FFF_FFFF_FFFF_FFFF
  const INT_MAX := 0x7FFF_FFFF

  /** `isspace`. */
  predicate IsSpace(c: char) {
    c == ' ' || '\t' <= c <= '\r'
  }

  predicate IsDigit(c: char) {
    '0' <= c <= '9'
  }

  function Skip(s: string): (r: string) {
    if |s| > 0 && IsSpace(s[0]) then Skip(s[1..]) else s
  }

  /** The length of the digits `s` starts with. */
  function DigitRun(s: string): (n: nat)
    ensures n <= |s|
    ensures forall i | 0 <= i < n :: IsDigit(s[i])
    ensures n < |s| ==> !IsDigit(s[n])
  {
    if |s| > 0 && IsDigit(s[0]) then 1 + DigitRun(s[1..]) else 0
  }

  function DigitValue(c: char): nat {
    if IsDigit(c) then (c - '0') as int else 0
  }

  /** The number that digits stand for. */
  function ValueOf(digits: string): nat {
    if |digits| == 0 then 0 else 10 * ValueOf(digits[..|digits| - 1]) + DigitValue(digits[|digits| - 1])
  }

  /** What `strtol` reports: the value, whether there was a number at all, and whether it was out of range. */
  datatype Number = Number(value: int, found: bool, overflow: bool)

  /** `strtol` in base 10 with a 64-bit `long`. */
  function Strtol(s: string): Number {
    var t := Skip(s);
    var signed := |t| > 0 && (t[0] == '-' || t[0] == '+');
    var digits := if signed then t[1..] else t;
    var run := DigitRun(digits);
    var magnitude: int := ValueOf(digits[..run]);
    var value: int := if signed && t[0] == '-' then -magnitude else magnitude;
    if value > LONG_MAX then Number(LONG_MAX, run > 0, true)
    else if value < -LONG_MAX - 1 then Number(-LONG_MAX - 1, run > 0, true)
    else Number(value, run > 0, false)
  }

  /** A `long` assigned to an `int`. */
  function ToInt(t: int): (r: int)
    ensures -INT_MAX - 1 <= r <= INT_MAX
    ensures -INT_MAX - 1 <= t <= INT_MAX <==> r == t
    ensures (t - r) % 0x1_0000_0000 == 0
  {
    (t + INT_MAX + 1) % 0x1_0000_0000 - INT_MAX - 1
  }

  lemma DigitTable(d: nat)
    requires d < 10
    ensures IsDigit(Digit(d)) && DigitValue(Digit(d)) == d
  {
    assert Digit(d) == ('0' as int + d) as char;
  }

  /** A number printed is digits, and they stand for the number. */
  lemma {:induction false} DecimalReads(n: nat)
    ensures forall i | 0 <= i < |Decimal(n)| :: IsDigit(Decimal(n)[i])
    ensures ValueOf(Decimal(n)) == n
    decreases n
  {
    DigitTable(n % 10);
    if n < 10 {
      assert Decimal(n)[..0] == "";
      assert ValueOf("") == 0;
    } else {
      DecimalReads(n / 10);
      assert Decimal(n)[..|Decimal(n)| - 1] == Decimal(n / 10);
    }
  }

  /** A number below `10^k` prints as at most `k` digits. */
  lemma {:induction false} DecimalLength(n: nat, k: nat, limit: nat)
    requires k > 0 && limit == Power(k) && n < limit
    ensures |Decimal(n)| <= k
    decreases k
  {
    if n >= 10 {
      DecimalLength(n / 10, k - 1, limit / 10);
    }
  }

  function Power(k: nat): nat {
    if k == 0 then 1 else 10 * Power(k - 1)
  }

  lemma {:induction false} RunOfDigits(s: string, rest: string)
    requires forall i | 0 <= i < |s| :: IsDigit(s[i])
    requires rest == "" || !IsDigit(rest[0])
    ensures DigitRun(s + rest) == |s|
  {
    if |s| > 0 {
      assert (s + rest)[1..] == s[1..] + rest;
      RunOfDigits(s[1..], rest);
    } else {
      assert s + rest == rest;
    }
  }

  lemma SkipsNothing(s: string)
    requires |s| > 0 && IsDigit(s[0])
    ensures Skip(s) == s
  {
  }

  /** What `strtol` makes of digits, whatever follows that is none. */
  lemma StrtolOfDigits(s: string, rest: string)
    requires |s| > 0 && forall i | 0 <= i < |s| :: IsDigit(s[i])
    requires rest == "" || !IsDigit(rest[0])
    ensures Strtol(s + rest)
         == if ValueOf(s) > LONG_MAX then Number(LONG_MAX, true, true) else Number(ValueOf(s), true, false)
  {
    hide ValueOf, DigitRun, Skip;
    var t := s + rest;
    RunOfDigits(s, rest);
    assert t[0] == s[0];
    SkipsNothing(t);
    assert t[..|s|] == s;
  }

  /** What may stand in front of a number. */
  predicate AllBlank(s: string) {
    forall i | 0 <= i < |s| :: s[i] in {' ', '\t', '\n', '\U{0B}', '\U{0C}', '\r'}
  }

  lemma {:induction false} SkipsBlanks(blanks: string, s: string)
    requires AllBlank(blanks) && (s == "" || !IsSpace(s[0]))
    ensures Skip(blanks + s) == s
  {
    if blanks == "" {
      assert blanks + s == s;
    } else {
      assert (blanks + s)[0] == blanks[0] && (blanks + s)[1..] == blanks[1..] + s;
      SkipsBlanks(blanks[1..], s);
    }
  }

  lemma Parts(sign: string, digits: string, rest: string)
    requires sign in {"", "+", "-"} && forall i | 0 <= i < |digits| :: '0' <= digits[i] <= '9'
    requires rest == "" || !('0' <= rest[0] <= '9')
    requires sign == "" && digits == "" && rest != "" ==> rest[0] != '+' && rest[0] != '-' && !IsSpace(rest[0])
    ensures var t := sign + (digits + rest);
            var signed := |t| > 0 && (t[0] == '-' || t[0] == '+');
            var number := if signed then t[1..] else t;
            && (signed && t[0] == '-' <==> sign == "-")
            && DigitRun(number) == |digits| && number[..|digits|] == digits
  {
    hide DigitRun;
    var number := digits + rest;
    RunOfDigits(digits, rest);
    assert number[..|digits|] == digits;
    assert digits != "" ==> number[0] == digits[0];
    if sign == "" {
      assert sign + number == number;
      assert digits == "" ==> number == rest;
    } else {
      Sign(sign);
      assert (sign + number)[0] == sign[0] && (sign + number)[1..] == number;
    }
  }

  lemma NothingToSkip(sign: string, digits: string, rest: string)
    requires sign in {"", "+", "-"} && forall i | 0 <= i < |digits| :: '0' <= digits[i] <= '9'
    requires sign == "" && digits == "" && rest != "" ==> !IsSpace(rest[0])
    ensures var t := sign + (digits + rest); t == "" || !IsSpace(t[0])
  {
    var t := sign + (digits + rest);
    if sign != "" {
      Sign(sign);
      assert t[0] == sign[0];
    } else if digits != "" {
      assert t[0] == digits[0];
    } else {
      assert t == rest;
    }
  }

  /** What `strtol` makes of a sign and a run of digits. */
  lemma StrtolFrom(s: string, minus: bool, digits: string)
    requires var t := Skip(s);
             var signed := |t| > 0 && (t[0] == '-' || t[0] == '+');
             var number := if signed then t[1..] else t;
             && (signed && t[0] == '-' <==> minus)
             && DigitRun(number) == |digits| && number[..|digits|] == digits
    ensures var t := Strtol(s);
            var v: int := ValueOf(digits);
            var n := if minus then -v else v;
            && (t.found <==> |digits| > 0)
            && (t.overflow <==> n > LONG_MAX || n < -LONG_MAX - 1)
            && t.value == (if n > LONG_MAX then LONG_MAX else if n < -LONG_MAX - 1 then -LONG_MAX - 1 else n)
  {
    hide ValueOf, Skip, DigitRun;
  }

  /**
   `strtol` on blanks, a sign or none, digits and what follows them: the signed number, held at the ends of
   `long` if it lies outside, or no number if there are no digits.
   */
  lemma StrtolExactly(blanks: string, sign: string, digits: string, rest: string)
    requires AllBlank(blanks) && sign in {"", "+", "-"} && forall i | 0 <= i < |digits| :: '0' <= digits[i] <= '9'
    requires rest == "" || !('0' <= rest[0] <= '9')
    requires sign == "" && digits == "" && rest != "" ==> rest[0] != '+' && rest[0] != '-' && !IsSpace(rest[0])
    ensures var t := Strtol(blanks + (sign + (digits + rest)));
            var v: int := ValueOf(digits);
            var n := if sign == "-" then -v else v;
            && (t.found <==> digits != "")
            && (t.overflow <==> n > 0x7FFF_FFFF_FFFF_FFFF || n < -0x8000_0000_0000_0000)
            && t.value == (if n > 0x7FFF_FFFF_FFFF_FFFF then 0x7FFF_FFFF_FFFF_FFFF
                           else if n < -0x8000_0000_0000_0000 then -0x8000_0000_0000_0000 else n)
  {
    hide ValueOf, Skip, DigitRun, AllBlank, Strtol;
    var t := sign + (digits + rest);
    Parts(sign, digits, rest);
    NothingToSkip(sign, digits, rest);
    SkipsBlanks(blanks, t);
    StrtolFrom(blanks + t, sign == "-", digits);
  }

  lemma Sign(sign: string)
    requires sign in {"", "+", "-"}
    ensures sign != "" ==> |sign| == 1 && (sign[0] == '-' <==> sign == "-") && (sign[0] == '+' <==> sign == "+")
  {
  }

  /** `strtol` reads back what `%d` printed, whatever follows that is not a digit. */
  lemma StrtolReadsDecimal(n: nat, rest: string)
    requires n <= LONG_MAX && (rest == "" || !IsDigit(rest[0]))
    ensures Strtol(Decimal(n) + rest) == Number(n, true, false)
  {
    hide ValueOf, Strtol, Decimal;
    DecimalReads(n);
    StrtolOfDigits(Decimal(n), rest);
  }
}
