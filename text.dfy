/** Decimal text: the `%d` rendering used by the shell's status lines and the
    `strtol(s, NULL, 10)` parsing used by the `bg`/`fg` builtins, followed by the
    conversion of its `long` result to a 32-bit `int` (the width of `pid_t` and,
    by assumption, of `jid_t`). */
module Text {

  predicate IsDigit(c: char) { '0' <= c <= '9' }

  /** The characters `isspace` accepts in the "C" locale: space, \t, \n, \v, \f, \r. */
  predicate IsSpace(c: char) { c == ' ' || '\t' <= c <= '\r' }

  predicate AllDigits(s: string) { forall i :: 0 <= i < |s| ==> IsDigit(s[i]) }

  function DigitValue(c: char): (d: nat)
    requires IsDigit(c)
    ensures d < 10
  {
    c as int - '0' as int
  }

  function DigitChar(d: nat): (c: char)
    requires d < 10
    ensures IsDigit(c) && DigitValue(c) == d
  {
    ('0' as int + d) as char
  }

  /** `%d` of a non-negative number: at least one digit, no leading zero. */
  function ShowNat(n: nat): (s: string)
    ensures |s| > 0 && AllDigits(s)
    ensures s[0] == '0' ==> n == 0
  {
    if n < 10 then [DigitChar(n)] else ShowNat(n / 10) + [DigitChar(n % 10)]
  }

  /** The number a run of decimal digits denotes (unbounded). */
  function DigitsValue(s: string): nat
    requires AllDigits(s)
  {
    if s == [] then 0 else 10 * DigitsValue(s[..|s| - 1]) + DigitValue(s[|s| - 1])
  }

  /** The longest prefix of `s` made of decimal digits. */
  function LeadingDigits(s: string): (p: string)
    ensures AllDigits(p) && p <= s
    ensures p == s || !IsDigit(s[|p|])
  {
    if s != [] && IsDigit(s[0]) then [s[0]] + LeadingDigits(s[1..]) else []
  }

  /** `s` without its leading white space. */
  function SkipSpaces(s: string): (r: string)
    ensures |r| <= |s| && r == s[|s| - |r|..]
    ensures r == [] || !IsSpace(r[0])
  {
    if s != [] && IsSpace(s[0]) then SkipSpaces(s[1..]) else s
  }

  const LongMax: int := 0x7FFF_FFFF_FFFF_FFFF
  const LongMin: int := -0x8000_0000_0000_0000
  const IntMax: int := 0x7FFF_FFFF
  const IntMin: int := -0x8000_0000
  const Modulus32: int := 0x1_0000_0000

  /** `strtol(s, NULL, 10)`: skip white space, take an optional sign, then the
      longest run of digits; no digits gives 0; a value outside `long` is
      clamped to LONG_MAX or LONG_MIN. */
  function StrToL(s: string): (r: int)
    ensures LongMin <= r <= LongMax
  {
    ClampLong(SignedValue(SkipSpaces(s)))
  }

  /** The value of an optional sign and the digits after it. */
  function SignedValue(u: string): int {
    if u != [] && u[0] == '-' then -(DigitsValue(LeadingDigits(u[1..])) as int)
    else if u != [] && u[0] == '+' then DigitsValue(LeadingDigits(u[1..]))
    else DigitsValue(LeadingDigits(u))
  }

  function ClampLong(v: int): (r: int)
    ensures LongMin <= r <= LongMax
    ensures LongMin <= v <= LongMax ==> r == v
  {
    if v < LongMin then LongMin else if v > LongMax then LongMax else v
  }

  /** Storing a `long` into a 32-bit `int` keeps the low 32 bits (two's complement). */
  function ToInt32(x: int): (r: int)
    ensures IntMin <= r <= IntMax
    ensures (x - r) % Modulus32 == 0
    ensures IntMin <= x <= IntMax ==> r == x
  {
    (x - IntMin) % Modulus32 + IntMin
  }

  lemma {:induction false} ValueOfShowNat(n: nat)
    ensures DigitsValue(ShowNat(n)) == n
  {
    var s := ShowNat(n);
    if n < 10 {
      assert s[..|s| - 1] == [];
    } else {
      assert s[..|s| - 1] == ShowNat(n / 10);
      ValueOfShowNat(n / 10);
    }
  }

  lemma {:induction false} LeadingDigitsOfNumber(d: string, rest: string)
    requires AllDigits(d)
    requires rest == [] || !IsDigit(rest[0])
    ensures LeadingDigits(d + rest) == d
  {
    if d != [] {
      assert (d + rest)[1..] == d[1..] + rest;
      LeadingDigitsOfNumber(d[1..], rest);
    } else {
      assert d + rest == rest;
    }
  }

  /** Parsing what `%d` printed gives the number back, whatever non-digit text follows. */
  lemma ParseShowNat(n: nat, rest: string)
    requires n <= LongMax
    requires rest == [] || !IsDigit(rest[0])
    ensures StrToL(ShowNat(n) + rest) == n
  {
    var d := ShowNat(n);
    var s := d + rest;
    assert s[0] == d[0];
    StrToLOfDigit(s);
    LeadingDigitsOfNumber(d, rest);
    ValueOfShowNat(n);
  }

  /** Text starting with a digit is read without skipping or a sign. */
  lemma StrToLOfDigit(s: string)
    requires s != [] && IsDigit(s[0])
    ensures StrToL(s) == ClampLong(DigitsValue(LeadingDigits(s)))
  {
    assert SkipSpaces(s) == s;
    assert SignedValue(s) == DigitsValue(LeadingDigits(s));
  }

  /** Text that does not start with white space, a sign or a digit parses as 0. */
  lemma ParseNoDigits(s: string)
    requires s == [] || (!IsSpace(s[0]) && !IsDigit(s[0]) && s[0] != '-' && s[0] != '+')
    ensures StrToL(s) == 0
  {
  }
}
