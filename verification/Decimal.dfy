/** Decimal text as `echo`, strconv.Itoa, strings.Trim and strconv.ParseInt(s, 10, 32) treat it. */
module Decimal {
  import opened Wrappers

  const MAX_INT32: int := 0x7fff_ffff
  const MIN_INT32: int := -0x8000_0000

  predicate IsDigit(c: char) {
    '0' <= c <= '9'
  }

  function DigitOf(c: char): nat
    requires IsDigit(c)
  {
    c as int - '0' as int
  }

  function DigitChar(d: nat): (c: char)
    requires d < 10
    ensures IsDigit(c) && DigitOf(c) == d
  {
    ('0' as int + d) as char
  }

  predicate AllDigits(s: string) {
    forall i :: 0 <= i < |s| ==> IsDigit(s[i])
  }

  function PrintNat(n: nat): (s: string)
    ensures s != [] && AllDigits(s)
  {
    if n < 10 then [DigitChar(n)] else PrintNat(n / 10) + [DigitChar(n % 10)]
  }

  /** strconv.Itoa. */
  function Itoa(n: int): string {
    if n < 0 then "-" + PrintNat(-n) else PrintNat(n)
  }

  function DigitsValue(s: string): nat
    requires AllDigits(s)
  {
    if s == [] then 0 else 10 * DigitsValue(s[..|s| - 1]) + DigitOf(s[|s| - 1])
  }

  /** strconv.ParseInt(s, 10, 32): an optional sign, then one or more digits, within the 32-bit range. */
  function ParseInt32(s: string): Option<int> {
    var signed := s != [] && (s[0] == '+' || s[0] == '-');
    var digits := if signed then s[1..] else s;
    if digits == [] || !AllDigits(digits) then None
    else
      var v: int := DigitsValue(digits);
      var n := if signed && s[0] == '-' then -v else v;
      if MIN_INT32 <= n <= MAX_INT32 then Some(n) else None
  }

  predicate InCutset(c: char) {
    c == '\n' || c == ' '
  }

  function TrimLeft(s: string): string {
    if s != [] && InCutset(s[0]) then TrimLeft(s[1..]) else s
  }

  function TrimRight(s: string): string {
    if s != [] && InCutset(s[|s| - 1]) then TrimRight(s[..|s| - 1]) else s
  }

  /** strings.Trim(s, "\n "). */
  function Trim(s: string): string {
    TrimRight(TrimLeft(s))
  }

  /** What `echo n` leaves in a file. */
  function EchoLine(n: nat): string {
    PrintNat(n) + "\n"
  }

  /** The reader both polling functions apply to a pid or an exit file. */
  function ReadNumber(content: string): Option<int> {
    ParseInt32(Trim(content))
  }

  lemma {:induction false} DigitsValueOfPrint(n: nat)
    ensures DigitsValue(PrintNat(n)) == n
  {
    if n >= 10 {
      DigitsValueOfPrint(n / 10);
      assert PrintNat(n)[..|PrintNat(n)| - 1] == PrintNat(n / 10);
    } else {
      assert PrintNat(n)[..0] == [];
    }
  }

  /**
   * A number that the script echoed into a file is read back as itself exactly when it fits a signed
   * 32-bit integer; otherwise the reader reports an error.
   */
  lemma EchoReadBack(n: nat)
    ensures ReadNumber(EchoLine(n)) == if n <= 0x7fff_ffff then Some(n) else None
  {
    var p := PrintNat(n);
    assert !InCutset(p[0]) && !InCutset(p[|p| - 1]);
    assert TrimLeft(EchoLine(n)) == EchoLine(n) by { assert EchoLine(n)[0] == p[0]; }
    assert EchoLine(n)[..|EchoLine(n)| - 1] == p;
    assert TrimRight(EchoLine(n)) == TrimRight(p) == p;
    DigitsValueOfPrint(n);
    assert p[0] != '+' && p[0] != '-' by { assert IsDigit(p[0]); }
  }

  /** What strconv.Itoa prints of a number is read back as that number if and only if it fits 32 bits signed. */
  lemma {:induction false} ItoaReadBack(n: int)
    ensures ParseInt32(Itoa(n)) == if -0x8000_0000 <= n <= 0x7fff_ffff then Some(n) else None
  {
    var digits := PrintNat(if n < 0 then -n else n);
    DigitsValueOfPrint(if n < 0 then -n else n);
    assert IsDigit(digits[0]);
    if n < 0 {
      assert ("-" + digits)[1..] == digits;
    }
  }

  /** Nothing but newlines and blanks. */
  predicate AllPadding(s: string) {
    forall i :: 0 <= i < |s| ==> s[i] == '\n' || s[i] == ' '
  }

  lemma {:induction false} PaddingLeft(pad: string, s: string)
    requires AllPadding(pad) && s != "" && IsDigit(s[0])
    ensures TrimLeft(pad + s) == s
  {
    if pad != "" {
      assert (pad + s)[1..] == pad[1..] + s;
      PaddingLeft(pad[1..], s);
    } else {
      assert pad + s == s;
    }
  }

  lemma {:induction false} PaddingRight(s: string, pad: string)
    requires AllPadding(pad) && s != "" && IsDigit(s[|s| - 1])
    ensures TrimRight(s + pad) == s
  {
    if pad != "" {
      assert (s + pad)[..|s + pad| - 1] == s + pad[..|pad| - 1];
      PaddingRight(s, pad[..|pad| - 1]);
    } else {
      assert s + pad == s;
    }
  }

  /** Newlines and blanks around a number do not matter, on either side. */
  lemma {:induction false} PaddedReadBack(left: string, n: nat, right: string)
    requires AllPadding(left) && AllPadding(right)
    ensures ReadNumber(left + (PrintNat(n) + right)) == if n <= 0x7fff_ffff then Some(n) else None
  {
    var p := PrintNat(n);
    assert IsDigit(p[0]) && IsDigit(p[|p| - 1]) && (p + right)[0] == p[0];
    PaddingLeft(left, p + right);
    PaddingRight(p, right);
    DigitsValueOfPrint(n);
  }

  /** A file that is still empty never reads as a number. */
  lemma EmptyReadsAsError()
    ensures ReadNumber("").None?
  {
  }
}
