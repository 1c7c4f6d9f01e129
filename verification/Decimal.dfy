/**
 Decimal rendering: the integers inside period keys (`t.Format`, `fmt.Sprintf`) and the two-decimal
 amounts on the wire (`strconv.FormatFloat(v, 'f', 2, 64)` read back by `strconv.ParseFloat`), with
 amounts held as whole cents.
 */
module Decimal {

  datatype Option<+T> = None | Some(value: T)

  predicate IsDigit(c: char) { '0' <= c <= '9' }

  function DigitChar(d: nat): (c: char)
    requires d < 10
    ensures IsDigit(c) && DigitValue(c) == d
  {
    (48 + d) as char
  }

  function DigitValue(c: char): (d: nat)
    requires IsDigit(c)
    ensures d < 10
  {
    (c as int) - 48
  }

  predicate IsNumeral(s: string) {
    s != "" && forall i :: 0 <= i < |s| ==> IsDigit(s[i])
  }

  /** The number a numeral denotes, leading zeros allowed. */
  function Value(s: string): nat
    requires forall i :: 0 <= i < |s| ==> IsDigit(s[i])
  {
    if s == "" then 0 else 10 * Value(s[..|s| - 1]) + DigitValue(s[|s| - 1])
  }

  function Digits(n: nat): (s: string)
    ensures IsNumeral(s) && Value(s) == n
    ensures n < 10 ==> |s| == 1
    ensures n < 100 ==> |s| <= 2
  {
    if n < 10 then
      var s := [DigitChar(n)];
      assert s[..0] == "";
      s
    else
      var s := Digits(n / 10) + [DigitChar(n % 10)];
      assert s[..|s| - 1] == Digits(n / 10);
      s
  }

  lemma {:induction false} LeadingZero(s: string)
    requires forall i :: 0 <= i < |s| ==> IsDigit(s[i])
    ensures Value("0" + s) == Value(s)
  {
    var z := "0" + s;
    if s == "" {
      assert z[..0] == "";
    } else {
      LeadingZero(s[..|s| - 1]);
      assert z[..|z| - 1] == "0" + s[..|s| - 1];
    }
  }

  /** Zero-padding on the left to a minimum width, as `%0*d` does. */
  function Padded(s: string, width: nat): (r: string)
    requires IsNumeral(s)
    ensures IsNumeral(r) && Value(r) == Value(s) && |r| >= width
    ensures |s| <= width ==> |r| == width
    decreases width - |s|
  {
    if |s| >= width then s else
      LeadingZero(s);
      Padded("0" + s, width)
  }

  /** A two-digit field. */
  function Pad2(n: nat): (s: string)
    requires n < 100
    ensures IsNumeral(s) && Value(s) == n && |s| == 2
  {
    Padded(Digits(n), 2)
  }

  /** An integer with a sign and a minimum digit width. */
  function IntField(n: int, width: nat): (s: string)
    ensures n >= 0 ==> IsNumeral(s) && Value(s) == n
    ensures n < 0 ==> s != "" && s[0] == '-' && IsNumeral(s[1..]) && Value(s[1..]) == -n
  {
    if n < 0 then "-" + Padded(Digits(-n), width) else Padded(Digits(n), width)
  }

  /** A year up to 9999 takes four digits. */
  lemma FourDigits(n: nat)
    ensures n <= 9999 ==> |IntField(n, 4)| == 4 && |Digits(n)| <= 4
  {
    if 100 <= n <= 9999 {
      assert n / 10 / 10 < 100 && |Digits(n)| == |Digits(n / 10 / 10)| + 2;
    }
  }

  lemma FieldNonempty(n: int, width: nat)
    ensures IntField(n, width) != ""
  {
  }

  lemma IntFieldInjective(a: int, b: int, width: nat)
    requires IntField(a, width) == IntField(b, width)
    ensures a == b
  {
    var s := IntField(a, width);
    assert a < 0 <==> s[0] == '-';
  }

  /** `FormatFloat(v, 'f', 2, 64)` on a whole number of cents. */
  function FormatCents(c: int): string {
    var a := if c < 0 then -c else c;
    (if c < 0 then "-" else "") + Digits(a / 100) + "." + Pad2(a % 100)
  }

  /** The fixed-point numerals among what `ParseFloat` accepts; None stands for its error. */
  function ParseCents(s: string): Option<int> {
    var negative := s != "" && s[0] == '-';
    match ParseUnsigned(if negative then s[1..] else s)
    case Some(v) => Some(if negative then -v else v)
    case None => None
  }

  function ParseUnsigned(s: string): Option<int> {
    if |s| >= 4 && s[|s| - 3] == '.' && IsNumeral(s[..|s| - 3]) && IsNumeral(s[|s| - 2..]) then
      Some(100 * Value(s[..|s| - 3]) + Value(s[|s| - 2..]))
    else
      None
  }

  /** Publishing a partial and parsing it back loses nothing. */
  lemma CentsRoundTrip(c: int)
    ensures ParseCents(FormatCents(c)) == Some(c)
  {
    hide Digits, Pad2, Value;
    var a := if c < 0 then -c else c;
    var whole, frac := Digits(a / 100), Pad2(a % 100);
    var u := whole + "." + frac;
    assert u[..|u| - 3] == whole && u[|u| - 2..] == frac;
    assert ParseUnsigned(u) == Some(a);
    if c < 0 {
      assert FormatCents(c)[1..] == u;
    } else {
      assert FormatCents(c) == u;
    }
  }
}
