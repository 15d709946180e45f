/**
 * Decimal text of integers as the tracker puts it on the serial line
 * (`QString::number(v) + "\n"`) and reads it back from a port name's
 * suffix (`QString::toInt()`, base 10).
 */
module NumberText {

  const Int32Min: int := -0x8000_0000
  const Int32Max: int := 0x7fff_ffff

  /** The range of a C++ `int` on the platforms the program targets. */
  predicate InInt32(v: int) {
    Int32Min <= v <= Int32Max
  }

  predicate IsDigit(c: char) {
    '0' <= c <= '9'
  }

  predicate AllDigits(s: string) {
    forall i :: 0 <= i < |s| ==> IsDigit(s[i])
  }

  function DigitChar(d: nat): (c: char)
    requires d < 10
    ensures IsDigit(c) && DigitValue(c) == d
  {
    (('0' as int) + d) as char
  }

  function DigitValue(c: char): nat
    requires IsDigit(c)
  {
    c as int - '0' as int
  }

  /** The value of a run of decimal digits, most significant digit first. */
  function DigitsValue(s: string): nat
    requires AllDigits(s)
  {
    if s == [] then 0 else 10 * DigitsValue(s[..|s| - 1]) + DigitValue(s[|s| - 1])
  }

  /** The shortest decimal digits of `n`: never empty, and a leading zero only for zero itself. */
  function NatDigits(n: nat): (s: string)
    ensures |s| > 0 && AllDigits(s)
    ensures s[0] == '0' <==> n == 0
  {
    if n < 10 then [DigitChar(n)] else NatDigits(n / 10) + [DigitChar(n % 10)]
  }

  /** `QString::number(v)`: a minus sign for negative values, then the digits of the magnitude. */
  function Decimal(v: int): (s: string)
    ensures |s| > 0
    ensures s[0] == '-' <==> v < 0
    ensures AllDigits(if v < 0 then s[1..] else s)
  {
    if v < 0 then "-" + NatDigits(-v) else NatDigits(v)
  }

  /** One coordinate as written to the serial port: its decimal text and one newline. */
  function Payload(v: int): (p: string)
    ensures |p| > 1 && p[|p| - 1] == '\n'
    ensures forall i :: 0 <= i < |p| - 1 ==> p[i] != '\n'
    ensures p[..|p| - 1] == Decimal(v)
  {
    Decimal(v) + "\n"
  }

  /**
   * `QString::toInt()` in base 10, restricted to an optional sign followed by
   * decimal digits. Anything else, and a value that does not fit a 32-bit
   * `int`, reads as 0 (the value Qt returns when the conversion fails).
   */
  function ToInt(s: string): (r: int)
    ensures InInt32(r)
    ensures s == [] ==> r == 0
  {
    if |s| > 1 && (s[0] == '-' || s[0] == '+') && AllDigits(s[1..]) then
      var magnitude: int := DigitsValue(s[1..]);
      var v := if s[0] == '-' then -magnitude else magnitude;
      if InInt32(v) then v else 0
    else if |s| > 0 && AllDigits(s) then
      var v := DigitsValue(s);
      if v <= Int32Max then v else 0
    else
      0
  }

  lemma {:induction false} DigitsRoundTrip(n: nat)
    ensures DigitsValue(NatDigits(n)) == n
  {
    if n >= 10 {
      var prefix := NatDigits(n / 10);
      var s := prefix + [DigitChar(n % 10)];
      assert s[..|s| - 1] == prefix;
      DigitsRoundTrip(n / 10);
    }
  }

  /** Reading back what `QString::number` wrote gives the original 32-bit value. */
  lemma DecimalRoundTrip(v: int)
    requires InInt32(v)
    ensures ToInt(Decimal(v)) == v
  {
    if v < 0 {
      DigitsRoundTrip(-v);
      assert Decimal(v)[1..] == NatDigits(-v);
    } else {
      DigitsRoundTrip(v);
    }
  }

  /**
   * The wire format frames one value per line: the payload ends in its only
   * newline, and the text before it reads back as the value sent.
   */
  lemma PayloadRoundTrip(v: int)
    requires InInt32(v)
    ensures var p := Payload(v);
      |p| > 1 && p[|p| - 1] == '\n'
      && (forall i :: 0 <= i < |p| - 1 ==> p[i] != '\n')
      && ToInt(p[..|p| - 1]) == v
  {
    var p := Payload(v);
    assert p[..|p| - 1] == Decimal(v);
    DecimalRoundTrip(v);
  }
}
