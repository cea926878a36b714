/** Task ids are `Date.now().toString()`: the current time value in
    milliseconds (an integer, negative for instants before 1970), written
    as a decimal numeral. The time value itself is an input here; this
    module models only its rendering as a string. */
module TimeIds {

  predicate IsDigit(c: char) {
    '0' <= c <= '9'
  }

  predicate AllDigits(s: string) {
    forall i :: 0 <= i < |s| ==> IsDigit(s[i])
  }

  function DigitChar(d: nat): (c: char)
    requires d < 10
    ensures IsDigit(c)
  {
    ('0' as int + d) as char
  }

  function DigitValue(c: char): (d: nat)
    requires IsDigit(c)
    ensures d < 10
  {
    c as int - '0' as int
  }

  /** `Number.prototype.toString()` of a non-negative integer: its decimal
      digits, most significant first, with no leading zero. */
  function DecimalString(n: nat): (s: string)
    ensures 1 <= |s| && (|s| == 1 <==> n < 10)
    ensures forall i :: 0 <= i < |s| ==> IsDigit(s[i])
    ensures s[0] == '0' ==> n == 0
  {
    if n < 10 then [DigitChar(n)] else DecimalString(n / 10) + [DigitChar(n % 10)]
  }

  /** Reads a string of decimal digits back as a number. */
  function DecimalValue(s: string): (n: nat)
    requires forall i :: 0 <= i < |s| ==> IsDigit(s[i])
  {
    if s == [] then 0 else 10 * DecimalValue(s[..|s| - 1]) + DigitValue(s[|s| - 1])
  }

  /** Reading the rendered id gives back the time value it was made from. */
  lemma {:induction false} DecimalRoundTrip(n: nat)
    ensures DecimalValue(DecimalString(n)) == n
  {
    var s := DecimalString(n);
    if n < 10 {
      assert s[..0] == [];
    } else {
      assert s[..|s| - 1] == DecimalString(n / 10);
      DecimalRoundTrip(n / 10);
    }
  }

  /** Two different time values never render to the same id. */
  lemma DecimalStringInjective(a: nat, b: nat)
    requires DecimalString(a) == DecimalString(b)
    ensures a == b
  {
    DecimalRoundTrip(a);
    DecimalRoundTrip(b);
  }

  /** `Number.prototype.toString()` of an integer time value: the decimal
      digits of its magnitude, preceded by '-' exactly when it is negative
      (never "-0", since only values below zero take the sign). */
  function TimeString(t: int): (s: string)
    ensures 1 <= |s| && (s[0] == '-' <==> t < 0)
    ensures t < 0 ==> 2 <= |s| && AllDigits(s[1..]) && s[1] != '0'
    ensures t >= 0 ==> AllDigits(s)
  {
    if t < 0 then "-" + DecimalString(-t) else DecimalString(t)
  }

  /** Reads a numeral with an optional leading '-' back as an integer. */
  function TimeValue(s: string): int
    requires AllDigits(s) || (s != [] && s[0] == '-' && AllDigits(s[1..]))
  {
    if s != [] && s[0] == '-' then -(DecimalValue(s[1..]) as int) else DecimalValue(s)
  }

  /** Reading an id back gives the time value it was made from, before 1970
      as well as after. */
  lemma TimeRoundTrip(t: int)
    ensures TimeValue(TimeString(t)) == t
  {
    if t < 0 {
      assert TimeString(t)[1..] == DecimalString(-t);
      DecimalRoundTrip(-t);
    } else {
      DecimalRoundTrip(t);
    }
  }

  /** Two different time values, of either sign, never give the same id. */
  lemma TimeStringInjective(a: int, b: int)
    requires TimeString(a) == TimeString(b)
    ensures a == b
  {
    TimeRoundTrip(a);
    TimeRoundTrip(b);
  }
}
