/** Conversions between integers and their decimal text: JavaScript `Number(s)` on a
    query-string value, `String(n)` / template interpolation of an integer, and the
    text SQLite stores when a number is bound to a TEXT column. */
module Numbers {
  import Strings

  predicate IsDigit(c: char) {
    '0' <= c <= '9'
  }

  predicate AllDigits(s: string) {
    forall i :: 0 <= i < |s| ==> IsDigit(s[i])
  }

  function DigitChar(d: nat): (c: char)
    requires d < 10
    ensures IsDigit(c)
  {
    ('0' as int + d) as char
  }

  /** The shortest decimal text of `n`, most significant digit first. */
  function NatToString(n: nat): (r: string)
    ensures |r| >= 1 && AllDigits(r)
    ensures |r| > 1 ==> r[0] != '0'
    decreases n
  {
    if n < 10 then [DigitChar(n)]
    else NatToString(n / 10) + [DigitChar(n % 10)]
  }

  /** JavaScript `String(n)` for an integer. */
  function IntToString(n: int): (r: string)
    ensures |r| >= 1
    ensures r[0] == '-' <==> n < 0
  {
    if n < 0 then "-" + NatToString(-n) else NatToString(n)
  }

  /** The value of a string of decimal digits. */
  function DigitsValue(s: string): nat
    requires AllDigits(s)
  {
    if |s| == 0 then 0
    else 10 * DigitsValue(s[..|s| - 1]) + (s[|s| - 1] as int - '0' as int)
  }

  lemma {:induction false} DigitsValueOfNatToString(n: nat)
    ensures DigitsValue(NatToString(n)) == n
    decreases n
  {
    if n >= 10 {
      DigitsValueOfNatToString(n / 10);
      var s := NatToString(n);
      assert s[..|s| - 1] == NatToString(n / 10);
    }
  }

  /** A JavaScript number read from text: an integer or `NaN`. */
  datatype Number = NaN | Num(n: int) {
    /** JavaScript truthiness: `NaN` and `0` are falsy. */
    predicate Truthy() {
      Num? && n != 0
    }
  }

  /** JavaScript `Number(s)`: surrounding whitespace is ignored, the empty string is 0,
      an optionally signed run of decimal digits is its value, anything else is NaN. */
  function ToNumber(s: string): (r: Number)
    ensures Strings.Trim(s) == "" ==> r == Num(0)
  {
    var t := Strings.Trim(s);
    if t == "" then Num(0)
    else if AllDigits(t) then Num(DigitsValue(t))
    else if (t[0] == '-' || t[0] == '+') && |t| > 1 && AllDigits(t[1..]) then
      var v: int := DigitsValue(t[1..]);
      Num(if t[0] == '-' then -v else v)
    else NaN
  }

  /** A text that starts and ends with a non-space character is its own trim. */
  lemma TrimUnchanged(s: string)
    requires |s| > 0 && !Strings.IsSpace(s[0]) && !Strings.IsSpace(s[|s| - 1])
    ensures Strings.Trim(s) == s
  {
    assert Strings.TrimStartBy(s, Strings.IsSpace) == s;
    assert Strings.TrimEndBy(s, Strings.IsSpace) == s;
  }

  /** `Number(String(n)) === n`: reading an integer's text gives the integer back. */
  lemma ToNumberOfIntToString(n: int)
    ensures ToNumber(IntToString(n)) == Num(n)
  {
    var s := IntToString(n);
    TrimUnchanged(s);
    if n < 0 {
      var d := NatToString(-n);
      assert s == "-" + d && s[1..] == d;
      assert !AllDigits(s) by { assert !IsDigit(s[0]); }
      DigitsValueOfNatToString(-n);
    } else {
      DigitsValueOfNatToString(n);
    }
  }
}
