/**
 * JavaScript's `parseInt(text)` with no radix argument, and the decimal
 * text of an integer as a number input or a template literal writes it.
 */
module JsNumber {
  import opened Wrappers
  import opened Text

  function DigitValue(c: char, radix: nat): (r: Option<nat>)
    requires radix == 10 || radix == 16
    ensures r.Some? ==> r.value < radix
  {
    if radix == 16 then HexValue(c)
    else if '0' <= c <= '9' then Some(c as int - '0' as int)
    else None
  }

  /** The length of the run of digits at the front of `s`. */
  function LeadingDigits(s: string, radix: nat): (n: nat)
    requires radix == 10 || radix == 16
    ensures n <= |s|
    ensures forall i :: 0 <= i < n ==> DigitValue(s[i], radix).Some?
    ensures n < |s| ==> DigitValue(s[n], radix).None?
  {
    if s == [] || DigitValue(s[0], radix).None? then 0 else 1 + LeadingDigits(s[1..], radix)
  }

  /** The value of a run of digits, most significant first. */
  function DigitsValue(d: string, radix: nat): nat
    requires radix == 10 || radix == 16
    requires forall i :: 0 <= i < |d| ==> DigitValue(d[i], radix).Some?
  {
    if d == [] then 0
    else DigitsValue(d[..|d| - 1], radix) * radix + DigitValue(d[|d| - 1], radix).value
  }

  /** The value of the run of digits at the front of `s`, or `None` when it is empty. */
  function DigitRun(s: string, radix: nat): Option<nat>
    requires radix == 10 || radix == 16
  {
    var n := LeadingDigits(s, radix);
    if n == 0 then None else Some(DigitsValue(s[..n], radix))
  }

  /** The unsigned part: a "0x" or "0X" prefix switches to hexadecimal. */
  function ParseMagnitude(u: string): Option<nat> {
    if |u| >= 2 && u[0] == '0' && (u[1] == 'x' || u[1] == 'X') then DigitRun(u[2..], 16)
    else DigitRun(u, 10)
  }

  function Negate(m: Option<nat>): Option<int> {
    match m
    case None => None
    case Some(v) => Some(-(v as int))
  }

  /**
   * `parseInt(text)`: leading whitespace is skipped, then an optional sign,
   * then the magnitude; `None` is NaN, when there is no digit to read.
   */
  function ParseInt(text: string): (r: Option<int>)
    ensures TrimStart(text) == "" ==> r.None?
    ensures r.Some? && r.value < 0 ==> TrimStart(text)[0] == '-'
  {
    var t := TrimStart(text);
    if t != [] && t[0] == '-' then Negate(ParseMagnitude(t[1..]))
    else if t != [] && t[0] == '+' then ParseMagnitude(t[1..])
    else ParseMagnitude(t)
  }

  function DigitChar(d: nat): char
    requires d < 10
  {
    ('0' as int + d) as char
  }

  /** The decimal digits of a natural number, without leading zeros. */
  function NatText(n: nat): (r: string)
    ensures |r| >= 1
    ensures forall i :: 0 <= i < |r| ==> DigitValue(r[i], 10).Some?
  {
    if n < 10 then [DigitChar(n)] else NatText(n / 10) + [DigitChar(n % 10)]
  }

  /** `${n}` for an integer. */
  function IntText(n: int): string {
    if n < 0 then "-" + NatText(-n) else NatText(n)
  }

  lemma {:induction false} NatTextValue(n: nat)
    ensures DigitsValue(NatText(n), 10) == n
  {
    if n >= 10 {
      NatTextValue(n / 10);
      var r := NatText(n);
      assert r[..|r| - 1] == NatText(n / 10);
    }
  }

  lemma RunOfDigits(s: string, radix: nat)
    requires radix == 10 || radix == 16
    requires s != [] && forall i :: 0 <= i < |s| ==> DigitValue(s[i], radix).Some?
    ensures DigitRun(s, radix) == Some(DigitsValue(s, radix))
  {
    var n := LeadingDigits(s, radix);
    assert n == |s|;
    assert s[..n] == s;
  }

  lemma MagnitudeText(m: nat)
    ensures ParseMagnitude(NatText(m)) == Some(m)
  {
    var digits := NatText(m);
    assert !(|digits| >= 2 && digits[0] == '0' && (digits[1] == 'x' || digits[1] == 'X')) by {
      if |digits| >= 2 {
        assert DigitValue(digits[1], 10).Some?;
      }
    }
    RunOfDigits(digits, 10);
    NatTextValue(m);
  }

  /** `parseInt` reads back the decimal text of every integer. */
  lemma ParseIntText(n: int)
    ensures ParseInt(IntText(n)) == Some(n)
  {
    var s := IntText(n);
    var m := if n < 0 then -n else n;
    var digits := NatText(m);
    MagnitudeText(m);
    assert s[0] == '-' || DigitValue(s[0], 10).Some?;
    assert TrimStart(s) == s;
    if n < 0 {
      assert s[1..] == digits;
    }
  }
}
