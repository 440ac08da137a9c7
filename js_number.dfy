/** The part of JavaScript's number semantics the pipeline touches: `Number(s)` on a
    decimal numeral, `String(n)` on an integer, `+` with NaN, and digit extraction
    (`replace(/[^0-9]/g, "")`). Numbers are integers; fractions and exponents are not modelled. */
module JsNumber {

  import opened Base
  import opened Text

  /** A JavaScript number as the pipeline sees it: an integer value, or NaN. */
  datatype Num = Finite(value: int) | NaN

  /** JavaScript `a + b`: NaN absorbs everything, otherwise the ordinary sum. */
  function Add(a: Num, b: Num): (r: Num)
    ensures r.NaN? <==> a.NaN? || b.NaN?
    ensures r.Finite? ==> r.value == a.value + b.value
  {
    match (a, b)
    case (Finite(x), Finite(y)) => Finite(x + y)
    case _ => NaN
  }

  predicate IsDigit(c: char) {
    '0' <= c <= '9'
  }

  predicate AllDigits(s: string) {
    forall i :: 0 <= i < |s| ==> IsDigit(s[i])
  }

  /** The value of a string of decimal digits, read left to right (leading zeros allowed). */
  function DigitsValue(s: string): nat
    requires AllDigits(s)
  {
    if s == [] then 0 else DigitsValue(s[..|s| - 1]) * 10 + (s[|s| - 1] as int - '0' as int)
  }

  function Digit(d: nat): (c: char)
    requires d < 10
    ensures IsDigit(c) && c as int - '0' as int == d
  {
    ('0' as int + d) as char
  }

  /** `String(n)` for a natural number: its decimal numeral, without leading zeros. */
  function NatToString(n: nat): (r: string)
    ensures r != [] && AllDigits(r)
    ensures DigitsValue(r) == n
    ensures n > 0 ==> r[0] != '0'
  {
    if n < 10 then [Digit(n)]
    else
      var r := NatToString(n / 10) + [Digit(n % 10)];
      assert r[..|r| - 1] == NatToString(n / 10);
      r
  }

  /** `String(n)` for an integer: a minus sign before the numeral of a negative number. */
  function IntToString(n: int): (r: string)
    ensures r != []
  {
    if n < 0 then "-" + NatToString(-n) else NatToString(n)
  }

  /** `s.replace(/[^0-9]/g, "")`. */
  function KeepDigits(s: string): (r: string)
    ensures AllDigits(r)
  {
    Keep(s, IsDigit)
  }

  /** The strings `Number(s)` turns into an integer: empty, or an optional sign followed by digits. */
  predicate IsNumeral(s: string) {
    s == "" || AllDigits(s) || ((s[0] == '+' || s[0] == '-') && |s| > 1 && AllDigits(s[1..]))
  }

  /** JavaScript `Number(s)` on text that is, once trimmed, a decimal integer numeral (the empty
      text reads as 0); `None` stands for NaN. */
  function ToNumber(s: string): (r: Option<int>)
    ensures r.Some? <==> IsNumeral(Trim(s))
    ensures Trim(s) == "" ==> r == Some(0)
  {
    var t := Trim(s);
    if t == "" then Some(0)
    else if AllDigits(t) then Some(DigitsValue(t))
    else if (t[0] == '+' || t[0] == '-') && |t| > 1 && AllDigits(t[1..]) then
      var v: int := DigitsValue(t[1..]);
      Some(if t[0] == '-' then -v else v)
    else None
  }

  /** On a numeral without surrounding white space, `Number` gives the numeral's value. */
  lemma ToNumberOfDigits(s: string)
    requires s != [] && AllDigits(s)
    ensures ToNumber(s) == Some(DigitsValue(s))
  {
    assert !IsJsSpace(s[0]) && !IsJsSpace(s[|s| - 1]);
    TrimUnchanged(s);
  }

  /** A minus sign before the digits negates the value. */
  lemma ToNumberOfNegative(s: string)
    requires s != [] && AllDigits(s)
    ensures ToNumber("-" + s) == Some(-(DigitsValue(s) as int))
  {
    var m := "-" + s;
    assert m[1..] == s && m[|m| - 1] == s[|s| - 1];
    assert !IsJsSpace(m[0]) && !IsJsSpace(m[|m| - 1]);
    TrimUnchanged(m);
    assert !IsDigit(m[0]);
  }

  /** A plus sign before the digits keeps the value. */
  lemma ToNumberOfPositive(s: string)
    requires s != [] && AllDigits(s)
    ensures ToNumber("+" + s) == Some(DigitsValue(s))
  {
    var m := "+" + s;
    assert m[1..] == s && m[|m| - 1] == s[|s| - 1];
    assert !IsJsSpace(m[0]) && !IsJsSpace(m[|m| - 1]);
    TrimUnchanged(m);
    assert !IsDigit(m[0]);
  }

  /** White space around a text is ignored: `Number(" 12\t")` reads as `Number("12")`. */
  lemma ToNumberPadded(pre: string, s: string, post: string)
    requires AllJsSpace(pre) && AllJsSpace(post)
    requires s == [] || (!IsJsSpace(s[0]) && !IsJsSpace(s[|s| - 1]))
    ensures ToNumber(pre + s + post) == ToNumber(s)
  {
    TrimPadded(pre, s, post);
    TrimUnchanged(s);
  }

  /** Reading back what `String(n)` wrote gives `n` again. */
  lemma ParseIntToString(n: int)
    ensures ToNumber(IntToString(n)) == Some(n)
  {
    if n < 0 {
      ToNumberOfNegative(NatToString(-n));
    } else {
      ToNumberOfDigits(NatToString(n));
    }
  }

  /** Deleting every non-digit of `String(n)` leaves the numeral of `|n|`. */
  lemma DigitsOfIntToString(n: int)
    ensures KeepDigits(IntToString(n)) == NatToString(if n < 0 then -n else n)
  {
    var m := if n < 0 then -n else n;
    KeepUnchanged(NatToString(m), IsDigit);
    if n < 0 {
      KeepAppend("-", NatToString(m), IsDigit);
      assert Keep("-", IsDigit) == [];
    }
  }

  /** Hence `Number(String(n).replace(/[^0-9]/g, ""))` is the absolute value of `n`. */
  lemma DigitsValueOfIntToString(n: int)
    ensures DigitsValue(KeepDigits(IntToString(n))) == if n < 0 then -n else n
  {
    DigitsOfIntToString(n);
  }
}
