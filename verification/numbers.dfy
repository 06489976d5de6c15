/** Number text: Python's `str(int)` and `int(text)` written out for ASCII
    decimal text of any length (underscores, non-ASCII digits and the
    interpreter's limit on the number of digits are not modelled), and
    the floating-point conversions (`str(float)`, `float(text)`, `{:1.8e}`)
    kept abstract as parameters. */
module Numbers {
  import opened Results
  import opened Text

  predicate IsDigit(c: char) {
    '0' <= c <= '9'
  }

  function DigitChar(d: nat): (c: char)
    requires d < 10
    ensures IsDigit(c)
  {
    ('0' as int + d) as char
  }

  function DigitValue(c: char): (d: nat)
    requires IsDigit(c)
    ensures d < 10
  {
    c as int - '0' as int
  }

  /** Decimal digits of `n`, most significant first, without leading zeros. */
  function ShowNat(n: nat): (s: string)
    ensures s != []
    ensures forall i :: 0 <= i < |s| ==> IsDigit(s[i])
    decreases n
  {
    if n < 10 then [DigitChar(n)] else ShowNat(n / 10) + [DigitChar(n % 10)]
  }

  /** `str(n)` for a Python `int`. */
  function ShowInt(n: int): (s: string)
    ensures Trimmed(s)
    ensures forall i :: 0 <= i < |s| ==> IsDigit(s[i]) || (i == 0 && s[i] == '-')
  {
    if n < 0 then "-" + ShowNat(-n) else ShowNat(n)
  }

  /** The value of a string of decimal digits. */
  function DigitsValue(s: string): nat
    requires forall i :: 0 <= i < |s| ==> IsDigit(s[i])
    decreases |s|
  {
    if s == [] then 0 else DigitsValue(s[..|s| - 1]) * 10 + DigitValue(s[|s| - 1])
  }

  predicate AllDigits(s: string) {
    s != [] && forall i :: 0 <= i < |s| ==> IsDigit(s[i])
  }

  /** `int(text)`: surrounding whitespace is ignored, then an optional sign
      and at least one decimal digit; anything else raises `ValueError` (None). */
  function ParseInt(text: string): Option<int> {
    ParseIntToken(Strip(text))
  }

  /** `int()` on text that has no surrounding whitespace. */
  function ParseIntToken(t: string): Option<int> {
    if t == [] then None
    else if t[0] == '-' || t[0] == '+' then
      var ds := t[1..];
      if AllDigits(ds) then
        var v: int := DigitsValue(ds);
        Some(if t[0] == '-' then -v else v)
      else None
    else if AllDigits(t) then Some(DigitsValue(t))
    else None
  }

  lemma {:induction false} DigitsOfShowNat(n: nat)
    ensures DigitsValue(ShowNat(n)) == n
    decreases n
  {
    var s := ShowNat(n);
    if n >= 10 {
      assert s[..|s| - 1] == ShowNat(n / 10);
      DigitsOfShowNat(n / 10);
    }
  }

  /** `int()` reads back what `str()` wrote. */
  lemma ParseShowIntToken(n: int)
    ensures ParseIntToken(ShowInt(n)) == Some(n)
  {
    var t := ShowInt(n);
    if n < 0 {
      var ds := ShowNat(-n);
      assert t[1..] == ds;
      DigitsOfShowNat(-n);
    } else {
      assert AllDigits(t);
      DigitsOfShowNat(n);
    }
  }

  /** `int(w1 + str(n) + w2) == n` for any surrounding whitespace. */
  lemma ParseShowInt(w1: string, n: int, w2: string)
    requires AllSpace(w1) && AllSpace(w2)
    ensures ParseInt(w1 + ShowInt(n) + w2) == Some(n)
  {
    StripPadded(w1, ShowInt(n), w2);
    ParseShowIntToken(n);
  }

  /** The floating-point conversions, which this model does not interpret:
      `show` is `str(x)` (also what `"{:<8}"` pads), `scan` is `float(text)` on
      text already stripped of whitespace (None when it raises), and `exp8` is
      `"{:1.8e}".format(x)`. */
  datatype Floats = Floats(show: real -> string, scan: string -> Option<real>, exp8: real -> string)

  /** `float(text)`: whitespace around the number is ignored. */
  function ParseFloat(fl: Floats, text: string): Option<real> {
    fl.scan(Strip(text))
  }

  /** A float whose `str` form is one plain token that `float()` reads back
      exactly: no surrounding whitespace, no ',' or '=', no line break. */
  predicate ShowsPlainly(fl: Floats, x: real) {
    && Trimmed(fl.show(x))
    && ',' !in fl.show(x) && '=' !in fl.show(x) && '\n' !in fl.show(x) && '\r' !in fl.show(x)
    && fl.scan(fl.show(x)) == Some(x)
  }
}
