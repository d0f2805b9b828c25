/**
 * Python's conversions between integers and decimal text: `str(n)` and
 * `int(s)` with base 10 (surrounding whitespace, an optional sign, and
 * single underscores between digits). Whitespace and digits are ASCII.
 */
module PyInt {
  import opened Wrappers

  predicate IsDigit(c: char) { 48 <= c as int <= 57 }

  function DigitValue(c: char): nat
    requires IsDigit(c)
  {
    c as int - 48
  }

  /** The ASCII characters `str.strip()` removes: tab, newline, vertical tab, form feed, carriage return, space. */
  predicate IsSpace(c: char) {
    c == ' ' || 9 <= c as int <= 13
  }

  function StripLeft(s: string): (r: string)
    ensures |r| <= |s|
    ensures r == [] || !IsSpace(r[0])
    decreases |s|
  {
    if s != [] && IsSpace(s[0]) then StripLeft(s[1..]) else s
  }

  function StripRight(s: string): (r: string)
    ensures |r| <= |s|
    ensures r == [] || !IsSpace(r[|r| - 1])
    decreases |s|
  {
    if s != [] && IsSpace(s[|s| - 1]) then StripRight(s[..|s| - 1]) else s
  }

  function Strip(s: string): string { StripRight(StripLeft(s)) }

  /** Digits, each `_` standing between two digits: `digit (["_"] digit)*`. */
  predicate ValidDigits(b: string) {
    b != [] && IsDigit(b[0]) && ValidTail(b[1..])
  }

  /** `(["_"] digit)*`. */
  predicate ValidTail(t: string)
    decreases |t|
  {
    t == []
    || (IsDigit(t[0]) && ValidTail(t[1..]))
    || (|t| >= 2 && t[0] == '_' && IsDigit(t[1]) && ValidTail(t[2..]))
  }

  /** The number the digits of `b` spell, underscores skipped. */
  function DigitsValue(b: string): nat
    decreases |b|
  {
    if b == [] then 0
    else if IsDigit(b[|b| - 1]) then DigitsValue(b[..|b| - 1]) * 10 + DigitValue(b[|b| - 1])
    else DigitsValue(b[..|b| - 1])
  }

  /** `int(s)`; `None` where Python raises `ValueError`. */
  function ParseInt(s: string): Option<int> {
    var t := Strip(s);
    if t != [] && (t[0] == '+' || t[0] == '-') then
      if ValidDigits(t[1..]) then Some(if t[0] == '-' then -(DigitsValue(t[1..]) as int) else DigitsValue(t[1..])) else None
    else if ValidDigits(t) then Some(DigitsValue(t))
    else None
  }

  function Digits(n: nat): (r: string)
    ensures r != [] && forall i :: 0 <= i < |r| ==> IsDigit(r[i])
    decreases n
  {
    (if n < 10 then "" else Digits(n / 10)) + ["0123456789"[n % 10]]
  }

  /** `str(n)`. */
  function Show(n: int): string {
    if n < 0 then "-" + Digits(-n) else Digits(n)
  }

  lemma {:induction false} DigitsValueOfDigits(n: nat)
    ensures DigitsValue(Digits(n)) == n
    decreases n
  {
    var d := Digits(n);
    var init := if n < 10 then "" else Digits(n / 10);
    assert d == init + ["0123456789"[n % 10]];
    assert d[..|d| - 1] == init;
    if n >= 10 {
      DigitsValueOfDigits(n / 10);
    }
    assert DigitValue("0123456789"[n % 10]) == n % 10;
  }

  lemma StripUnpadded(s: string)
    requires s != [] && !IsSpace(s[0]) && !IsSpace(s[|s| - 1])
    ensures Strip(s) == s
  {
    assert StripLeft(s) == s;
  }

  lemma {:induction false} DigitsValidTail(d: string)
    requires forall i :: 0 <= i < |d| ==> IsDigit(d[i])
    ensures ValidTail(d)
    decreases |d|
  {
    if d != [] {
      DigitsValidTail(d[1..]);
    }
  }

  lemma DigitsValid(d: string)
    requires d != [] && forall i :: 0 <= i < |d| ==> IsDigit(d[i])
    ensures ValidDigits(d)
  {
    DigitsValidTail(d[1..]);
  }

  lemma ParseDigits(m: nat)
    ensures ParseInt(Digits(m)) == Some(m)
  {
    var d := Digits(m);
    DigitsValueOfDigits(m);
    DigitsValid(d);
    StripUnpadded(d);
  }

  lemma ParseNegated(m: nat)
    ensures ParseInt("-" + Digits(m)) == Some(-(m as int))
  {
    var d := Digits(m);
    var t := "-" + d;
    DigitsValueOfDigits(m);
    DigitsValid(d);
    assert t[0] == '-' && t[1..] == d && t[|t| - 1] == d[|d| - 1];
    StripUnpadded(t);
    assert Strip(t) == t;
  }

  /** Reading back what `str` writes gives the number again. */
  lemma ParseShow(n: int)
    ensures ParseInt(Show(n)) == Some(n)
  {
    if n < 0 {
      var m: nat := -n;
      assert Show(n) == "-" + Digits(m);
      ParseNegated(m);
    } else {
      assert Show(n) == Digits(n);
      ParseDigits(n);
    }
  }

  /** `int` rejects an empty or blank string and a sign alone. */
  lemma RejectsNoDigits()
    ensures ParseInt("") == None && ParseInt("  ") == None && ParseInt("-") == None
  {
    assert StripLeft("  ") == "";
    assert StripLeft("-") == "-" && StripRight("-") == "-";
    assert "-"[1..] == "";
  }

  /** `int` rejects a leading, a trailing and a doubled underscore. */
  lemma RejectsStrayUnderscores()
    ensures ParseInt("_80") == None && ParseInt("80_") == None && ParseInt("8__0") == None
  {
    StripUnpadded("_80");
    StripUnpadded("80_");
    StripUnpadded("8__0");
    assert !ValidTail("__0") by {
      assert "__0"[1..] == "_0" && !IsDigit('_');
    }
    assert "8__0"[1..] == "__0";
  }

  lemma Value8080()
    ensures DigitsValue("8080") == 8080
  {
    assert "8080"[..3] == "808" && "808"[..2] == "80" && "80"[..1] == "8" && "8"[..0] == "";
  }

  /** `int` accepts surrounding whitespace. */
  lemma AcceptsPadding()
    ensures ParseInt(" 8080\n") == Some(8080)
  {
    assert StripLeft(" 8080\n") == StripLeft("8080\n") == "8080\n";
    assert StripRight("8080\n") == StripRight("8080") == "8080";
    DigitsValid("8080");
    Value8080();
  }

  /** `int` accepts a plus sign. */
  lemma AcceptsPlusSign()
    ensures ParseInt("+8080") == Some(8080)
  {
    StripUnpadded("+8080");
    assert "+8080"[1..] == "8080";
    DigitsValid("8080");
    Value8080();
  }

  /** `int` accepts an underscore between digits and skips it. */
  lemma AcceptsUnderscore()
    ensures ParseInt("8_080") == Some(8080)
  {
    StripUnpadded("8_080");
    DigitsValidTail("080");
    assert "8_080"[1..] == "_080" && "_080"[2..] == "80" && "080"[1..] == "80";
    assert "8_080"[..4] == "8_08" && "8_08"[..3] == "8_0" && "8_0"[..2] == "8_" && "8_"[..1] == "8" && "8"[..0] == "";
  }
}
