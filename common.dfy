/** Small value types and text conversions shared by the services: an optional value, Python's
    truthiness of an optional string, `str(n)` for integers and `int(s)` for decimal text. */
module Common {

  datatype Option<+T> = None | Some(value: T)

  /** What a web endpoint produces: a value, or an `HTTPException` with its status and detail. */
  datatype Http<+T> = Success(value: T) | HttpError(status: int, detail: string)

  /** Python's `if s:` on an `Optional[str]`: neither None nor the empty string. */
  predicate Present(s: Option<string>) {
    s.Some? && s.value != ""
  }

  predicate IsDigit(c: char) {
    '0' <= c <= '9'
  }

  predicate AllDigits(s: string) {
    forall i :: 0 <= i < |s| ==> IsDigit(s[i])
  }

  function DigitChar(d: nat): (c: char)
    requires d < 10
    ensures IsDigit(c) && (c as int) - ('0' as int) == d
  {
    ('0' as int + d) as char
  }

  function DigitValue(c: char): (d: nat)
    requires IsDigit(c)
    ensures d < 10 && DigitChar(d) == c
  {
    (c as int) - ('0' as int)
  }

  /** Decimal digits of a natural number, most significant first, without leading zeros. */
  function NatString(n: nat): (r: string)
    ensures r != [] && AllDigits(r)
    ensures r[0] == '0' ==> n == 0
    decreases n
  {
    if n < 10 then [DigitChar(n)] else NatString(n / 10) + [DigitChar(n % 10)]
  }

  /** Python's `str(n)` (and JavaScript's `String(n)`) for an integer. */
  function DecimalString(n: int): (r: string)
    ensures r != []
  {
    if n < 0 then "-" + NatString(-n) else NatString(n)
  }

  /** The value of a run of decimal digits. */
  function DigitsValue(s: string): nat
    requires AllDigits(s)
  {
    if s == [] then 0 else DigitsValue(s[..|s| - 1]) * 10 + DigitValue(s[|s| - 1])
  }

  /** The whitespace that Python's `int()` ignores around a number. In ASCII that is space
      and `\t\n\v\f\r` only; beyond ASCII it is what `str.isspace` accepts, since those
      characters are turned into spaces before the number is read. */
  predicate IsSpace(c: char) {
    c == ' ' || c == '\t' || c == '\n' || c == '\r' || c == '\U{B}' || c == '\U{C}' ||
    c == '\U{85}' || c == '\U{A0}' || c == '\U{1680}' ||
    ('\U{2000}' <= c <= '\U{200A}') || c == '\U{2028}' || c == '\U{2029}' || c == '\U{202F}' ||
    c == '\U{205F}' || c == '\U{3000}'
  }

  function TrimLeft(s: string): (r: string)
    ensures |r| <= |s|
    ensures r != [] ==> !IsSpace(r[0])
  {
    if s != [] && IsSpace(s[0]) then TrimLeft(s[1..]) else s
  }

  function TrimRight(s: string): (r: string)
    ensures |r| <= |s|
    ensures r != [] ==> !IsSpace(r[|r| - 1])
  {
    if s != [] && IsSpace(s[|s| - 1]) then TrimRight(s[..|s| - 1]) else s
  }

  /** Trimming on the left removes a prefix of whitespace and nothing else. */
  lemma {:induction false} TrimLeftSuffix(s: string)
    ensures var r := TrimLeft(s);
      r == s[|s| - |r|..] && forall i :: 0 <= i < |s| - |r| ==> IsSpace(s[i])
    decreases |s|
  {
    if s != [] && IsSpace(s[0]) {
      TrimLeftSuffix(s[1..]);
    }
  }

  /** Trimming on the right removes a suffix of whitespace and nothing else. */
  lemma {:induction false} TrimRightPrefix(s: string)
    ensures var r := TrimRight(s);
      r == s[..|r|] && forall i :: |r| <= i < |s| ==> IsSpace(s[i])
    decreases |s|
  {
    if s != [] && IsSpace(s[|s| - 1]) {
      TrimRightPrefix(s[..|s| - 1]);
    }
  }

  /** ASCII control characters other than `\t\n\v\f\r` are not stripped: `int()` rejects
      "\x1c5" and "5\x1f", while spaces and tabs around the digits are ignored. */
  lemma LeadingSeparatorRejected()
    ensures ParseInt("\U{1C}5").None?
  {
    var s := "\U{1C}5";
    ParseUnspaced(s);
    assert !IsDigit(s[0]);
  }

  lemma TrailingSeparatorRejected()
    ensures ParseInt("5\U{1F}").None?
  {
    var s := "5\U{1F}";
    ParseUnspaced(s);
    assert !IsDigit(s[1]);
  }

  lemma SurroundingBlanksIgnored()
    ensures ParseInt(" \t5\n") == Some(5)
  {
    assert TrimLeft(" \t5\n") == TrimLeft("\t5\n") == TrimLeft("5\n") == "5\n";
    assert TrimRight("5\n") == TrimRight("5") == "5";
    assert DigitsValue("5") == DigitsValue("") * 10 + 5;
  }

  /** Text that `int()` reads once its surrounding whitespace is gone: one or more decimal
      digits, with an optional sign in front. */
  predicate SignedDigits(t: string) {
    (t != [] && AllDigits(t)) || (|t| > 1 && (t[0] == '-' || t[0] == '+') && AllDigits(t[1..]))
  }

  /** The value of sign-and-digits text, None for anything else. */
  function SignedValue(t: string): (r: Option<int>)
    ensures r.Some? <==> SignedDigits(t)
    ensures t != [] && AllDigits(t) ==> r == Some(DigitsValue(t))
    ensures |t| > 1 && t[0] == '+' && AllDigits(t[1..]) ==> r == Some(DigitsValue(t[1..]))
    ensures |t| > 1 && t[0] == '-' && AllDigits(t[1..]) ==> r == Some(-(DigitsValue(t[1..]) as int))
  {
    if t != [] && (t[0] == '-' || t[0] == '+') then
      if |t| > 1 && AllDigits(t[1..]) then
        var v: int := DigitsValue(t[1..]);
        Some(if t[0] == '-' then -v else v)
      else None
    else if t != [] && AllDigits(t) then Some(DigitsValue(t))
    else None
  }

  /** Python's `int(s)` on text: surrounding whitespace, an optional sign, then one or more
      decimal digits. None stands for the `ValueError` that anything else raises. */
  function ParseInt(s: string): (r: Option<int>)
    ensures var t := TrimRight(TrimLeft(s));
      (r.Some? <==> SignedDigits(t)) &&
      (t != [] && AllDigits(t) ==> r == Some(DigitsValue(t))) &&
      (|t| > 1 && t[0] == '+' && AllDigits(t[1..]) ==> r == Some(DigitsValue(t[1..]))) &&
      (|t| > 1 && t[0] == '-' && AllDigits(t[1..]) ==> r == Some(-(DigitsValue(t[1..]) as int)))
  {
    var t := TrimRight(TrimLeft(s));
    SignedValue(t)
  }

  lemma {:induction false} DigitsValueOfNatString(n: nat)
    ensures DigitsValue(NatString(n)) == n
    decreases n
  {
    var s := NatString(n);
    if n >= 10 {
      DigitsValueOfNatString(n / 10);
      assert s[..|s| - 1] == NatString(n / 10);
    }
  }

  lemma TrimUnspaced(s: string)
    requires s != [] && !IsSpace(s[0]) && !IsSpace(s[|s| - 1])
    ensures TrimRight(TrimLeft(s)) == s
  {
  }

  lemma ParseNegativeDecimal(n: int)
    requires n < 0
    ensures ParseInt(DecimalString(n)) == Some(n)
  {
    var d := NatString(-n);
    DigitsValueOfNatString(-n);
    SignedDigitsValue(d, -n);
    assert DecimalString(n) == ['-'] + d;
  }

  /** A minus sign in front of a run of digits, with nothing around them, reads as the
      negated value of the digits. */
  lemma SignedDigitsValue(d: string, v: int)
    requires d != [] && AllDigits(d) && DigitsValue(d) == v
    ensures ParseInt(['-'] + d) == Some(-v)
  {
    var s := ['-'] + d;
    assert s[1..] == d;
    assert s[|s| - 1] == d[|d| - 1];
    ParseUnspaced(s);
  }

  /** Text that neither starts nor ends with whitespace is read as it stands. */
  lemma ParseUnspaced(s: string)
    requires s != [] && !IsSpace(s[0]) && !IsSpace(s[|s| - 1])
    ensures ParseInt(s) == SignedValue(s)
  {
    TrimUnspaced(s);
  }

  lemma ParseNatDecimal(n: nat)
    ensures ParseInt(DecimalString(n)) == Some(n)
  {
    var s := DecimalString(n);
    assert IsDigit(s[0]) && IsDigit(s[|s| - 1]);
    TrimUnspaced(s);
    DigitsValueOfNatString(n);
    assert ParseInt(s) == Some(DigitsValue(s));
  }

  /** Reading back what `DecimalString` wrote gives the number again. */
  lemma ParseDecimalString(n: int)
    ensures ParseInt(DecimalString(n)) == Some(n)
  {
    if n < 0 {
      ParseNegativeDecimal(n);
    } else {
      ParseNatDecimal(n);
    }
  }
}
