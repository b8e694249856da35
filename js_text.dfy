/** The few pieces of the JavaScript string library the components use:
    `String.prototype.trim`, `Number(string)` on a route parameter, and the
    decimal text of a non-negative integer inside a template literal. */
module JsText {

  /** ECMAScript WhiteSpace and LineTerminator code points: the characters
      `trim` removes. */
  predicate IsWhiteSpace(c: char)
  {
    c == '\t' || c == '\U{000B}' || c == '\U{000C}' || c == ' ' || c == '\U{00A0}' || c == '\U{FEFF}'
    || c == '\U{1680}' || ('\U{2000}' <= c <= '\U{200A}') || c == '\U{202F}' || c == '\U{205F}' || c == '\U{3000}'
    || c == '\n' || c == '\r' || c == '\U{2028}' || c == '\U{2029}'
  }

  /** `s` with its leading white space removed. */
  function TrimStart(s: string): (r: string)
    ensures |r| <= |s| && r == s[|s| - |r|..]
    ensures forall i :: 0 <= i < |s| - |r| ==> IsWhiteSpace(s[i])
    ensures r != [] ==> !IsWhiteSpace(r[0])
  {
    if s != [] && IsWhiteSpace(s[0]) then TrimStart(s[1..]) else s
  }

  /** `s` with its trailing white space removed. */
  function TrimEnd(s: string): (r: string)
    ensures |r| <= |s| && r == s[..|r|]
    ensures forall i :: |r| <= i < |s| ==> IsWhiteSpace(s[i])
    ensures r != [] ==> !IsWhiteSpace(r[|r| - 1])
  {
    if s != [] && IsWhiteSpace(s[|s| - 1]) then TrimEnd(s[..|s| - 1]) else s
  }

  /** `s.trim()`. */
  function Trim(s: string): (r: string)
    ensures |r| <= |s|
    ensures r != [] ==> !IsWhiteSpace(r[0]) && !IsWhiteSpace(r[|r| - 1])
  {
    TrimEnd(TrimStart(s))
  }

  /** The characters `TrimEnd` drops from a suffix of `s` are the ones at the
      end of `s`. */
  lemma TrimEndOfSuffix(s: string, k: nat)
    requires k <= |s|
    ensures k + |TrimEnd(s[k..])| <= |s|
    ensures TrimEnd(s[k..]) == s[k..k + |TrimEnd(s[k..])|]
    ensures forall i :: k + |TrimEnd(s[k..])| <= i < |s| ==> IsWhiteSpace(s[i])
  {
    var t := s[k..];
    var r := TrimEnd(t);
    assert r == t[..|r|];
    forall i | k + |r| <= i < |s| ensures IsWhiteSpace(s[i]) {
      assert s[i] == t[i - k];
    }
  }

  /** `trim` removes white space around the text and nothing else: the result
      is the slice of `s` that starts at the first and ends at the last
      non-white-space character. */
  lemma TrimIsInnerSlice(s: string)
    ensures var k := |s| - |TrimStart(s)|;
      k + |Trim(s)| <= |s| && Trim(s) == s[k..k + |Trim(s)|] &&
      (forall i :: 0 <= i < k ==> IsWhiteSpace(s[i])) &&
      (forall i :: k + |Trim(s)| <= i < |s| ==> IsWhiteSpace(s[i]))
  {
    var k := |s| - |TrimStart(s)|;
    assert TrimStart(s) == s[k..];
    TrimEndOfSuffix(s, k);
  }

  /** `!s.trim()`: the text is empty once trimmed. */
  predicate IsBlank(s: string)
  {
    Trim(s) == ""
  }

  /** A string is blank exactly when every character of it is white space. */
  lemma BlankIffAllWhiteSpace(s: string)
    ensures IsBlank(s) <==> forall i :: 0 <= i < |s| ==> IsWhiteSpace(s[i])
  {
    var t := TrimStart(s);
    var k := |s| - |t|;
    assert t != [] ==> t[0] == s[k];
  }

  predicate IsDigit(c: char)
  {
    '0' <= c <= '9'
  }

  predicate AllDigits(s: string)
  {
    forall i :: 0 <= i < |s| ==> IsDigit(s[i])
  }

  /** The value of a run of decimal digits, most significant first. */
  function DigitsValue(s: string): nat
    requires AllDigits(s)
  {
    if s == [] then 0 else 10 * DigitsValue(s[..|s| - 1]) + (s[|s| - 1] as int - '0' as int)
  }

  /** A JavaScript number: finite (only integers arise here) or NaN. */
  datatype NumberValue = Finite(value: int) | NaN

  /** `Number(s)` on the forms a numeric route parameter takes: white space
      around the text is ignored, blank text is 0, a run of decimal digits is
      its value, and anything else is NaN. */
  function ToNumber(s: string): NumberValue
  {
    var t := Trim(s);
    if t == "" then Finite(0)
    else if AllDigits(t) then Finite(DigitsValue(t))
    else NaN
  }

  function DigitChar(d: nat): char
    requires d < 10
  {
    ('0' as int + d) as char
  }

  /** `${n}` for a non-negative integer: its decimal digits, with no leading
      zero. */
  function DecimalString(n: nat): (s: string)
    ensures s != [] && AllDigits(s)
    ensures s[0] == '0' ==> n == 0
  {
    if n < 10 then [DigitChar(n)] else DecimalString(n / 10) + [DigitChar(n % 10)]
  }

  lemma {:induction false} DigitsValueOfDecimalString(n: nat)
    ensures DigitsValue(DecimalString(n)) == n
  {
    var s := DecimalString(n);
    if n >= 10 {
      DigitsValueOfDecimalString(n / 10);
      assert s[..|s| - 1] == DecimalString(n / 10);
    }
  }

  /** Reading back the decimal text of a non-negative integer with `Number`
      yields that integer. */
  lemma NumberOfDecimalString(n: nat)
    ensures ToNumber(DecimalString(n)) == Finite(n)
  {
    var s := DecimalString(n);
    assert TrimStart(s) == s;
    assert TrimEnd(s) == s;
    DigitsValueOfDecimalString(n);
  }
}
