/** String helpers with JavaScript's meaning: `String.prototype.trim` and
    the decimal rendering of a whole number. */
module Text {

  import opened Common

  /** The characters ECMAScript's trim removes: WhiteSpace (tab, vertical tab,
      form feed, space, no-break space, byte-order mark and the Unicode space
      separators) and LineTerminator (line feed, carriage return, line and
      paragraph separators). */
  predicate IsWhitespace(c: char)
  {
    c == '\U{0009}' || c == '\U{000A}' || c == '\U{000B}' || c == '\U{000C}' || c == '\U{000D}'
    || c == '\U{0020}' || c == '\U{00A0}' || c == '\U{1680}' || ('\U{2000}' <= c <= '\U{200A}')
    || c == '\U{2028}' || c == '\U{2029}' || c == '\U{202F}' || c == '\U{205F}'
    || c == '\U{3000}' || c == '\U{FEFF}'
  }

  predicate AllWhitespace(s: string)
  {
    forall i :: 0 <= i < |s| ==> IsWhitespace(s[i])
  }

  function TrimStart(s: string): (r: string)
    ensures |r| <= |s| && r == s[|s| - |r|..]
    ensures AllWhitespace(s[..|s| - |r|])
    ensures r == [] || !IsWhitespace(r[0])
  {
    if s == [] || !IsWhitespace(s[0]) then s
    else
      var r := TrimStart(s[1..]);
      assert s[1..][..|s[1..]| - |r|] == s[1..|s| - |r|];
      r
  }

  function TrimEnd(s: string): (r: string)
    ensures |r| <= |s| && r == s[..|r|]
    ensures AllWhitespace(s[|r|..])
    ensures r == [] || !IsWhitespace(r[|r| - 1])
  {
    if s == [] || !IsWhitespace(s[|s| - 1]) then s
    else
      var r := TrimEnd(s[..|s| - 1]);
      assert s[..|s| - 1][|r|..] == s[|r|..|s| - 1];
      r
  }

  /** `s.trim()`: s with its leading and trailing whitespace removed. */
  function Trim(s: string): (r: string)
    ensures |r| <= |s|
    ensures r == [] || (!IsWhitespace(r[0]) && !IsWhitespace(r[|r| - 1]))
  {
    TrimEnd(TrimStart(s))
  }

  /** `!s.trim()` in JavaScript: nothing but whitespace, which is exactly
      when trimming leaves the empty string (TrimEmptyIffBlank). */
  predicate IsBlank(s: string)
  {
    AllWhitespace(s)
  }

  /** Trim cuts s into whitespace, the result and whitespace. */
  lemma TrimCharacterised(s: string)
    ensures exists i, j ::
              && 0 <= i <= j <= |s| && Trim(s) == s[i..j]
              && AllWhitespace(s[..i]) && AllWhitespace(s[j..])
  {
    var t := TrimStart(s);
    var i := |s| - |t|;
    var r := TrimEnd(t);
    var j := i + |r|;
    assert r == s[i..j];
    assert s[j..] == t[|r|..];
    assert Trim(s) == s[i..j] && AllWhitespace(s[..i]) && AllWhitespace(s[j..]);
  }

  /** Trimming leaves the empty string exactly when every character is
      whitespace. */
  lemma {:induction false} TrimEmptyIffBlank(s: string)
    ensures Trim(s) == [] <==> IsBlank(s)
  {
    var t := TrimStart(s);
    var m := |s| - |t|;
    if !AllWhitespace(s) {
      var k :| 0 <= k < |s| && !IsWhitespace(s[k]);
      assert t[k - m] == s[k];
    }
  }

  /** Trimming twice is trimming once. */
  lemma TrimIdempotent(s: string)
    ensures Trim(Trim(s)) == Trim(s)
  {
    TrimCharacterised(s);
    var r := Trim(s);
    if r != [] {
      assert TrimStart(r) == r;
      assert TrimEnd(r) == r;
    }
  }

  function DigitChar(d: nat): (c: char)
    requires d < 10
    ensures '0' <= c <= '9' && c as int - '0' as int == d
  {
    ('0' as int + d) as char
  }

  /** The decimal text of a whole number, as JavaScript's `${n}` writes it. */
  function DecimalText(n: nat): (r: string)
    ensures |r| > 0
    ensures forall i :: 0 <= i < |r| ==> '0' <= r[i] <= '9'
    ensures n >= 10 ==> r[0] != '0'
  {
    if n < 10 then [DigitChar(n)] else DecimalText(n / 10) + [DigitChar(n % 10)]
  }

  predicate AllDigits(s: string)
  {
    forall i :: 0 <= i < |s| ==> '0' <= s[i] <= '9'
  }

  /** The number a string of decimal digits denotes. */
  function DigitsValue(s: string): (n: nat)
    requires AllDigits(s)
  {
    if s == [] then 0
    else DigitsValue(s[..|s| - 1]) * 10 + (s[|s| - 1] as int - '0' as int)
  }

  /** The number s is the decimal text of, if any: leading zeros and any
      character other than a digit are refused. */
  function ParseDecimal(s: string): (r: Option<nat>)
    ensures r.Some? ==> DecimalText(r.value) == s
  {
    if s != [] && AllDigits(s) && DecimalText(DigitsValue(s)) == s then Some(DigitsValue(s)) else None
  }

  /** Reading back the decimal text of n gives n. */
  lemma {:induction false} DigitsValueOfDecimalText(n: nat)
    ensures AllDigits(DecimalText(n)) && DigitsValue(DecimalText(n)) == n
  {
    var t := DecimalText(n);
    if n >= 10 {
      DigitsValueOfDecimalText(n / 10);
      assert t[..|t| - 1] == DecimalText(n / 10);
    }
  }

  /** Parsing inverts the decimal rendering, so the rendering is injective. */
  lemma ParseDecimalText(n: nat)
    ensures ParseDecimal(DecimalText(n)) == Some(n)
  {
    DigitsValueOfDecimalText(n);
  }

  lemma DecimalTextInjective(m: nat, n: nat)
    requires DecimalText(m) == DecimalText(n)
    ensures m == n
  {
    ParseDecimalText(m);
    ParseDecimalText(n);
  }
}
