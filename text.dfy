/** The .NET string services the core relies on, written out: character
    classification, string.IsNullOrWhiteSpace, Boolean.TryParse,
    int.TryParse (NumberStyles.Integer), Boolean/Int32 ToString and
    WebUtility.HtmlEncode. */
module Text {
  import opened Wrappers

  const Int32Min: int := -0x8000_0000
  const Int32Max: int := 0x7fff_ffff

  /** Char.IsWhiteSpace: the separators of Unicode categories Zs, Zl and Zp,
      plus U+0009..U+000D and U+0085. */
  predicate IsWhiteSpace(c: char) {
    || c == ' ' || ('\t' <= c <= '\r') || c == '\U{85}' || c == '\U{A0}'
    || c == '\U{1680}' || ('\U{2000}' <= c <= '\U{200A}') || c == '\U{2028}'
    || c == '\U{2029}' || c == '\U{202F}' || c == '\U{205F}' || c == '\U{3000}'
  }

  /** string.IsNullOrWhiteSpace on a non-null string. */
  predicate IsBlank(s: string) {
    forall i :: 0 <= i < |s| ==> IsWhiteSpace(s[i])
  }

  /** Drops the longest prefix whose characters satisfy `p`. */
  function TrimStart(s: string, p: char -> bool): (r: string)
    ensures |r| <= |s| && r == s[|s| - |r|..]
    ensures r == [] || !p(r[0])
  {
    if s == [] || !p(s[0]) then s else TrimStart(s[1..], p)
  }

  /** Drops the longest suffix whose characters satisfy `p`. */
  function TrimEnd(s: string, p: char -> bool): (r: string)
    ensures |r| <= |s| && r == s[..|r|]
    ensures r == [] || !p(r[|r| - 1])
  {
    if s == [] || !p(s[|s| - 1]) then s else TrimEnd(s[..|s| - 1], p)
  }

  /** TrimStart drops only characters that satisfy `p`. */
  lemma {:induction false} TrimStartDropsOnly(s: string, p: char -> bool)
    ensures forall i :: 0 <= i < |s| - |TrimStart(s, p)| ==> p(s[i])
  {
    if s != [] && p(s[0]) {
      TrimStartDropsOnly(s[1..], p);
      forall i | 1 <= i < |s| - |TrimStart(s, p)| ensures p(s[i]) {
        assert s[i] == s[1..][i - 1];
      }
    }
  }

  /** TrimEnd drops only characters that satisfy `p`. */
  lemma {:induction false} TrimEndDropsOnly(s: string, p: char -> bool)
    ensures forall i :: |TrimEnd(s, p)| <= i < |s| ==> p(s[i])
  {
    if s != [] && p(s[|s| - 1]) {
      TrimEndDropsOnly(s[..|s| - 1], p);
      forall i | |TrimEnd(s, p)| <= i < |s| - 1 ensures p(s[i]) {
        assert s[i] == s[..|s| - 1][i];
      }
    }
  }

  // ---------------------------------------------------------------------
  // Boolean.TryParse and Boolean.ToString

  predicate IsWhiteSpaceOrNul(c: char) {
    IsWhiteSpace(c) || c == '\0'
  }

  /** Ordinal upper-casing of the ASCII letters. */
  function ToUpperAscii(c: char): char {
    if 'a' <= c <= 'z' then (c as int - 32) as char else c
  }

  /** Ordinal, case-insensitive equality (ASCII letters only). */
  predicate EqualsIgnoreCase(a: string, b: string) {
    |a| == |b| && (a == [] || (ToUpperAscii(a[0]) == ToUpperAscii(b[0]) && EqualsIgnoreCase(a[1..], b[1..])))
  }

  /** Boolean.TryParse: "True" or "False" in any letter case, after
      trimming white space and NUL characters from both ends. */
  function BoolTryParse(s: string): Option<bool> {
    var t := TrimEnd(TrimStart(s, IsWhiteSpaceOrNul), IsWhiteSpaceOrNul);
    if EqualsIgnoreCase(t, "True") then Some(true)
    else if EqualsIgnoreCase(t, "False") then Some(false)
    else None
  }

  /** Boolean.ToString. */
  function BoolToString(b: bool): string {
    if b then "True" else "False"
  }

  /** Trimming leaves a string alone when neither end satisfies `p`. */
  lemma TrimKeeps(s: string, p: char -> bool)
    requires s != [] && !p(s[0]) && !p(s[|s| - 1])
    ensures TrimEnd(TrimStart(s, p), p) == s
  {
  }

  /** Boolean.TryParse of a string with nothing to trim at either end. */
  lemma BoolTryParseUnpadded(s: string)
    requires s != [] && !IsWhiteSpaceOrNul(s[0]) && !IsWhiteSpaceOrNul(s[|s| - 1])
    ensures BoolTryParse(s) == if EqualsIgnoreCase(s, "True") then Some(true)
      else if EqualsIgnoreCase(s, "False") then Some(false) else None
  {
    TrimKeeps(s, IsWhiteSpaceOrNul);
    BoolTryParseTrimmed(s);
  }

  lemma BoolTryParseTrimmed(s: string)
    requires TrimEnd(TrimStart(s, IsWhiteSpaceOrNul), IsWhiteSpaceOrNul) == s
    ensures BoolTryParse(s) == if EqualsIgnoreCase(s, "True") then Some(true)
      else if EqualsIgnoreCase(s, "False") then Some(false) else None
  {
  }

  lemma TrueSpellings()
    ensures EqualsIgnoreCase("True", "True") && EqualsIgnoreCase("true", "True")
    ensures !IsWhiteSpaceOrNul("True"[0]) && !IsWhiteSpaceOrNul("true"[0]) && !IsWhiteSpaceOrNul("true"[3])
  {
    assert "True"[1..] == "rue" && "true"[1..] == "rue";
    assert "rue"[1..] == "ue" && "ue"[1..] == "e" && "e"[1..] == "";
  }

  lemma FalseSpellings()
    ensures EqualsIgnoreCase("False", "False") && EqualsIgnoreCase("false", "False")
    ensures !EqualsIgnoreCase("False", "True") && !EqualsIgnoreCase("false", "True")
    ensures !IsWhiteSpaceOrNul("False"[0]) && !IsWhiteSpaceOrNul("false"[0]) && !IsWhiteSpaceOrNul("false"[4])
  {
    assert "False"[1..] == "alse" && "false"[1..] == "alse";
    assert "alse"[1..] == "lse" && "lse"[1..] == "se" && "se"[1..] == "e" && "e"[1..] == "";
  }

  lemma BoolTryParseTrue()
    ensures BoolTryParse("True") == Some(true)
    ensures BoolTryParse("true") == Some(true)
  {
    TrueSpellings();
    BoolTryParseUnpadded("True");
    BoolTryParseUnpadded("true");
  }

  lemma BoolTryParseFalse()
    ensures BoolTryParse("False") == Some(false)
    ensures BoolTryParse("false") == Some(false)
  {
    FalseSpellings();
    BoolTryParseUnpadded("False");
    BoolTryParseUnpadded("false");
  }

  /** Boolean.TryParse reads back what Boolean.ToString writes, and also
      the lower-case JSON spellings. */
  lemma BoolTryParseReadsBack(b: bool)
    ensures BoolTryParse(BoolToString(b)) == Some(b)
    ensures BoolTryParse(if b then "true" else "false") == Some(b)
  {
    if b { BoolTryParseTrue(); } else { BoolTryParseFalse(); }
  }

  /** Padding with white space and NULs does not change what Boolean.TryParse reads. */
  lemma BoolTryParseIgnoresPadding(s: string, pre: string, post: string)
    requires forall i :: 0 <= i < |pre| ==> IsWhiteSpaceOrNul(pre[i])
    requires forall i :: 0 <= i < |post| ==> IsWhiteSpaceOrNul(post[i])
    requires s != [] && !IsWhiteSpaceOrNul(s[0]) && !IsWhiteSpaceOrNul(s[|s| - 1])
    ensures BoolTryParse(pre + s + post) == BoolTryParse(s)
  {
    PaddingTrimmed(s, pre, post, IsWhiteSpaceOrNul);
  }

  /** Trimming `p` from both ends of a padded string gives back the string. */
  lemma PaddingTrimmed(s: string, pre: string, post: string, p: char -> bool)
    requires forall i :: 0 <= i < |pre| ==> p(pre[i])
    requires forall i :: 0 <= i < |post| ==> p(post[i])
    requires s != [] && !p(s[0]) && !p(s[|s| - 1])
    ensures TrimEnd(TrimStart(pre + s + post, p), p) == s
  {
    var t := s + post;
    assert pre + s + post == pre + t;
    TrimStartPadded(pre, t, p);
    assert t[0] == s[0];
    assert TrimStart(t, p) == t;
    TrimEndPadded(s, post, p);
    assert TrimEnd(s, p) == s;
  }

  lemma {:induction false} TrimStartPadded(pre: string, s: string, p: char -> bool)
    requires forall i :: 0 <= i < |pre| ==> p(pre[i])
    ensures TrimStart(pre + s, p) == TrimStart(s, p)
  {
    if pre == [] {
      assert pre + s == s;
    } else {
      assert (pre + s)[0] == pre[0] && p(pre[0]);
      assert (pre + s)[1..] == pre[1..] + s;
      TrimStartPadded(pre[1..], s, p);
    }
  }

  lemma {:induction false} TrimEndPadded(s: string, post: string, p: char -> bool)
    requires forall i :: 0 <= i < |post| ==> p(post[i])
    ensures TrimEnd(s + post, p) == TrimEnd(s, p)
  {
    if post == [] {
      assert s + post == s;
    } else {
      assert (s + post)[..|s + post| - 1] == s + post[..|post| - 1];
      TrimEndPadded(s, post[..|post| - 1], p);
    }
  }

  // ---------------------------------------------------------------------
  // int.TryParse (NumberStyles.Integer) and Int32.ToString

  /** The white space NumberStyles.AllowLeadingWhite/AllowTrailingWhite accept. */
  predicate IsNumberWhite(c: char) {
    c == ' ' || ('\t' <= c <= '\r')
  }

  predicate IsNul(c: char) {
    c == '\0'
  }

  predicate IsDigit(c: char) {
    '0' <= c <= '9'
  }

  predicate AllDigits(s: string) {
    forall i :: 0 <= i < |s| ==> IsDigit(s[i])
  }

  /** The value of a string of decimal digits. */
  function DigitsValue(ds: string): nat
    requires AllDigits(ds)
  {
    if ds == [] then 0
    else DigitsValue(ds[..|ds| - 1]) * 10 + (ds[|ds| - 1] as int - '0' as int)
  }

  /** int.TryParse: optional leading white space, an optional sign, at least
      one decimal digit, optional trailing white space and trailing NULs;
      fails when the value does not fit in 32 bits. */
  function IntTryParse(s: string): (r: Option<int>)
    ensures r.Some? ==> Int32Min <= r.value <= Int32Max
  {
    var body := TrimStart(TrimEnd(TrimEnd(s, IsNul), IsNumberWhite), IsNumberWhite);
    var negative := |body| > 0 && body[0] == '-';
    var digits := if |body| > 0 && (body[0] == '-' || body[0] == '+') then body[1..] else body;
    if digits == [] || !AllDigits(digits) then None
    else
      var magnitude: int := DigitsValue(digits);
      var v := if negative then -magnitude else magnitude;
      if Int32Min <= v <= Int32Max then Some(v) else None
  }

  function DigitChar(d: nat): (c: char)
    requires d < 10
    ensures IsDigit(c) && c as int - '0' as int == d
  {
    ('0' as int + d) as char
  }

  /** Decimal digits of a natural number, most significant first. */
  function NatToString(n: nat): (s: string)
    ensures s != [] && AllDigits(s)
  {
    if n < 10 then [DigitChar(n)] else NatToString(n / 10) + [DigitChar(n % 10)]
  }

  /** Int32.ToString in the invariant culture. */
  function IntToString(n: int): string {
    if n < 0 then "-" + NatToString(-n) else NatToString(n)
  }

  lemma {:induction false} DigitsValueOfNatToString(n: nat)
    ensures DigitsValue(NatToString(n)) == n
  {
    var s := NatToString(n);
    if n >= 10 {
      DigitsValueOfNatToString(n / 10);
      assert s[..|s| - 1] == NatToString(n / 10);
    }
  }

  /** A string that ends in a digit and starts with a digit or a sign is
      left alone by the trimming of int.TryParse. */
  lemma NumberTrimKeeps(s: string)
    requires s != [] && IsDigit(s[|s| - 1]) && (IsDigit(s[0]) || s[0] == '-')
    ensures TrimStart(TrimEnd(TrimEnd(s, IsNul), IsNumberWhite), IsNumberWhite) == s
  {
    var last := s[|s| - 1];
    assert !IsNul(last) && !IsNumberWhite(last);
    assert TrimEnd(s, IsNul) == s;
    assert TrimEnd(s, IsNumberWhite) == s;
    assert !IsNumberWhite(s[0]);
  }

  /** int.TryParse of an optional minus sign followed by digits. */
  lemma IntTryParseSigned(s: string, digits: string, negative: bool)
    requires digits != [] && AllDigits(digits)
    requires s == if negative then "-" + digits else digits
    requires Int32Min <= (if negative then -(DigitsValue(digits) as int) else DigitsValue(digits)) <= Int32Max
    ensures IntTryParse(s) == Some(if negative then -(DigitsValue(digits) as int) else DigitsValue(digits))
  {
    if negative {
      assert s[1..] == digits && s[0] == '-';
      assert s[|s| - 1] == digits[|digits| - 1];
    }
    NumberTrimKeeps(s);
  }

  /** int.TryParse reads back every 32-bit value Int32.ToString writes. */
  lemma IntTryParseReadsBack(n: int)
    requires Int32Min <= n <= Int32Max
    ensures IntTryParse(IntToString(n)) == Some(n)
  {
    var magnitude: nat := if n < 0 then -n else n;
    DigitsValueOfNatToString(magnitude);
    IntTryParseSigned(IntToString(n), NatToString(magnitude), n < 0);
  }

  // ---------------------------------------------------------------------
  // WebUtility.HtmlEncode

  /** The characters that could end or break out of a quoted string or a
      markup context. */
  predicate IsMarkupSpecial(c: char) {
    c == '<' || c == '>' || c == '"' || c == '\'' || c == '&'
  }

  /** WebUtility.HtmlEncode of one character: the five named or numeric
      escapes for markup characters, a numeric reference for U+00A0..U+00FF
      and for characters outside the Basic Multilingual Plane (the source
      sees those as surrogate pairs), the character itself otherwise. */
  function HtmlEncodeChar(c: char): (r: string)
    ensures forall i :: 0 <= i < |r| ==> r[i] == '&' || !IsMarkupSpecial(r[i])
    ensures !IsMarkupSpecial(c) && !(160 <= c as int < 256) && c as int < 0x10000 ==> r == [c]
  {
    if c == '<' then "&lt;"
    else if c == '>' then "&gt;"
    else if c == '"' then "&quot;"
    else if c == '\'' then "&#39;"
    else if c == '&' then "&amp;"
    else if 160 <= c as int < 256 || c as int >= 0x10000 then "&#" + NatToString(c as int) + ";"
    else [c]
  }

  /** WebUtility.HtmlEncode: the output never contains a quote or an angle
      bracket, so it cannot close the JSON string literal it is placed in. */
  function HtmlEncode(s: string): (r: string)
    ensures forall i :: 0 <= i < |r| ==> r[i] == '&' || !IsMarkupSpecial(r[i])
    ensures |r| >= |s|
  {
    if s == [] then [] else HtmlEncodeChar(s[0]) + HtmlEncode(s[1..])
  }
}
