/**
 * The JavaScript string operations the application relies on, over `seq<char>`:
 * `includes`, `startsWith`, `trim`, Latin `toLowerCase`/`toUpperCase`, `split` on one
 * character, `Number.prototype.toString()`, `padStart`, `parseInt(s, 10)` and `Number(s)`.
 */
module Text {
  import opened Optional

  /** `s.startsWith(p)` */
  predicate StartsWith(s: string, p: string) {
    |p| <= |s| && s[..|p|] == p
  }

  /** `s.includes(sub)`: `sub` occurs at some position of `s`. */
  predicate Contains(s: string, sub: string)
    decreases |s|
  {
    StartsWith(s, sub) || (|s| > 0 && Contains(s[1..], sub))
  }

  /** A string ends with `sub`, so it contains `sub`. */
  lemma {:induction false} ContainsSuffix(a: string, sub: string)
    ensures Contains(a + sub, sub)
    decreases |a|
  {
    if |a| == 0 {
      assert (a + sub)[..|sub|] == sub;
    } else {
      assert (a + sub)[1..] == a[1..] + sub;
      ContainsSuffix(a[1..], sub);
    }
  }

  /** A string lacking one of the characters of `sub` does not contain `sub`. */
  lemma {:induction false} MissingCharNotContained(s: string, sub: string, c: char)
    requires c in sub && c !in s
    ensures !Contains(s, sub)
    decreases |s|
  {
    if |s| > 0 {
      assert c !in s[1..];
      MissingCharNotContained(s[1..], sub, c);
    }
  }

  /** A differing character rules out a prefix. */
  lemma MismatchAt(s: string, sub: string, k: nat)
    requires k < |sub| && k < |s| && s[k] != sub[k]
    ensures !StartsWith(s, sub)
  {
  }

  /** An occurrence of `sub` in `a + b` lies in `b` when the first character of `sub` is not in `a`. */
  lemma {:induction false} SkipPrefix(a: string, b: string, sub: string)
    requires |sub| > 0 && sub[0] !in a
    ensures Contains(a + b, sub) ==> Contains(b, sub)
    decreases |a|
  {
    if |a| > 0 {
      assert !StartsWith(a + b, sub) by {
        assert (a + b)[0] == a[0];
      }
      assert (a + b)[1..] == a[1..] + b;
      assert sub[0] !in a[1..];
      SkipPrefix(a[1..], b, sub);
    } else {
      assert a + b == b;
    }
  }

  /**
   * The characters `String.prototype.trim` removes: the ECMAScript white space (tab,
   * vertical tab, form feed, no-break space, byte order mark and every Unicode space
   * separator) and the line terminators.
   */
  predicate IsWhitespace(c: char) {
    c == ' ' || c == '\t' || c == '\n' || c == '\r' || c == '\U{B}' || c == '\U{C}'
    || c == '\U{A0}' || c == '\U{FEFF}' || c == '\U{2028}' || c == '\U{2029}'
    || c == '\U{1680}' || ('\U{2000}' <= c <= '\U{200A}') || c == '\U{202F}' || c == '\U{205F}' || c == '\U{3000}'
  }

  /** `s.trimStart()` */
  function TrimStart(s: string): (r: string)
    ensures |r| <= |s| && r == s[|s| - |r|..]
    ensures |r| > 0 ==> !IsWhitespace(r[0])
    ensures forall i :: 0 <= i < |s| - |r| ==> IsWhitespace(s[i])
  {
    if |s| > 0 && IsWhitespace(s[0]) then TrimStart(s[1..]) else s
  }

  /** `s.trimEnd()` */
  function TrimEnd(s: string): (r: string)
    ensures |r| <= |s| && r == s[..|r|]
    ensures |r| > 0 ==> !IsWhitespace(r[|r| - 1])
    ensures forall i :: |r| <= i < |s| ==> IsWhitespace(s[i])
  {
    if |s| > 0 && IsWhitespace(s[|s| - 1]) then TrimEnd(s[..|s| - 1]) else s
  }

  /** `s.trim()` */
  function Trim(s: string): (r: string) {
    TrimEnd(TrimStart(s))
  }

  /** The trimmed string is empty exactly when every character is whitespace. */
  lemma TrimEmpty(s: string)
    ensures Trim(s) == "" <==> forall i :: 0 <= i < |s| ==> IsWhitespace(s[i])
  {
    var t := TrimStart(s);
    if forall i :: 0 <= i < |s| ==> IsWhitespace(s[i]) {
      assert |t| == 0;
    }
  }

  /** A capital letter of Basic Latin or Latin-1 (`A`-`Z`, `\U{C0}`-`\U{DE}` without the sign `\U{D7}`). */
  predicate IsLatinCapital(c: char) {
    ('A' <= c <= 'Z') || ('\U{C0}' <= c <= '\U{DE}' && c != '\U{D7}')
  }

  /** A small letter of Basic Latin or Latin-1 that has a capital of the same block. */
  predicate IsLatinSmall(c: char) {
    ('a' <= c <= 'z') || ('\U{E0}' <= c <= '\U{FE}' && c != '\U{F7}')
  }

  /** `toLowerCase` of one character: the Latin capitals become their small letters, which lie 32 code points higher. */
  function LowerChar(c: char): (r: char)
    ensures IsLatinCapital(c) ==> IsLatinSmall(r) && r as int == c as int + 32
    ensures !IsLatinCapital(c) ==> r == c
  {
    if IsLatinCapital(c) then (c as int + 32) as char else c
  }

  /**
   * `toUpperCase` of one character: the Latin small letters become their capitals; `\U{FF}`
   * and the micro sign have their capitals outside Latin-1.
   */
  function UpperChar(c: char): (r: char)
    ensures IsLatinSmall(c) ==> IsLatinCapital(r) && r as int == c as int - 32
    ensures c == '\U{FF}' ==> r == '\U{178}'
    ensures c == '\U{B5}' ==> r == '\U{39C}'
    ensures !IsLatinSmall(c) && c != '\U{FF}' && c != '\U{B5}' ==> r == c
  {
    if IsLatinSmall(c) then (c as int - 32) as char
    else if c == '\U{FF}' then '\U{178}'
    else if c == '\U{B5}' then '\U{39C}'
    else c
  }

  /** Lower-casing a character twice is lower-casing it once. */
  lemma LowerCharIdempotent(c: char)
    ensures LowerChar(LowerChar(c)) == LowerChar(c)
  {
    if IsLatinCapital(c) {
      assert IsLatinSmall(LowerChar(c));
    }
  }

  /** Upper-casing a small Latin letter and lower-casing it again gives the letter back. */
  lemma LowerUpperChar(c: char)
    requires IsLatinSmall(c)
    ensures LowerChar(UpperChar(c)) == c
  {
  }

  /** `s.toLowerCase()`, character by character. */
  function Lower(s: string): (r: string)
    ensures |r| == |s| && forall i :: 0 <= i < |s| ==> r[i] == LowerChar(s[i])
  {
    if |s| == 0 then "" else [LowerChar(s[0])] + Lower(s[1..])
  }

  /** `s.toUpperCase()`, character by character. */
  function Upper(s: string): (r: string)
    ensures |r| == |s| && forall i :: 0 <= i < |s| ==> r[i] == UpperChar(s[i])
  {
    if |s| == 0 then "" else [UpperChar(s[0])] + Upper(s[1..])
  }

  /** Lower-casing a text twice is lower-casing it once. */
  lemma LowerIdempotent(s: string)
    ensures Lower(Lower(s)) == Lower(s)
  {
    var l := Lower(s);
    forall i | 0 <= i < |s| ensures Lower(l)[i] == l[i] {
      LowerCharIdempotent(s[i]);
    }
  }

  /** `s.split(sep)` for a one-character separator: the pieces between separators, in order. */
  function Split(s: string, sep: char): (r: seq<string>)
    ensures |r| >= 1
    ensures forall k :: 0 <= k < |r| ==> sep !in r[k]
    decreases |s|
  {
    if |s| == 0 then [""]
    else if s[0] == sep then [""] + Split(s[1..], sep)
    else
      var rest := Split(s[1..], sep);
      [[s[0]] + rest[0]] + rest[1..]
  }

  /** A string without the separator is one piece. */
  lemma {:induction false} SplitNoSep(a: string, sep: char)
    requires sep !in a
    ensures Split(a, sep) == [a]
    decreases |a|
  {
    if |a| > 0 {
      assert sep !in a[1..];
      SplitNoSep(a[1..], sep);
      assert [a[0]] + a[1..] == a;
    }
  }

  /** Splitting `a + sep + b`, where `a` has no separator, yields `a` followed by the pieces of `b`. */
  lemma {:induction false} SplitJoin(a: string, sep: char, b: string)
    requires sep !in a
    ensures Split(a + [sep] + b, sep) == [a] + Split(b, sep)
    decreases |a|
  {
    var s := a + [sep] + b;
    if |a| == 0 {
      assert s[1..] == b;
    } else {
      assert s[1..] == a[1..] + [sep] + b;
      assert sep !in a[1..];
      SplitJoin(a[1..], sep, b);
      assert [a[0]] + a[1..] == a;
    }
  }

  predicate IsDigit(c: char) {
    '0' <= c <= '9'
  }

  predicate AllDigits(s: string) {
    forall i :: 0 <= i < |s| ==> IsDigit(s[i])
  }

  function DigitChar(d: nat): (c: char)
    requires d < 10
    ensures IsDigit(c)
  {
    ('0' as int + d) as char
  }

  function DigitValue(c: char): (d: nat)
    requires IsDigit(c)
    ensures d < 10
  {
    c as int - '0' as int
  }

  /** The decimal value of a string of digits, read left to right. */
  function DigitsValue(ds: string): nat
    requires AllDigits(ds)
    decreases |ds|
  {
    if |ds| == 0 then 0 else 10 * DigitsValue(ds[..|ds| - 1]) + DigitValue(ds[|ds| - 1])
  }

  /** `n.toString()` for a non-negative integer: its decimal digits, without leading zeros. */
  function NatToString(n: nat): (s: string)
    ensures |s| >= 1 && AllDigits(s)
    ensures |s| == 1 <==> n < 10
    decreases n
  {
    if n < 10 then [DigitChar(n)] else NatToString(n / 10) + [DigitChar(n % 10)]
  }

  /** `i.toString()` for any integer. */
  function IntToString(i: int): (s: string)
    ensures i >= 0 ==> AllDigits(s) && '-' !in s
  {
    if i < 0 then "-" + NatToString(-i) else NatToString(i)
  }

  lemma AllDigitsNoSep(s: string, sep: char)
    requires AllDigits(s) && !IsDigit(sep)
    ensures sep !in s
  {
  }

  /** Reading back the decimal digits of `n` gives `n`. */
  lemma {:induction false} DigitsRoundTrip(n: nat)
    ensures DigitsValue(NatToString(n)) == n
    decreases n
  {
    if n >= 10 {
      DigitsRoundTrip(n / 10);
      var s := NatToString(n);
      assert s[..|s| - 1] == NatToString(n / 10);
    }
  }

  /** `s.padStart(width, c)` */
  function PadStart(s: string, width: nat, c: char): (r: string)
    ensures |r| == if |s| >= width then |s| else width
    ensures r[|r| - |s|..] == s
    ensures forall i :: 0 <= i < |r| - |s| ==> r[i] == c
    decreases width - |s|
  {
    if |s| >= width then s else PadStart([c] + s, width, c)
  }

  /** Leading zeros do not change a decimal value. */
  lemma {:induction false} LeadingZero(ds: string)
    requires AllDigits(ds)
    ensures AllDigits("0" + ds) && DigitsValue("0" + ds) == DigitsValue(ds)
    decreases |ds|
  {
    if |ds| > 0 {
      var z := "0" + ds;
      assert z[..|z| - 1] == "0" + ds[..|ds| - 1];
      LeadingZero(ds[..|ds| - 1]);
    }
  }

  lemma {:induction false} PadStartDigits(ds: string, width: nat)
    requires AllDigits(ds)
    ensures AllDigits(PadStart(ds, width, '0'))
    ensures DigitsValue(PadStart(ds, width, '0')) == DigitsValue(ds)
    decreases width - |ds|
  {
    if |ds| < width {
      LeadingZero(ds);
      PadStartDigits("0" + ds, width);
    }
  }

  /** The longest prefix of `s` made of digits. */
  function DigitPrefix(s: string): (r: string)
    ensures |r| <= |s| && r == s[..|r|] && AllDigits(r)
    ensures |r| < |s| ==> !IsDigit(s[|r|])
  {
    if |s| > 0 && IsDigit(s[0]) then [s[0]] + DigitPrefix(s[1..]) else ""
  }

  lemma {:induction false} DigitPrefixAll(s: string)
    requires AllDigits(s)
    ensures DigitPrefix(s) == s
  {
    if |s| > 0 {
      DigitPrefixAll(s[1..]);
      assert [s[0]] + s[1..] == s;
    }
  }

  /**
   * `parseInt(s, 10)`: leading whitespace is skipped, one optional sign is read, then the
   * longest run of digits; `None` stands for `NaN` (no digit at all).
   */
  function ParseInt(s: string): Option<int> {
    var t := TrimStart(s);
    var neg := |t| > 0 && t[0] == '-';
    var body := if |t| > 0 && (t[0] == '-' || t[0] == '+') then t[1..] else t;
    var ds := DigitPrefix(body);
    var v: int := if |ds| == 0 then 0 else DigitsValue(ds);
    if |ds| == 0 then None else Some(if neg then -v else v)
  }

  /** `parseInt` of a non-empty string of digits is its decimal value. */
  lemma ParseIntDigits(ds: string)
    requires |ds| > 0 && AllDigits(ds)
    ensures ParseInt(ds) == Some(DigitsValue(ds))
  {
    assert IsDigit(ds[0]);
    assert !IsWhitespace(ds[0]);
    assert TrimStart(ds) == ds;
    assert ds[0] != '-' && ds[0] != '+';
    DigitPrefixAll(ds);
  }

  /**
   * `Number(s)` for the strings a date part can hold: surrounding whitespace is ignored,
   * an empty string is 0, a string of digits its value; anything else is `NaN` (`None`).
   */
  function JsNumber(s: string): (r: Option<int>)
    ensures |s| > 0 && AllDigits(s) ==> r == Some(DigitsValue(s))
  {
    var t := Trim(s);
    assert |s| > 0 && AllDigits(s) ==> t == s by {
      if |s| > 0 && AllDigits(s) {
        TrimDigits(s);
      }
    }
    if t == "" then Some(0)
    else if AllDigits(t) then Some(DigitsValue(t))
    else None
  }

  /** A string of digits has no surrounding whitespace. */
  lemma TrimDigits(s: string)
    requires |s| > 0 && AllDigits(s)
    ensures Trim(s) == s
  {
    assert !IsWhitespace(s[0]);
    assert TrimStart(s) == s;
    assert !IsWhitespace(s[|s| - 1]);
  }
}
