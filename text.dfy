/** The few Python string operations the pipeline relies on: `strip`, `upper`, the
    regular-expression class `\w`, `str(int)` and the code-point order `sorted` uses. */
module Text {

  /** `c.isspace()`: the characters `str.strip()` removes. */
  predicate IsSpace(c: char)
  {
    c == ' ' || '\t' <= c <= '\r' || '\U{1C}' <= c <= '\U{1F}' || c == '\U{85}' || c == '\U{A0}'
    || c == '\U{1680}' || '\U{2000}' <= c <= '\U{200A}' || c == '\U{2028}' || c == '\U{2029}'
    || c == '\U{202F}' || c == '\U{205F}' || c == '\U{3000}'
  }

  /** `s.lstrip(chars)` with the stripped characters given by `drop`. */
  function TrimStart(s: string, drop: char -> bool): (r: string)
    ensures |r| <= |s| && r == s[|s| - |r|..]
    ensures r != [] ==> !drop(r[0])
    ensures forall i :: 0 <= i < |s| - |r| ==> drop(s[i])
  {
    if s != [] && drop(s[0]) then TrimStart(s[1..], drop) else s
  }

  /** `s.rstrip(chars)` with the stripped characters given by `drop`. */
  function TrimEnd(s: string, drop: char -> bool): (r: string)
    ensures |r| <= |s| && r == s[..|r|]
    ensures r != [] ==> !drop(r[|r| - 1])
    ensures forall i :: |r| <= i < |s| ==> drop(s[i])
  {
    if s != [] && drop(s[|s| - 1]) then TrimEnd(s[..|s| - 1], drop) else s
  }

  /** `s.strip(chars)`: the longest middle slice with no dropped character at either end. */
  function Trim(s: string, drop: char -> bool): (r: string)
    ensures |r| <= |s|
  {
    TrimEnd(TrimStart(s, drop), drop)
  }

  /** `Trim` keeps the middle slice between a dropped prefix and a dropped suffix, does not
      start or end with a dropped character, and is empty exactly when every character is
      dropped. */
  lemma TrimFacts(s: string, drop: char -> bool)
    ensures var r := Trim(s, drop);
            var lo := |s| - |TrimStart(s, drop)|;
            lo + |r| <= |s| && r == s[lo..lo + |r|]
            && (forall i :: 0 <= i < lo ==> drop(s[i]))
            && (forall i :: lo + |r| <= i < |s| ==> drop(s[i]))
            && (r != [] ==> !drop(r[0]) && !drop(r[|r| - 1]))
            && ((forall i :: 0 <= i < |s| ==> drop(s[i])) <==> r == [])
  {
    TrimMiddle(s, drop);
    TrimEnds(s, drop);
    TrimEmpty(s, drop);
  }

  /** The two trims together cut a prefix and a suffix of dropped characters off `s`. */
  lemma TrimMiddle(s: string, drop: char -> bool)
    ensures var t := TrimStart(s, drop);
            var r := TrimEnd(t, drop);
            var lo := |s| - |t|;
            lo + |r| <= |s| && r == s[lo..lo + |r|]
            && (forall i :: lo + |r| <= i < |s| ==> drop(s[i]))
  {
    var t := TrimStart(s, drop);
    var r := TrimEnd(t, drop);
    var lo := |s| - |t|;
    assert t == s[lo..];
    forall j | 0 <= j < |r| ensures r[j] == s[lo + j] {
      assert r[j] == t[j];
    }
    assert r == s[lo..lo + |r|];
    forall i | lo + |r| <= i < |s| ensures drop(s[i]) {
      assert s[i] == t[i - lo];
    }
  }

  lemma TrimEnds(s: string, drop: char -> bool)
    ensures var r := TrimEnd(TrimStart(s, drop), drop);
            r != [] ==> !drop(r[0]) && !drop(r[|r| - 1])
  {
    var t := TrimStart(s, drop);
    var r := TrimEnd(t, drop);
    if r != [] {
      assert r[0] == t[0];
    }
  }

  lemma TrimEmpty(s: string, drop: char -> bool)
    ensures (forall i :: 0 <= i < |s| ==> drop(s[i])) <==> TrimEnd(TrimStart(s, drop), drop) == []
  {
    var t := TrimStart(s, drop);
    var lo := |s| - |t|;
    if t != [] {
      assert t[0] == s[lo];
    }
    TrimMiddle(s, drop);
  }

  /** `s.strip()`. */
  function Strip(s: string): string
  {
    Trim(s, IsSpace)
  }

  /** `c.upper()` for characters up to U+00FF, Latin-1 included (`ß` becomes `SS`). */
  function UpperChar(c: char): (r: string)
    ensures r != []
    ensures 'a' <= c <= 'z' ==> r == [(c as int - 32) as char]
    ensures c as int < 128 && !('a' <= c <= 'z') ==> r == [c]
  {
    if 'a' <= c <= 'z' || ('\U{E0}' <= c <= '\U{FE}' && c != '\U{F7}') then
      [(c as int - 32) as char]
    else if c == '\U{DF}' then "SS"
    else if c == '\U{FF}' then ['\U{178}']
    else if c == '\U{B5}' then ['\U{39C}']
    else [c]
  }

  /** `s.upper()`. */
  function Upper(s: string): (r: string)
    ensures s != [] ==> r != []
    ensures |r| >= |s|
  {
    if s == [] then [] else UpperChar(s[0]) + Upper(s[1..])
  }

  /** The regular-expression class `\w` on `str` patterns (alphanumerics in the sense of
      `str.isalnum()`, and `_`), exact for characters up to U+00FF. */
  predicate IsWordChar(c: char)
  {
    'a' <= c <= 'z' || 'A' <= c <= 'Z' || '0' <= c <= '9' || c == '_'
    || c == '\U{AA}' || c == '\U{B2}' || c == '\U{B3}' || c == '\U{B5}' || c == '\U{B9}'
    || c == '\U{BA}' || '\U{BC}' <= c <= '\U{BE}' || '\U{C0}' <= c <= '\U{D6}'
    || '\U{D8}' <= c <= '\U{F6}' || '\U{F8}' <= c <= '\U{FF}'
  }

  /** `re.sub(r"[^<class>]", "_", s)`: every character outside the class becomes `_`. */
  function ReplaceOutside(s: string, keep: char -> bool): (r: string)
    ensures |r| == |s|
    ensures forall i :: 0 <= i < |s| ==> r[i] == if keep(s[i]) then s[i] else '_'
  {
    seq(|s|, i requires 0 <= i < |s| => if keep(s[i]) then s[i] else '_')
  }

  /** `s.replace(a, b)` for single characters. */
  function ReplaceChar(s: string, a: char, b: char): (r: string)
    ensures |r| == |s|
    ensures forall i :: 0 <= i < |s| ==> r[i] == if s[i] == a then b else s[i]
  {
    seq(|s|, i requires 0 <= i < |s| => if s[i] == a then b else s[i])
  }

  predicate IsDigit(c: char)
  {
    '0' <= c <= '9'
  }

  /** `str(n)` for a non-negative integer. */
  function NatToString(n: nat): (r: string)
    ensures r != []
    ensures forall i :: 0 <= i < |r| ==> IsDigit(r[i])
    ensures |r| > 1 ==> r[0] != '0'
  {
    if n < 10 then [('0' as int + n) as char]
    else NatToString(n / 10) + [('0' as int + n % 10) as char]
  }

  /** `str(n)` for any integer. */
  function IntToString(n: int): string
  {
    if n < 0 then "-" + NatToString(-n) else NatToString(n)
  }

  /** `int(s)` for a string of decimal digits. */
  function ParseDigits(s: string): nat
    requires forall i :: 0 <= i < |s| ==> IsDigit(s[i])
  {
    if s == [] then 0
    else
      assert IsDigit(s[|s| - 1]);
      ParseDigits(s[..|s| - 1]) * 10 + (s[|s| - 1] as int - '0' as int)
  }

  /** `int(str(n)) == n`. */
  lemma {:induction false} NatToStringRoundTrip(n: nat)
    ensures ParseDigits(NatToString(n)) == n
  {
    if n >= 10 {
      var s := NatToString(n / 10);
      var t := NatToString(n);
      NatToStringRoundTrip(n / 10);
      assert t[..|t| - 1] == s;
    }
  }

  /** Python's `a < b` on `str`: lexicographic by code point, a proper prefix first. */
  predicate StrLt(a: string, b: string)
  {
    if a == [] then b != []
    else b != [] && (a[0] < b[0] || (a[0] == b[0] && StrLt(a[1..], b[1..])))
  }

  lemma {:induction false} StrLtIrreflexive(a: string)
    ensures !StrLt(a, a)
  {
    if a != [] {
      StrLtIrreflexive(a[1..]);
    }
  }

  lemma {:induction false} StrLtTransitive(a: string, b: string, c: string)
    requires StrLt(a, b) && StrLt(b, c)
    ensures StrLt(a, c)
  {
    if a != [] && a[0] == b[0] && b[0] == c[0] {
      StrLtTransitive(a[1..], b[1..], c[1..]);
    }
  }

  lemma {:induction false} StrLtTotal(a: string, b: string)
    requires a != b
    ensures StrLt(a, b) || StrLt(b, a)
  {
    if a != [] && b != [] && a[0] == b[0] {
      assert a == [a[0]] + a[1..] && b == [b[0]] + b[1..];
      StrLtTotal(a[1..], b[1..]);
    }
  }
}
