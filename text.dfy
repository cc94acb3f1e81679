/**
 * The handful of Python `str` operations the library relies on, written out
 * character by character: whitespace stripping, splitting, joining,
 * `replace`, ASCII case mapping, `ljust`, and the decimal `str(int)` /
 * `int(str)` conversions.
 */
module Text {
  import opened Wrappers

  /** Python's `str.isspace()`, which is also what the `\s` class of `re` and argument-less `strip()` use. */
  predicate IsSpace(c: char) {
    || ('\U{9}' <= c <= '\U{D}')
    || ('\U{1C}' <= c <= ' ')
    || c == '\U{85}' || c == '\U{A0}' || c == '\U{1680}'
    || ('\U{2000}' <= c <= '\U{200A}')
    || c == '\U{2028}' || c == '\U{2029}' || c == '\U{202F}' || c == '\U{205F}' || c == '\U{3000}'
  }

  /** `\d`, restricted to the ASCII digits. */
  predicate IsDigit(c: char) {
    '0' <= c <= '9'
  }

  /** `[A-Z]`. */
  predicate IsUpper(c: char) {
    'A' <= c <= 'Z'
  }

  predicate IsLower(c: char) {
    'a' <= c <= 'z'
  }

  predicate AllSpace(s: string) {
    forall i :: 0 <= i < |s| ==> IsSpace(s[i])
  }

  predicate AllDigits(s: string) {
    forall i :: 0 <= i < |s| ==> IsDigit(s[i])
  }

  predicate StartsWith(s: string, prefix: string) {
    |prefix| <= |s| && s[..|prefix|] == prefix
  }

  /** How many whitespace characters `s` starts with. */
  function LeadingSpace(s: string): (n: nat)
    ensures n <= |s| && (n < |s| ==> !IsSpace(s[n]))
  {
    if s != [] && IsSpace(s[0]) then 1 + LeadingSpace(s[1..]) else 0
  }

  /** How many whitespace characters `s` ends with. */
  function TrailingSpace(s: string): (n: nat)
    ensures n <= |s| && (n < |s| ==> !IsSpace(s[|s| - 1 - n]))
  {
    if s != [] && IsSpace(s[|s| - 1]) then 1 + TrailingSpace(s[..|s| - 1]) else 0
  }

  /** `s.lstrip()` */
  function LStrip(s: string): (r: string)
    ensures |r| <= |s| && r == s[|s| - |r|..]
    ensures r == [] || !IsSpace(r[0])
  {
    s[LeadingSpace(s)..]
  }

  /** What `lstrip` removes is whitespace only. */
  lemma {:induction false} LStripDropsSpace(s: string)
    ensures AllSpace(s[..|s| - |LStrip(s)|])
  {
    if s != [] && IsSpace(s[0]) {
      LStripDropsSpace(s[1..]);
      var n := LeadingSpace(s[1..]);
      assert s[..1 + n] == [s[0]] + s[1..][..n];
    }
  }

  /** `s.rstrip()` */
  function RStrip(s: string): (r: string)
    ensures |r| <= |s| && r == s[..|r|]
    ensures r == [] || !IsSpace(r[|r| - 1])
  {
    s[..|s| - TrailingSpace(s)]
  }

  /** What `rstrip` removes is whitespace only. */
  lemma {:induction false} RStripDropsSpace(s: string)
    ensures AllSpace(s[|RStrip(s)|..])
  {
    if s != [] && IsSpace(s[|s| - 1]) {
      var t := s[..|s| - 1];
      RStripDropsSpace(t);
      var n := TrailingSpace(t);
      assert s[|t| - n..] == t[|t| - n..] + [s[|s| - 1]];
    }
  }

  /** `s.strip()` */
  function Strip(s: string): (r: string)
    ensures |r| <= |s|
    ensures r == [] || (!IsSpace(r[0]) && !IsSpace(r[|r| - 1]))
  {
    LStrip(RStrip(s))
  }

  lemma StripOfStripped(s: string)
    requires s == [] || (!IsSpace(s[0]) && !IsSpace(s[|s| - 1]))
    ensures Strip(s) == s
  {
  }

  /** `s.rstrip(c)` for a single character `c`. */
  function RStripChar(s: string, c: char): (r: string)
    ensures |r| <= |s| && r == s[..|r|]
    ensures r == [] || r[|r| - 1] != c
    ensures forall i :: |r| <= i < |s| ==> s[i] == c
  {
    if s != [] && s[|s| - 1] == c then RStripChar(s[..|s| - 1], c) else s
  }

  /** The first index of `c` in `s`. */
  function IndexOf(s: string, c: char): (i: nat)
    requires c in s
    ensures i < |s| && s[i] == c && c !in s[..i]
  {
    if s[0] == c then 0 else 1 + IndexOf(s[1..], c)
  }

  /** `glue.join(parts)` */
  function Join(parts: seq<string>, glue: string): string {
    if |parts| == 0 then ""
    else if |parts| == 1 then parts[0]
    else parts[0] + glue + Join(parts[1..], glue)
  }

  /** `s.split(sep)` for a one-character separator: never empty, and joining the parts back gives `s`. */
  function Split(s: string, sep: char): (r: seq<string>)
    ensures |r| >= 1
    ensures forall i :: 0 <= i < |r| ==> sep !in r[i]
    ensures Join(r, [sep]) == s
  {
    if sep !in s then [s]
    else
      var i := IndexOf(s, sep);
      var rest := Split(s[i + 1..], sep);
      assert Join([s[..i]] + rest, [sep]) == s[..i] + [sep] + Join(rest, [sep]) by {
        assert ([s[..i]] + rest)[1..] == rest;
      }
      assert s == s[..i] + [sep] + s[i + 1..];
      [s[..i]] + rest
  }

  /** The number of `sep` characters in `s`. */
  function Count(s: string, sep: char): nat {
    if s == [] then 0 else (if s[0] == sep then 1 else 0) + Count(s[1..], sep)
  }

  lemma {:induction false} CountAppend(a: string, b: string, sep: char)
    ensures Count(a + b, sep) == Count(a, sep) + Count(b, sep)
  {
    if a != [] {
      assert (a + b)[1..] == a[1..] + b;
      CountAppend(a[1..], b, sep);
    } else {
      assert a + b == b;
    }
  }

  /** `s.split(sep)` yields one more part than there are separators. */
  lemma {:induction false} SplitLength(s: string, sep: char)
    ensures |Split(s, sep)| == Count(s, sep) + 1
    decreases |s|
  {
    if sep !in s {
      if Count(s, sep) != 0 {
        CountPositive(s, sep);
        assert false;
      }
    } else {
      var i := IndexOf(s, sep);
      SplitLength(s[i + 1..], sep);
      assert s == s[..i] + [sep] + s[i + 1..];
      CountAppend(s[..i] + [sep], s[i + 1..], sep);
      CountAppend(s[..i], [sep], sep);
      if Count(s[..i], sep) != 0 {
        CountPositive(s[..i], sep);
        assert false;
      }
      assert Count([sep], sep) == 1 by {
        assert [sep][1..] == [];
      }
    }
  }

  lemma {:induction false} CountPositive(s: string, sep: char)
    requires Count(s, sep) != 0
    ensures sep in s
  {
    if s[0] != sep {
      CountPositive(s[1..], sep);
    }
  }

  /** `s.split(None, 1)`: the first whitespace-delimited token and the rest after the whitespace run. */
  function SplitFirstWord(s: string): (r: seq<string>)
    ensures |r| <= 2
    ensures |r| == 0 <==> LStrip(s) == []
    ensures |r| >= 1 ==> r[0] != []
  {
    var t := LStrip(s);
    if t == [] then []
    else
      var i := FirstSpace(t);
      if i == |t| then [t]
      else
        var rest := LStrip(t[i..]);
        if rest == [] then [t[..i]] else [t[..i], rest]
  }

  /** The index of the first whitespace character of `s`, or `|s|`. */
  function FirstSpace(s: string): (i: nat)
    ensures i <= |s|
    ensures i < |s| ==> IsSpace(s[i])
  {
    if s == [] then 0 else if IsSpace(s[0]) then 0 else 1 + FirstSpace(s[1..])
  }

  /** No character before the first whitespace character is whitespace. */
  lemma {:induction false} FirstSpaceBefore(s: string, j: nat)
    requires j < FirstSpace(s)
    ensures !IsSpace(s[j])
  {
    if j > 0 {
      FirstSpaceBefore(s[1..], j - 1);
    }
  }

  /** There is an occurrence of `pat` in `s`. */
  ghost predicate Contains(s: string, pat: string) {
    exists i :: OccursAt(s, pat, i)
  }

  /** `pat` occurs in `s` starting at index `i`. */
  predicate OccursAt(s: string, pat: string, i: int) {
    0 <= i && i + |pat| <= |s| && s[i..i + |pat|] == pat
  }

  /** `s.replace(pat, rep)`: every non-overlapping occurrence, scanning left to right. */
  function Replace(s: string, pat: string, rep: string): (r: string)
    decreases |s|
  {
    if pat == [] then
      (if s == [] then rep else rep + [s[0]] + Replace(s[1..], pat, rep))
    else if |s| < |pat| then s
    else if s[..|pat|] == pat then rep + Replace(s[|pat|..], pat, rep)
    else [s[0]] + Replace(s[1..], pat, rep)
  }

  /** A string with no occurrence of a non-empty pattern is left unchanged by `replace`. */
  lemma {:induction false} ReplaceAbsent(s: string, pat: string, rep: string)
    requires pat != [] && !Contains(s, pat)
    ensures Replace(s, pat, rep) == s
    decreases |s|
  {
    if |s| >= |pat| {
      assert !OccursAt(s, pat, 0);
      assert !Contains(s[1..], pat) by {
        forall i | OccursAt(s[1..], pat, i)
          ensures OccursAt(s, pat, i + 1)
        {
          assert s[1..][i..i + |pat|] == s[i + 1..i + 1 + |pat|];
        }
      }
      ReplaceAbsent(s[1..], pat, rep);
      assert s == [s[0]] + s[1..];
    }
  }

  /** Text that never contains the first character of the pattern passes through `replace` untouched. */
  lemma {:induction false} ReplaceAfterPlain(x: string, t: string, pat: string, rep: string)
    requires pat != [] && pat[0] !in x
    ensures Replace(x + t, pat, rep) == x + Replace(t, pat, rep)
    decreases |x|
  {
    if x != [] {
      var s := x + t;
      assert s[0] == x[0];
      if |s| >= |pat| {
        assert s[..|pat|] != pat by { assert s[..|pat|][0] == x[0]; }
        assert s[1..] == x[1..] + t;
        ReplaceAfterPlain(x[1..], t, pat, rep);
        assert x == [x[0]] + x[1..];
      } else {
        ReplaceAbsent(x[1..] + t, pat, rep);
        assert s == [x[0]] + (x[1..] + t);
        ReplaceAbsentShort(t, pat, rep);
      }
    } else {
      assert x + t == t;
    }
  }

  lemma ReplaceAbsentShort(s: string, pat: string, rep: string)
    requires pat != [] && |s| < |pat|
    ensures Replace(s, pat, rep) == s
  {
  }

  /**
   * Text segments free of the pattern's first character, separated by occurrences
   * of the pattern: `replace` substitutes every separator and nothing else.
   */
  lemma {:induction false} ReplaceJoin(segs: seq<string>, pat: string, rep: string)
    requires pat != []
    requires forall i :: 0 <= i < |segs| ==> pat[0] !in segs[i]
    ensures Replace(Join(segs, pat), pat, rep) == Join(segs, rep)
  {
    if |segs| == 0 {
    } else if |segs| == 1 {
      ReplaceAfterPlain(segs[0], [], pat, rep);
      assert segs[0] + [] == segs[0];
    } else {
      var tail := Join(segs[1..], pat);
      ReplaceAfterPlain(segs[0], pat + tail, pat, rep);
      assert (pat + tail)[..|pat|] == pat;
      assert (pat + tail)[|pat|..] == tail;
      ReplaceJoin(segs[1..], pat, rep);
      assert segs[0] + pat + tail == segs[0] + (pat + tail);
      assert Replace(pat + tail, pat, rep) == rep + Replace(tail, pat, rep);
    }
  }

  /** ASCII lower-casing, the part of `str.lower()` the CSV header table can be reached with. */
  function Lower(s: string): (r: string)
    ensures |r| == |s|
    ensures forall i :: 0 <= i < |s| ==> r[i] == (if IsUpper(s[i]) then s[i] - 'A' + 'a' else s[i])
  {
    if s == [] then [] else [if IsUpper(s[0]) then s[0] - 'A' + 'a' else s[0]] + Lower(s[1..])
  }

  function UpperChar(c: char): char {
    if IsLower(c) then c - 'a' + 'A' else c
  }

  function LowerChar(c: char): char {
    if IsUpper(c) then c - 'A' + 'a' else c
  }

  predicate IsCased(c: char) {
    IsUpper(c) || IsLower(c)
  }

  /**
   * `str.title()` over ASCII letters: a letter that follows a cased letter is
   * lower-cased, any other letter upper-cased; other characters are kept.
   */
  function Title(s: string): (r: string)
    ensures |r| == |s|
  {
    TitleAfter(s, false)
  }

  function TitleAfter(s: string, prevCased: bool): (r: string)
    ensures |r| == |s|
    ensures forall i :: 0 <= i < |s| ==> r[i] == (if (if i == 0 then prevCased else IsCased(s[i - 1])) then LowerChar(s[i]) else UpperChar(s[i]))
  {
    if s == [] then []
    else
      var rest := TitleAfter(s[1..], IsCased(s[0]));
      [if prevCased then LowerChar(s[0]) else UpperChar(s[0])] + rest
  }

  /** `s.replace(a, b)` for single characters, as a per-character map. */
  function ReplaceChar(s: string, a: char, b: char): (r: string)
    ensures |r| == |s|
    ensures forall i :: 0 <= i < |s| ==> r[i] == (if s[i] == a then b else s[i])
  {
    if s == [] then [] else [if s[0] == a then b else s[0]] + ReplaceChar(s[1..], a, b)
  }

  /** `c * n` */
  function Repeat(c: char, n: nat): (r: string)
    ensures |r| == n
    ensures forall i :: 0 <= i < n ==> r[i] == c
  {
    if n == 0 then [] else [c] + Repeat(c, n - 1)
  }

  /** `s.ljust(w)`: pad with spaces on the right up to width `w`; never shortens. */
  function LJust(s: string, w: nat): (r: string)
    ensures |r| == if |s| >= w then |s| else w
    ensures r[..|s|] == s
    ensures forall i :: |s| <= i < |r| ==> r[i] == ' '
  {
    if |s| >= w then s else s + Repeat(' ', w - |s|)
  }

  function DigitChar(d: nat): char
    requires d < 10
  {
    '0' + d as char
  }

  /** `str(n)` for a natural number. */
  function NatToString(n: nat): (r: string)
    ensures r != [] && AllDigits(r)
    ensures |r| > 1 ==> r[0] != '0'
  {
    if n < 10 then [DigitChar(n)] else NatToString(n / 10) + [DigitChar(n % 10)]
  }

  /** `str(i)` for an integer. */
  function IntToString(i: int): string {
    if i < 0 then "-" + NatToString(-i) else NatToString(i)
  }

  /** The value of a string of ASCII digits. */
  function DigitsValue(s: string): nat
    requires AllDigits(s)
  {
    if s == [] then 0 else 10 * DigitsValue(s[..|s| - 1]) + (s[|s| - 1] - '0') as nat
  }

  lemma {:induction false} DigitsOfNat(n: nat)
    ensures DigitsValue(NatToString(n)) == n
  {
    if n >= 10 {
      DigitsOfNat(n / 10);
      var s := NatToString(n);
      assert s[..|s| - 1] == NatToString(n / 10);
    }
  }

  /**
   * The digit body of an `int()` literal: digits, with single underscores allowed
   * between two digits (PEP 515); the underscores are dropped.
   */
  function DigitBody(s: string): Option<string> {
    if s == [] || !IsDigit(s[0]) || !IsDigit(s[|s| - 1]) then None
    else DigitGroups(s)
  }

  function DigitGroups(s: string): (r: Option<string>)
    ensures r.Some? ==> AllDigits(r.value)
  {
    if s == [] then Some([])
    else if IsDigit(s[0]) then
      (match DigitGroups(s[1..])
       case Some(rest) => Some([s[0]] + rest)
       case None => None)
    else if s[0] == '_' && |s| >= 2 && IsDigit(s[1]) then DigitGroups(s[1..])
    else None
  }

  /** Python's `int(s)` on a string (base 10): surrounding whitespace, an optional sign, then the digit body. */
  function ParseInt(s: string): Option<int> {
    ParseSigned(Strip(s))
  }

  /** An optional sign, then the digit body. */
  function ParseSigned(t: string): Option<int> {
    if t == [] then None
    else
      var neg := t[0] == '-';
      var body := if t[0] == '-' || t[0] == '+' then t[1..] else t;
      match DigitBody(body)
      case None => None
      case Some(ds) => Some(if neg then -(DigitsValue(ds) as int) else DigitsValue(ds) as int)
  }

  lemma {:induction false} DigitGroupsOfDigits(s: string)
    requires AllDigits(s)
    ensures DigitGroups(s) == Some(s)
  {
    if s != [] {
      DigitGroupsOfDigits(s[1..]);
      assert s == [s[0]] + s[1..];
    }
  }

  lemma StripSigned(s: string, neg: bool, digits: string)
    requires digits != [] && AllDigits(digits)
    requires s == if neg then "-" + digits else digits
    ensures Strip(s) == s
  {
    assert s[|s| - 1] == digits[|digits| - 1];
    assert !IsSpace(s[0]) && !IsSpace(s[|s| - 1]);
    StripOfStripped(s);
  }

  lemma ParseStripped(s: string, digits: string)
    requires digits != [] && AllDigits(digits)
    requires Strip(s) == s && s != []
    requires (if s[0] == '-' || s[0] == '+' then s[1..] else s) == digits
    ensures ParseInt(s) == Some(if s[0] == '-' then -(DigitsValue(digits) as int) else DigitsValue(digits) as int)
  {
    DigitGroupsOfDigits(digits);
    assert IsDigit(digits[0]) && IsDigit(digits[|digits| - 1]);
    assert DigitBody(digits) == Some(digits);
    assert ParseInt(s) == ParseSigned(s);
  }

  /** `int(str(i)) == i`: the decimal rendering of an integer parses back to it. */
  lemma IntRoundTrip(i: int)
    ensures ParseInt(IntToString(i)) == Some(i)
  {
    var n: nat := if i < 0 then -i else i;
    var digits := NatToString(n);
    var s := IntToString(i);
    DigitsOfNat(n);
    StripSigned(s, i < 0, digits);
    assert (if s[0] == '-' || s[0] == '+' then s[1..] else s) == digits;
    ParseStripped(s, digits);
  }

  /** The text after the last `c` in `s`, or all of `s` when `c` does not occur (`s.rsplit(c, 1)[-1]`). */
  function AfterLast(s: string, c: char): (r: string)
    ensures |r| <= |s| && r == s[|s| - |r|..]
    ensures c !in r
    ensures |r| < |s| ==> s[|s| - |r| - 1] == c
  {
    var n := TrailingOther(s, c);
    s[|s| - n..]
  }

  /** The number of characters other than `c` at the end of `s`. */
  function TrailingOther(s: string, c: char): (n: nat)
    ensures n <= |s| && (n < |s| ==> s[|s| - 1 - n] == c)
    ensures forall i :: |s| - n <= i < |s| ==> s[i] != c
  {
    if s != [] && s[|s| - 1] != c then 1 + TrailingOther(s[..|s| - 1], c) else 0
  }
}
