/**
 The Python 2 string built-ins the notifier uses, on strings as sequences of
 characters: `strip`, `splitlines`, `split` with a one-character separator,
 `join`, prefix slicing `s[:n]` and `str` of an integer.
 */
module PyStr {

  /** Whitespace as a byte string's `strip()` sees it: the six ASCII whitespace bytes. */
  predicate IsAsciiSpace(c: char) {
    c == ' ' || c == '\t' || c == '\n' || c == '\r' || c == '\U{0B}' || c == '\U{0C}'
  }

  /** Whitespace as a Python 2.7 `unicode` string's `strip()` sees it (`unicode.isspace`). */
  predicate IsUnicodeSpace(c: char) {
    var n := c as int;
    || (0x09 <= n <= 0x0D)
    || (0x1C <= n <= 0x20)
    || n == 0x85 || n == 0xA0 || n == 0x1680 || n == 0x180E
    || (0x2000 <= n <= 0x200A)
    || n == 0x2028 || n == 0x2029 || n == 0x202F || n == 0x205F || n == 0x3000
  }

  /** Line boundaries of Python 2.7 `unicode.splitlines`. */
  predicate IsLineBreak(c: char) {
    || c == '\n' || c == '\r' || c == '\U{0B}' || c == '\U{0C}'
    || c == '\U{1C}' || c == '\U{1D}' || c == '\U{1E}' || c == '\U{85}'
    || c == '\U{2028}' || c == '\U{2029}'
  }

  predicate AllSatisfy(s: string, p: char -> bool) {
    forall i :: 0 <= i < |s| ==> p(s[i])
  }

  // ---------------------------------------------------------------------------
  // Searching

  /** Index of the first `c` in `s`, or `|s|` when there is none. */
  function Find(s: string, c: char): (k: nat)
    ensures k <= |s|
    ensures forall i :: 0 <= i < k ==> s[i] != c
    ensures k < |s| ==> s[k] == c
  {
    if s == [] || s[0] == c then 0 else 1 + Find(s[1..], c)
  }

  /** Index of the first line boundary in `s`, or `|s|` when there is none. */
  function LineEnd(s: string): (k: nat)
    ensures k <= |s|
    ensures forall i :: 0 <= i < k ==> !IsLineBreak(s[i])
    ensures k < |s| ==> IsLineBreak(s[k])
  {
    if s == [] || IsLineBreak(s[0]) then 0 else 1 + LineEnd(s[1..])
  }

  // ---------------------------------------------------------------------------
  // Slicing

  /** Python's `s[:stop]`: a negative `stop` counts from the end, and the bounds are clamped. */
  function SliceTo(s: string, stop: int): (r: string)
    ensures r <= s
    ensures 0 <= stop ==> |r| == if stop <= |s| then stop else |s|
    ensures stop < 0 ==> |r| == if |s| + stop < 0 then 0 else |s| + stop
  {
    if stop > |s| then s
    else if stop >= 0 then s[..stop]
    else if |s| + stop < 0 then []
    else s[..|s| + stop]
  }

  // ---------------------------------------------------------------------------
  // Stripping

  /** Number of leading characters of `s` that satisfy `sp`. */
  function LeadingCount(s: string, sp: char -> bool): (k: nat)
    ensures k <= |s|
    ensures forall i :: 0 <= i < k ==> sp(s[i])
    ensures k < |s| ==> !sp(s[k])
  {
    if s == [] || !sp(s[0]) then 0 else 1 + LeadingCount(s[1..], sp)
  }

  /** Number of trailing characters of `s` that satisfy `sp`. */
  function TrailingCount(s: string, sp: char -> bool): (k: nat)
    ensures k <= |s|
    ensures forall i :: |s| - k <= i < |s| ==> sp(s[i])
    ensures k < |s| ==> !sp(s[|s| - 1 - k])
  {
    if s == [] || !sp(s[|s| - 1]) then 0 else 1 + TrailingCount(s[..|s| - 1], sp)
  }

  /** The right half of Python's `strip()`: trailing characters of the whitespace notion `sp` removed. */
  function TrimRight(s: string, sp: char -> bool): (r: string)
    ensures r <= s
    ensures AllSatisfy(s[|r|..], sp)
    ensures r == [] || !sp(r[|r| - 1])
  {
    s[..|s| - TrailingCount(s, sp)]
  }

  /** Python's `strip()` for the whitespace notion `sp`. */
  function Strip(s: string, sp: char -> bool): (r: string)
    ensures r == [] || (!sp(r[0]) && !sp(r[|r| - 1]))
    ensures r == [] <==> AllSatisfy(s, sp)
    ensures |r| <= |s|
  {
    var k := LeadingCount(s, sp);
    var t := s[k..];
    assert t != [] ==> t[0] == s[k];
    TrimRight(t, sp)
  }

  /** `strip` removes exactly a whitespace prefix and a whitespace suffix: whatever
      lies between them, if it starts and ends with non-whitespace, is the result. */
  lemma {:induction false} StripCharacterization(left: string, mid: string, right: string, sp: char -> bool)
    requires AllSatisfy(left, sp) && AllSatisfy(right, sp)
    requires mid == [] || (!sp(mid[0]) && !sp(mid[|mid| - 1]))
    ensures Strip(left + mid + right, sp) == mid
  {
    var s := left + mid + right;
    if mid == [] {
      assert s == left + right;
      assert AllSatisfy(s, sp) by {
        forall i | 0 <= i < |s| ensures sp(s[i]) {
          if i < |left| { assert s[i] == left[i]; } else { assert s[i] == right[i - |left|]; }
        }
      }
    } else {
      var k := LeadingCount(s, sp);
      assert s[|left|] == mid[0];
      assert forall i :: 0 <= i < |left| ==> s[i] == left[i];
      assert k == |left|;
      var t := s[k..];
      assert t == mid + right;
      var j := TrailingCount(t, sp);
      assert t[|mid| - 1] == mid[|mid| - 1];
      assert forall i :: |mid| <= i < |t| ==> t[i] == right[i - |mid|];
      assert j == |right|;
      assert t[..|t| - j] == mid;
    }
  }

  /** A message that starts and ends with non-whitespace keeps all of itself under
      `strip`; only the trailing whitespace of what follows it goes. */
  lemma StripAfterHead(head: string, tail: string, sp: char -> bool)
    requires head != [] && !sp(head[0]) && !sp(head[|head| - 1])
    ensures Strip(head + tail, sp) == head + TrimRight(tail, sp)
  {
    var body := TrimRight(tail, sp);
    var rest := tail[|body|..];
    var mid := head + body;
    JoinEnds(head, body, sp);
    assert head + tail == [] + mid + rest by {
      assert tail == body + rest;
    }
    StripCharacterization([], mid, rest, sp);
  }

  /** A text that starts and ends with non-whitespace, followed by text that is
      empty or ends with non-whitespace, still starts and ends with non-whitespace. */
  lemma JoinEnds(head: string, body: string, sp: char -> bool)
    requires head != [] && !sp(head[0]) && !sp(head[|head| - 1])
    requires body == [] || !sp(body[|body| - 1])
    ensures var mid := head + body; !sp(mid[0]) && !sp(mid[|mid| - 1])
  {
    var mid := head + body;
    assert mid[0] == head[0];
    if body != [] { assert mid[|mid| - 1] == body[|body| - 1]; } else { assert mid == head; }
  }

  // ---------------------------------------------------------------------------
  // Lines

  /** Where the line that ends at `k` resumes: past a two-character "\r\n", past one boundary otherwise. */
  function NextLineStart(s: string, k: nat): (j: nat)
    requires k <= |s|
    ensures k <= j <= |s|
    ensures k < |s| ==> k < j
  {
    if k == |s| then k
    else if s[k] == '\r' && k + 1 < |s| && s[k + 1] == '\n' then k + 2
    else k + 1
  }

  /** Python 2.7 `unicode.splitlines()`: the lines of `s` without their boundaries;
      a final boundary does not open an empty last line. */
  function SplitLines(s: string): (lines: seq<string>)
    ensures s == [] <==> lines == []
    ensures forall i, j :: 0 <= i < |lines| && 0 <= j < |lines[i]| ==> !IsLineBreak(lines[i][j])
    decreases |s|
  {
    if s == [] then []
    else
      var k := LineEnd(s);
      [s[..k]] + SplitLines(s[NextLineStart(s, k)..])
  }

  /** Python's `sep.join(parts)`. */
  function Join(parts: seq<string>, sep: string): string
  {
    if |parts| == 0 then ""
    else if |parts| == 1 then parts[0]
    else parts[0] + sep + Join(parts[1..], sep)
  }

  /** Every line boundary is whitespace to `unicode.isspace`. */
  lemma LineBreakIsSpace(c: char)
    ensures IsLineBreak(c) ==> IsUnicodeSpace(c)
  {
  }

  /** Whether every one of the lines is blank. */
  predicate AllBlank(lines: seq<string>, sp: char -> bool) {
    forall i :: 0 <= i < |lines| ==> AllSatisfy(lines[i], sp)
  }

  /** A text's first line and the text after the boundary that ends it. */
  lemma SplitLinesFirst(s: string)
    requires s != []
    ensures SplitLines(s) == [s[..LineEnd(s)]] + SplitLines(s[NextLineStart(s, LineEnd(s))..])
  {
  }

  /** What lies between a line and the next is one boundary, or "\r\n". */
  lemma BoundaryIsBreak(s: string, k: nat)
    requires k <= |s| && (k < |s| ==> IsLineBreak(s[k]))
    ensures forall i :: k <= i < NextLineStart(s, k) ==> IsLineBreak(s[i])
  {
  }

  lemma AllSatisfyAppend(a: string, b: string, sp: char -> bool)
    ensures AllSatisfy(a + b, sp) <==> AllSatisfy(a, sp) && AllSatisfy(b, sp)
  {
    if AllSatisfy(a, sp) && AllSatisfy(b, sp) {
      forall i | 0 <= i < |a + b| ensures sp((a + b)[i]) {
        if i >= |a| { assert (a + b)[i] == b[i - |a|]; }
      }
    }
    if AllSatisfy(a + b, sp) {
      forall i | 0 <= i < |a| ensures sp(a[i]) { assert a[i] == (a + b)[i]; }
      forall i | 0 <= i < |b| ensures sp(b[i]) { assert b[i] == (a + b)[|a| + i]; }
    }
  }

  lemma AllBlankCons(line: string, lines: seq<string>, sp: char -> bool)
    ensures AllBlank([line] + lines, sp) <==> AllSatisfy(line, sp) && AllBlank(lines, sp)
  {
    if AllSatisfy(line, sp) && AllBlank(lines, sp) {
      forall i | 0 <= i < |[line] + lines| ensures AllSatisfy(([line] + lines)[i], sp) {
        if i > 0 { assert ([line] + lines)[i] == lines[i - 1]; }
      }
    }
    if AllBlank([line] + lines, sp) {
      assert ([line] + lines)[0] == line;
      forall i | 0 <= i < |lines| ensures AllSatisfy(lines[i], sp) { assert lines[i] == ([line] + lines)[i + 1]; }
    }
  }

  /** The boundary after a line is blank to any whitespace notion covering the boundaries. */
  lemma BoundaryBlank(s: string, k: nat, sp: char -> bool)
    requires forall c :: IsLineBreak(c) ==> sp(c)
    requires k <= |s| && (k < |s| ==> IsLineBreak(s[k]))
    ensures AllSatisfy(s[k..NextLineStart(s, k)], sp)
  {
    BoundaryIsBreak(s, k);
  }

  /** Cutting a blank middle out of a text does not change whether it is blank. */
  lemma BlankAround(s: string, k: nat, j: nat, sp: char -> bool)
    requires k <= j <= |s| && AllSatisfy(s[k..j], sp)
    ensures AllSatisfy(s, sp) <==> AllSatisfy(s[..k], sp) && AllSatisfy(s[j..], sp)
  {
    assert s == s[..k] + s[k..j] + s[j..];
    AllSatisfyAppend(s[..k], s[k..j], sp);
    AllSatisfyAppend(s[..k] + s[k..j], s[j..], sp);
  }

  /** For any notion of whitespace that covers the line boundaries, a text is all
      whitespace exactly when every one of its lines is. */
  lemma {:induction false} SplitLinesBlankFor(s: string, sp: char -> bool)
    requires forall c :: IsLineBreak(c) ==> sp(c)
    ensures AllBlank(SplitLines(s), sp) <==> AllSatisfy(s, sp)
    decreases |s|
  {
    if s != [] {
      var k := LineEnd(s);
      var j := NextLineStart(s, k);
      SplitLinesFirst(s);
      SplitLinesBlankFor(s[j..], sp);
      AllBlankCons(s[..k], SplitLines(s[j..]), sp);
      BoundaryBlank(s, k, sp);
      BlankAround(s, k, j, sp);
    }
  }

  /** A text is all whitespace exactly when every one of its lines is. */
  lemma SplitLinesBlank(s: string)
    ensures AllBlank(SplitLines(s), IsUnicodeSpace) <==> AllSatisfy(s, IsUnicodeSpace)
  {
    forall c | IsLineBreak(c) ensures IsUnicodeSpace(c) {
      LineBreakIsSpace(c);
    }
    SplitLinesBlankFor(s, IsUnicodeSpace);
  }

  /** The text with every line boundary written "\n", a "\r\n" pair counting as one
      boundary; defined character by character. */
  function UnifyBreaks(s: string): (u: string)
    ensures |u| <= |s|
    ensures u == [] <==> s == []
    decreases |s|
  {
    if s == [] then []
    else if |s| >= 2 && s[0] == '\r' && s[1] == '\n' then "\n" + UnifyBreaks(s[2..])
    else if IsLineBreak(s[0]) then "\n" + UnifyBreaks(s[1..])
    else [s[0]] + UnifyBreaks(s[1..])
  }

  /** The text `splitlines` reads: boundaries unified to "\n", and a final one dropped. */
  function NormalizeBreaks(s: string): string {
    var u := UnifyBreaks(s);
    if u != [] && u[|u| - 1] == '\n' then u[..|u| - 1] else u
  }

  /** Text without a boundary is copied as it is. */
  lemma {:induction false} UnifyPlain(a: string, b: string)
    requires forall i :: 0 <= i < |a| ==> !IsLineBreak(a[i])
    ensures UnifyBreaks(a + b) == a + UnifyBreaks(b)
    decreases |a|
  {
    if a != [] {
      assert (a + b)[0] == a[0] && (a + b)[1..] == a[1..] + b;
      UnifyPlain(a[1..], b);
      assert a == [a[0]] + a[1..];
    } else {
      assert a + b == b;
    }
  }

  /** The characters before the first boundary are copied as they are. */
  lemma UnifyPrefix(s: string, k: nat)
    requires k <= |s|
    requires forall i :: 0 <= i < k ==> !IsLineBreak(s[i])
    ensures UnifyBreaks(s) == s[..k] + UnifyBreaks(s[k..])
  {
    var a, b := s[..k], s[k..];
    assert forall i :: 0 <= i < |a| ==> !IsLineBreak(a[i]);
    UnifyPlain(a, b);
    assert a + b == s;
  }

  /** The boundary that ends a line becomes one "\n". */
  lemma UnifyBoundary(s: string, k: nat)
    requires k < |s| && IsLineBreak(s[k])
    ensures UnifyBreaks(s[k..]) == "\n" + UnifyBreaks(s[NextLineStart(s, k)..])
  {
    var t := s[k..];
    assert t[0] == s[k];
    if s[k] == '\r' && k + 1 < |s| && s[k + 1] == '\n' {
      assert t[1] == s[k + 1] && t[2..] == s[k + 2..];
    } else {
      assert t[1..] == s[k + 1..];
    }
  }

  /** Text without a boundary is its own normal form. */
  lemma NormalizePlain(s: string)
    requires forall i :: 0 <= i < |s| ==> !IsLineBreak(s[i])
    ensures NormalizeBreaks(s) == s
  {
    UnifyPlain(s, []);
    assert s + [] == s;
  }

  /** Normalizing a text that unifies to a line, then "\n", then the rest. */
  lemma NormalizeCons(s: string, line: string, boundary: string, rest: string)
    requires UnifyBreaks(s) == line + UnifyBreaks(boundary)
    requires UnifyBreaks(boundary) == "\n" + UnifyBreaks(rest)
    ensures NormalizeBreaks(s) == if rest == [] then line else line + "\n" + NormalizeBreaks(rest)
  {
    var head := line + "\n";
    var u := UnifyBreaks(rest);
    var w := head + u;
    assert UnifyBreaks(s) == w;
    if rest == [] {
      assert w == head;
    } else {
      assert w[|w| - 1] == u[|u| - 1];
      if u[|u| - 1] == '\n' {
        assert w[..|w| - 1] == head + u[..|u| - 1];
      }
    }
  }

  /** Joining a line in front of at least one more. */
  lemma JoinCons(line: string, tail: seq<string>, sep: string)
    requires tail != []
    ensures Join([line] + tail, sep) == line + sep + Join(tail, sep)
  {
    assert ([line] + tail)[1..] == tail;
  }

  /** Joining the lines with "\n" gives the text with each boundary written "\n" and
      a final boundary dropped, for every text. */
  lemma {:induction false} JoinSplitLinesAll(s: string)
    ensures Join(SplitLines(s), "\n") == NormalizeBreaks(s)
    decreases |s|
  {
    if s != [] {
      var k := LineEnd(s);
      var j := NextLineStart(s, k);
      SplitLinesFirst(s);
      if k == |s| {
        assert s[..k] == s && s[j..] == [];
        NormalizePlain(s);
      } else {
        var line, rest := s[..k], s[j..];
        UnifyPrefix(s, k);
        UnifyBoundary(s, k);
        NormalizeCons(s, line, s[k..], rest);
        if rest != [] {
          JoinSplitLinesAll(rest);
          JoinCons(line, SplitLines(rest), "\n");
        }
      }
    }
  }

  /** Text whose only boundary is "\n" is already unified. */
  lemma {:induction false} UnifyNewlines(s: string)
    requires forall i :: 0 <= i < |s| && IsLineBreak(s[i]) ==> s[i] == '\n'
    ensures UnifyBreaks(s) == s
    decreases |s|
  {
    if s != [] {
      var rest := s[1..];
      assert forall i :: 0 <= i < |rest| ==> rest[i] == s[i + 1];
      UnifyNewlines(rest);
      assert s == [s[0]] + rest;
    }
  }

  /** For text whose only boundary is "\n" and which does not end in one,
      joining the lines back with "\n" gives the text again. */
  lemma JoinSplitLines(s: string)
    requires forall i :: 0 <= i < |s| && IsLineBreak(s[i]) ==> s[i] == '\n'
    requires s == [] || s[|s| - 1] != '\n'
    ensures Join(SplitLines(s), "\n") == s
  {
    JoinSplitLinesAll(s);
    UnifyNewlines(s);
  }

  // ---------------------------------------------------------------------------
  // Splitting on a separator

  /** Python's `s.split(sep)` for a one-character separator: always at least one part. */
  function Split(s: string, sep: char): (parts: seq<string>)
    ensures |parts| >= 1
    ensures forall i :: 0 <= i < |parts| ==> sep !in parts[i]
    decreases |s|
  {
    var k := Find(s, sep);
    if k == |s| then [s]
    else [s[..k]] + Split(s[k + 1..], sep)
  }

  /** Joining the parts of a split with the separator gives the text back. */
  lemma {:induction false} JoinSplit(s: string, sep: char)
    ensures Join(Split(s, sep), [sep]) == s
    decreases |s|
  {
    var k := Find(s, sep);
    if k < |s| {
      var rest := s[k + 1..];
      JoinSplit(rest, sep);
      var tail := Split(rest, sep);
      assert Split(s, sep) == [s[..k]] + tail;
      assert ([s[..k]] + tail)[1..] == tail;
      assert s == s[..k] + [sep] + rest;
    }
  }

  /** Splitting a join of separator-free parts gives the parts back. */
  lemma {:induction false} SplitJoin(parts: seq<string>, sep: char)
    requires |parts| >= 1
    requires forall i :: 0 <= i < |parts| ==> sep !in parts[i]
    ensures Split(Join(parts, [sep]), sep) == parts
    decreases |parts|
  {
    var s := Join(parts, [sep]);
    var p := parts[0];
    assert sep !in p;
    if |parts| == 1 {
      assert Find(s, sep) == |s|;
    } else {
      var rest := Join(parts[1..], [sep]);
      assert s == p + [sep] + rest;
      assert s[|p|] == sep;
      assert forall i :: 0 <= i < |p| ==> s[i] == p[i];
      assert Find(s, sep) == |p|;
      assert s[..|p|] == p;
      assert s[|p| + 1..] == rest;
      SplitJoin(parts[1..], sep);
    }
  }

  // ---------------------------------------------------------------------------
  // Decimal numerals

  predicate IsDigit(c: char) { '0' <= c <= '9' }

  function DigitChar(d: nat): (c: char)
    requires d < 10
    ensures IsDigit(c)
  {
    (('0' as int) + d) as char
  }

  function DigitValue(c: char): (d: nat)
    requires IsDigit(c)
    ensures d < 10
  {
    (c as int) - ('0' as int)
  }

  /** Decimal digits of `n`, most significant first, without leading zeros. */
  function NatToStr(n: nat): (s: string)
    ensures |s| >= 1
    ensures forall i :: 0 <= i < |s| ==> IsDigit(s[i])
    ensures s[0] == '0' ==> n == 0
  {
    if n < 10 then [DigitChar(n)] else NatToStr(n / 10) + [DigitChar(n % 10)]
  }

  /** Python's `str(n)` for an integer: a canonical numeral, signed only when negative. */
  function IntToStr(n: int): (s: string)
    ensures IsCanonicalInt(s)
    ensures s[0] == '-' <==> n < 0
  {
    if n < 0 then
      var d := NatToStr(-n);
      assert ("-" + d)[1..] == d;
      "-" + d
    else NatToStr(n)
  }

  /** The value of a string of decimal digits. */
  function ParseDigits(s: string): nat
    requires forall i :: 0 <= i < |s| ==> IsDigit(s[i])
  {
    if s == [] then 0 else 10 * ParseDigits(s[..|s| - 1]) + DigitValue(s[|s| - 1])
  }

  predicate IsIntLiteral(s: string) {
    if |s| >= 1 && s[0] == '-' then |s| >= 2 && forall i :: 1 <= i < |s| ==> IsDigit(s[i])
    else |s| >= 1 && forall i :: 0 <= i < |s| ==> IsDigit(s[i])
  }

  /** A numeral as `str` writes it: no leading zero unless the number is 0, and no "-0". */
  predicate IsCanonicalInt(s: string) {
    && IsIntLiteral(s)
    && (s[0] == '-' ==> s[1] != '0')
    && (s[0] == '0' ==> |s| == 1)
  }

  /** The integer an optionally signed decimal numeral denotes (Python's `int(s)`). */
  function ParseInt(s: string): int
    requires IsIntLiteral(s)
  {
    if s[0] == '-' then -(ParseDigits(s[1..]) as int) else ParseDigits(s)
  }

  lemma {:induction false} ParseNatToStr(n: nat)
    ensures ParseDigits(NatToStr(n)) == n
    decreases n
  {
    var s := NatToStr(n);
    if n >= 10 {
      ParseNatToStr(n / 10);
      assert s[..|s| - 1] == NatToStr(n / 10);
    }
  }

  /** A digit string without a leading zero denotes at least 1. */
  lemma {:induction false} ParseDigitsPositive(s: string)
    requires |s| >= 1 && (forall i :: 0 <= i < |s| ==> IsDigit(s[i])) && s[0] != '0'
    ensures ParseDigits(s) >= 1
    decreases |s|
  {
    if |s| > 1 {
      ParseDigitsPositive(s[..|s| - 1]);
    }
  }

  /** A digit string without a leading zero, or "0", is how `str` writes its value. */
  lemma {:induction false} NatToStrParse(s: string)
    requires |s| >= 1 && (forall i :: 0 <= i < |s| ==> IsDigit(s[i]))
    requires s[0] == '0' ==> |s| == 1
    ensures NatToStr(ParseDigits(s)) == s
    decreases |s|
  {
    var n := ParseDigits(s);
    var c := s[|s| - 1];
    assert DigitChar(DigitValue(c)) == c;
    if |s| > 1 {
      var p := s[..|s| - 1];
      ParseDigitsPositive(p);
      NatToStrParse(p);
      assert n / 10 == ParseDigits(p) && n % 10 == DigitValue(c);
      assert s == p + [c];
    } else {
      assert ParseDigits(s[..0]) == 0;
    }
  }

  /** Every canonical numeral is `str` of the integer it denotes: together with
      `IntToStrRoundTrip`, `str(n)` is the one canonical numeral of `n`. */
  lemma StrIntRoundTrip(s: string)
    requires IsCanonicalInt(s)
    ensures IntToStr(ParseInt(s)) == s
  {
    if s[0] == '-' {
      var d := s[1..];
      ParseDigitsPositive(d);
      NatToStrParse(d);
      assert s == "-" + d;
    } else {
      NatToStrParse(s);
    }
  }

  /** `str` of an integer reads back as the same integer. */
  lemma IntToStrRoundTrip(n: int)
    ensures IsIntLiteral(IntToStr(n))
    ensures ParseInt(IntToStr(n)) == n
  {
    var s := IntToStr(n);
    if n < 0 {
      assert s[1..] == NatToStr(-n);
      ParseNatToStr(-n);
    } else {
      assert s[0] != '-';
      ParseNatToStr(n);
    }
  }
}
