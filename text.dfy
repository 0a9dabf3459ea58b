/** String operations the Python and Rust code takes from its standard
    libraries: decimal rendering of integers, zero padding, splitting into
    lines, joining, substring search, whitespace stripping and code-point
    order. Strings are sequences of Unicode scalar values, as in both
    languages. */
module Text {
  import opened Wrappers

  // ---------------------------------------------------------------------
  // Decimal rendering (`str(n)`, `format!("{}", n)`, `f"{n:02d}"`)
  // ---------------------------------------------------------------------

  predicate IsDigit(c: char) {
    '0' <= c <= '9'
  }

  function DigitChar(d: nat): (c: char)
    requires d < 10
    ensures IsDigit(c) && (c as int) - ('0' as int) == d
  {
    (('0' as int) + d) as char
  }

  /** The decimal digits of n, most significant first, with no leading zero. */
  function NatToString(n: nat): (s: string)
    ensures 1 <= |s|
    ensures forall k :: 0 <= k < |s| ==> IsDigit(s[k])
    ensures |s| > 1 ==> s[0] != '0'
    decreases n
  {
    if n < 10 then [DigitChar(n)] else NatToString(n / 10) + [DigitChar(n % 10)]
  }

  /** Reads a non-empty string of decimal digits back into a number. */
  function ParseDigits(s: string): nat
    requires forall k :: 0 <= k < |s| ==> IsDigit(s[k])
    decreases |s|
  {
    if s == [] then 0
    else
      assert IsDigit(s[|s| - 1]);
      ParseDigits(s[..|s| - 1]) * 10 + ((s[|s| - 1] as int) - ('0' as int))
  }

  /** Two digits read as tens and units. */
  lemma ParseTwo(s: string)
    requires |s| == 2 && IsDigit(s[0]) && IsDigit(s[1])
    ensures ParseDigits(s) == (s[0] as int - '0' as int) * 10 + (s[1] as int - '0' as int)
  {
    var t := s[..1];
    assert t[..0] == [] && t[0] == s[0];
    assert ParseDigits(t) == s[0] as int - '0' as int;
    assert s[..|s| - 1] == t;
  }

  /** Where the three pairs of `aa:bb:cc` sit. */
  lemma ThreePairs(a: string, b: string, c: string)
    requires |a| == 2 && |b| == 2 && |c| == 2
    ensures var r := a + ":" + b + ":" + c;
      |r| == 8 && r[2] == ':' && r[5] == ':' && r[0..2] == a && r[3..5] == b && r[6..8] == c
  {
    var r := a + ":" + b + ":" + c;
    assert r[0..2] == a;
    assert r[3..5] == b;
    assert r[6..8] == c;
  }

  lemma {:induction false} ParseNatToString(n: nat)
    ensures ParseDigits(NatToString(n)) == n
    decreases n
  {
    if n >= 10 {
      var s := NatToString(n);
      assert s[..|s| - 1] == NatToString(n / 10);
      ParseNatToString(n / 10);
    }
  }

  /** Decimal rendering doesn't lose information: distinct numbers give
      distinct strings. */
  lemma NatToStringInjective(m: nat, n: nat)
    requires NatToString(m) == NatToString(n)
    ensures m == n
  {
    ParseNatToString(m);
    ParseNatToString(n);
  }

  /** `str(i)` / `i.to_string()` for a signed integer. */
  function IntToString(i: int): (s: string)
    ensures i >= 0 ==> s == NatToString(i)
    ensures i < 0 ==> s == "-" + NatToString(-i)
  {
    if i < 0 then "-" + NatToString(-i) else NatToString(i)
  }

  /** Python's `f"{i:02d}"`: zero-padded to width two; a sign counts toward
      the width and wider numbers are not cut. */
  function Pad2(i: int): (s: string)
    ensures 2 <= |s|
    ensures 0 <= i < 10 ==> s == ['0', DigitChar(i)]
    ensures 10 <= i < 100 ==> s == [DigitChar(i / 10), DigitChar(i % 10)]
    ensures i < 0 ==> s == IntToString(i)
  {
    if 0 <= i < 10 then "0" + NatToString(i)
    else
      assert 10 <= i < 100 ==> NatToString(i / 10) == [DigitChar(i / 10)];
      IntToString(i)
  }

  // ---------------------------------------------------------------------
  // Searching, splitting and joining
  // ---------------------------------------------------------------------

  /** Position of the first c in s, or |s| when there is none. */
  function IndexOf(s: string, c: char): (i: nat)
    ensures i <= |s|
    ensures i < |s| ==> s[i] == c
    ensures forall j :: 0 <= j < i ==> s[j] != c
    decreases |s|
  {
    if s == [] then 0 else if s[0] == c then 0 else 1 + IndexOf(s[1..], c)
  }

  /** Python's `s.split(c)` for a one-character separator: always at least
      one piece, empty pieces kept. */
  function SplitOn(s: string, c: char): (pieces: seq<string>)
    ensures 1 <= |pieces|
    ensures forall k :: 0 <= k < |pieces| ==> c !in pieces[k]
    decreases |s|
  {
    var i := IndexOf(s, c);
    if i == |s| then [s] else [s[..i]] + SplitOn(s[i + 1..], c)
  }

  /** `sep.join(pieces)` for a one-character separator. */
  function Join(pieces: seq<string>, sep: char): (s: string)
    ensures pieces == [] ==> s == ""
    decreases |pieces|
  {
    if pieces == [] then ""
    else if |pieces| == 1 then pieces[0]
    else pieces[0] + [sep] + Join(pieces[1..], sep)
  }

  lemma {:induction false} JoinSplit(s: string, c: char)
    ensures Join(SplitOn(s, c), c) == s
    decreases |s|
  {
    var i := IndexOf(s, c);
    if i < |s| {
      var rest := s[i + 1..];
      var tail := SplitOn(rest, c);
      var pieces := [s[..i]] + tail;
      assert SplitOn(s, c) == pieces;
      assert pieces[0] == s[..i] && pieces[1..] == tail;
      assert Join(pieces, c) == s[..i] + [c] + Join(tail, c);
      JoinSplit(rest, c);
      assert s == s[..i] + [c] + rest;
    }
  }

  lemma {:induction false} IndexOfPrefix(a: string, c: char, b: string)
    requires c !in a
    ensures IndexOf(a + [c] + b, c) == |a|
    decreases |a|
  {
    if a != [] {
      assert (a + [c] + b)[1..] == a[1..] + [c] + b;
      IndexOfPrefix(a[1..], c, b);
    }
  }

  lemma {:induction false} IndexOfAbsent(a: string, c: char)
    requires c !in a
    ensures IndexOf(a, c) == |a|
    decreases |a|
  {
    if a != [] {
      IndexOfAbsent(a[1..], c);
    }
  }

  /** Joining lines that contain no separator and splitting again gives the
      lines back: the separator is the only thing added. */
  lemma {:induction false} SplitJoin(pieces: seq<string>, c: char)
    requires 1 <= |pieces|
    requires forall k :: 0 <= k < |pieces| ==> c !in pieces[k]
    ensures SplitOn(Join(pieces, c), c) == pieces
    decreases |pieces|
  {
    if |pieces| == 1 {
      IndexOfAbsent(pieces[0], c);
    } else {
      var rest := Join(pieces[1..], c);
      IndexOfPrefix(pieces[0], c, rest);
      var s := pieces[0] + [c] + rest;
      assert s[..|pieces[0]|] == pieces[0];
      assert s[|pieces[0]| + 1..] == rest;
      SplitJoin(pieces[1..], c);
    }
  }

  /** The part of s before its first line feed (`s.split("\n")[0]`). */
  function FirstLine(s: string): (r: string)
    ensures '\n' !in r
    ensures r <= s
    ensures '\n' !in s ==> r == s
  {
    SplitOn(s, '\n')[0]
  }

  function StripCR(line: string): (r: string)
  {
    if line != [] && line[|line| - 1] == '\r' then line[..|line| - 1] else line
  }

  /** Rust's `str::lines`: splits after each line feed, drops the line feed
      and one carriage return in front of it; a final line feed does not
      start an empty line, and the empty string has no lines. */
  function RustLines(s: string): (lines: seq<string>)
    ensures s == [] <==> lines == []
    ensures forall k :: 0 <= k < |lines| ==> '\n' !in lines[k]
    decreases |s|
  {
    if s == [] then []
    else
      var i := IndexOf(s, '\n');
      if i == |s| then [s] else [StripCR(s[..i])] + RustLines(s[i + 1..])
  }

  function Concat(pieces: seq<string>): (s: string)
    decreases |pieces|
  {
    if pieces == [] then "" else pieces[0] + Concat(pieces[1..])
  }

  /** Python's `s[:end]`: a negative end counts from the back, and an end
      beyond either side is clamped. */
  function PySliceTo(s: string, end: int): (r: string)
    ensures r <= s
    ensures 0 <= end <= |s| ==> r == s[..end]
    ensures end < 0 && |s| + end >= 0 ==> r == s[..|s| + end]
    ensures |r| == if end >= 0 then (if end <= |s| then end else |s|)
                   else (if |s| + end >= 0 then |s| + end else 0)
  {
    if end >= 0 then (if end <= |s| then s[..end] else s)
    else if |s| + end >= 0 then s[..|s| + end]
    else ""
  }

  /** Python's `needle in haystack` on strings. */
  predicate Contains(haystack: string, needle: string)
    decreases |haystack|
  {
    needle <= haystack || (haystack != [] && Contains(haystack[1..], needle))
  }

  lemma {:induction false} ContainsEmpty(haystack: string)
    ensures Contains(haystack, "")
  {
  }

  lemma {:induction false} ContainsAt(haystack: string, needle: string, i: nat)
    requires i + |needle| <= |haystack|
    requires haystack[i..i + |needle|] == needle
    ensures Contains(haystack, needle)
    decreases i
  {
    if i > 0 {
      assert haystack[1..][i - 1..i - 1 + |needle|] == haystack[i..i + |needle|];
      ContainsAt(haystack[1..], needle, i - 1);
    }
  }

  /** A needle is absent when some position j of it never lines up with a
      matching character of the haystack. */
  lemma {:induction false} NotContainsAt(haystack: string, needle: string, j: nat)
    requires j < |needle|
    requires forall i :: j <= i < |haystack| && i - j + |needle| <= |haystack| ==> haystack[i] != needle[j]
    ensures !Contains(haystack, needle)
    decreases |haystack|
  {
    if haystack != [] {
      if |needle| <= |haystack| {
        assert haystack[j] != needle[j];
      }
      assert forall i :: j <= i < |haystack| - 1 ==> haystack[1..][i] == haystack[i + 1];
      NotContainsAt(haystack[1..], needle, j);
    }
  }

  // ---------------------------------------------------------------------
  // Case folding of ASCII letters
  // ---------------------------------------------------------------------

  function AsciiLowerChar(c: char): char {
    if 'A' <= c <= 'Z' then ((c as int) + 32) as char else c
  }

  function AsciiUpperChar(c: char): char {
    if 'a' <= c <= 'z' then ((c as int) - 32) as char else c
  }

  function AsciiLower(s: string): (r: string)
    ensures |r| == |s|
    ensures forall k :: 0 <= k < |s| ==> r[k] == AsciiLowerChar(s[k])
  {
    seq(|s|, k requires 0 <= k < |s| => AsciiLowerChar(s[k]))
  }

  function AsciiUpper(s: string): (r: string)
    ensures |r| == |s|
    ensures forall k :: 0 <= k < |s| ==> r[k] == AsciiUpperChar(s[k])
  {
    seq(|s|, k requires 0 <= k < |s| => AsciiUpperChar(s[k]))
  }

  // ---------------------------------------------------------------------
  // Whitespace and stripping (`str.strip()`, `str::trim`)
  // ---------------------------------------------------------------------

  /** Rust's `char::is_whitespace`: the Unicode White_Space property. */
  predicate RustIsWhitespace(c: char) {
    ('\U{0009}' <= c <= '\U{000D}') || c == ' ' || c == '\U{0085}' || c == '\U{00A0}'
    || c == '\U{1680}' || ('\U{2000}' <= c <= '\U{200A}') || c == '\U{2028}'
    || c == '\U{2029}' || c == '\U{202F}' || c == '\U{205F}' || c == '\U{3000}'
  }

  /** Python's `str.isspace` for one character: White_Space plus the four
      information separators U+001C..U+001F. */
  predicate PyIsSpace(c: char) {
    RustIsWhitespace(c) || ('\U{001C}' <= c <= '\U{001F}')
  }

  function TrimStart(s: string, isSpace: char -> bool): (r: string)
    ensures |r| <= |s| && r == s[|s| - |r|..]
    ensures r != [] ==> !isSpace(r[0])
    ensures r == [] ==> forall k :: 0 <= k < |s| ==> isSpace(s[k])
    decreases |s|
  {
    if s != [] && isSpace(s[0]) then TrimStart(s[1..], isSpace) else s
  }

  function TrimEnd(s: string, isSpace: char -> bool): (r: string)
    ensures |r| <= |s| && r == s[..|r|]
    ensures r != [] ==> !isSpace(r[|r| - 1])
    ensures r == [] ==> forall k :: 0 <= k < |s| ==> isSpace(s[k])
    decreases |s|
  {
    if s != [] && isSpace(s[|s| - 1]) then TrimEnd(s[..|s| - 1], isSpace) else s
  }

  /** Removes leading and trailing whitespace as judged by isSpace. */
  function Trim(s: string, isSpace: char -> bool): (r: string)
  {
    TrimEnd(TrimStart(s, isSpace), isSpace)
  }

  /** Text that neither starts nor ends with white space is left as it is. */
  lemma TrimUnchanged(s: string, isSpace: char -> bool)
    requires s != [] && !isSpace(s[0]) && !isSpace(s[|s| - 1])
    ensures Trim(s, isSpace) == s
  {
  }

  /** The stripped text is a piece of the original, has no whitespace at
      either end, and is empty exactly when the original is all whitespace. */
  lemma TrimProperties(s: string, isSpace: char -> bool)
    ensures Contains(s, Trim(s, isSpace))
    ensures var r := Trim(s, isSpace); r != [] ==> !isSpace(r[0]) && !isSpace(r[|r| - 1])
    ensures Trim(s, isSpace) == [] <==> forall k :: 0 <= k < |s| ==> isSpace(s[k])
  {
    var t := TrimStart(s, isSpace);
    var r := TrimEnd(t, isSpace);
    var i := |s| - |t|;
    assert s[i..i + |r|] == r by {
      assert t == s[i..] && r == t[..|r|];
    }
    ContainsAt(s, r, i);
    // A non-empty t starts with a non-space, so TrimEnd keeps it.
    assert t != [] ==> t[0] == s[i] && r != [];
  }

  // ---------------------------------------------------------------------
  // Code-point order (Python `<` on str)
  // ---------------------------------------------------------------------

  predicate StrLt(a: string, b: string)
    decreases |a|
  {
    if a == [] then b != []
    else if b == [] then false
    else if a[0] != b[0] then a[0] < b[0]
    else StrLt(a[1..], b[1..])
  }

  lemma {:induction false} StrLtIrreflexive(a: string)
    ensures !StrLt(a, a)
    decreases |a|
  {
    if a != [] {
      StrLtIrreflexive(a[1..]);
    }
  }

  lemma {:induction false} StrLtTransitive(a: string, b: string, c: string)
    requires StrLt(a, b) && StrLt(b, c)
    ensures StrLt(a, c)
    decreases |a|
  {
    if a != [] && a[0] == b[0] && b[0] == c[0] {
      StrLtTransitive(a[1..], b[1..], c[1..]);
    }
  }

  lemma {:induction false} StrLtTotal(a: string, b: string)
    ensures a == b || StrLt(a, b) || StrLt(b, a)
    decreases |a|
  {
    if a != [] && b != [] && a[0] == b[0] {
      StrLtTotal(a[1..], b[1..]);
      if a[1..] == b[1..] {
        assert a == [a[0]] + a[1..];
        assert b == [b[0]] + b[1..];
      }
    }
  }

  lemma {:induction false} StrLtAsymmetric(a: string, b: string)
    requires StrLt(a, b)
    ensures !StrLt(b, a)
  {
    if StrLt(b, a) {
      StrLtTransitive(a, b, a);
      StrLtIrreflexive(a);
    }
  }

  // ---------------------------------------------------------------------
  // Header lines (`"  {key}: {value}"` in both details views)
  // ---------------------------------------------------------------------

  function HeaderLine(header: (string, string)): string
  {
    "  " + header.0 + ": " + header.1
  }

  /** Reads a header line back: two spaces, the name up to the first
      colon, a colon and a space, then the value. */
  function ReadHeaderLine(line: string): Option<(string, string)>
  {
    if |line| < 2 || line[..2] != "  " then None
    else
      var rest := line[2..];
      var i := IndexOf(rest, ':');
      if i + 1 < |rest| && rest[i + 1] == ' ' then Some((rest[..i], rest[i + 2..])) else None
  }

  /** A header whose name has no colon (no HTTP field name has one) reads
      back from its line. */
  lemma HeaderLineReadsBack(header: (string, string))
    requires ':' !in header.0
    ensures ReadHeaderLine(HeaderLine(header)) == Some(header)
  {
    var line := HeaderLine(header);
    var rest := header.0 + [':'] + (" " + header.1);
    assert line[..2] == "  ";
    assert line[2..] == rest;
    IndexOfPrefix(header.0, ':', " " + header.1);
    assert rest[..|header.0|] == header.0;
    assert rest[|header.0| + 2..] == header.1;
  }

  /** One line per header, in order, from which each header whose name has
      no colon reads back. */
  function HeaderLines(headers: seq<(string, string)>): (lines: seq<string>)
    ensures |lines| == |headers|
    ensures forall k :: 0 <= k < |headers| && ':' !in headers[k].0 ==> ReadHeaderLine(lines[k]) == Some(headers[k])
  {
    HeadersReadBack(headers);
    seq(|headers|, k requires 0 <= k < |headers| => HeaderLine(headers[k]))
  }

  lemma HeadersReadBack(headers: seq<(string, string)>)
    ensures forall k :: 0 <= k < |headers| && ':' !in headers[k].0 ==> ReadHeaderLine(HeaderLine(headers[k])) == Some(headers[k])
  {
    forall k | 0 <= k < |headers| && ':' !in headers[k].0
      ensures ReadHeaderLine(HeaderLine(headers[k])) == Some(headers[k])
    {
      HeaderLineReadsBack(headers[k]);
    }
  }

  /** One more header adds its line at the end. */
  lemma HeaderLinesSnoc(headers: seq<(string, string)>, i: nat)
    requires i < |headers|
    ensures HeaderLines(headers[..i + 1]) == HeaderLines(headers[..i]) + [HeaderLine(headers[i])]
  {
    var a := HeaderLines(headers[..i + 1]);
    var b := HeaderLines(headers[..i]) + [HeaderLine(headers[i])];
    assert |a| == |b|;
    forall k | 0 <= k < |a| ensures a[k] == b[k] {
      assert headers[..i + 1][k] == headers[k];
    }
  }
}
