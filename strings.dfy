/** The pieces of Python's string behaviour that the modelled code relies on:
    `str(n)` for integers, `sep.join`, `str.split(sep)`, `str.strip()`,
    `str.lower()`, `in`, `str.rfind`, single-character `str.replace`,
    `repr()` of a string, and slicing with possibly negative bounds. */
module Strings {

  // ---------------------------------------------------------------------
  // Decimal rendering of integers (Python's str() on an int)
  // ---------------------------------------------------------------------

  predicate IsDigit(c: char) {
    '0' <= c <= '9'
  }

  predicate AllDigits(s: string) {
    forall i :: 0 <= i < |s| ==> IsDigit(s[i])
  }

  function DigitChar(d: nat): (c: char)
    requires d < 10
    ensures IsDigit(c) && (c as int) - ('0' as int) == d
  {
    (('0' as int) + d) as char
  }

  /** str(n) for a non-negative integer. */
  function NatToString(n: nat): (r: string)
    ensures |r| > 0 && AllDigits(r)
    ensures n < 10 <==> |r| == 1
    decreases n
  {
    if n < 10 then [DigitChar(n)] else NatToString(n / 10) + [DigitChar(n % 10)]
  }

  /** Different numbers render differently. */
  lemma {:induction false} NatToStringInjective(a: nat, b: nat)
    requires NatToString(a) == NatToString(b)
    ensures a == b
    decreases a
  {
    if a >= 10 && b >= 10 {
      var sa, sb := NatToString(a), NatToString(b);
      assert sa == NatToString(a / 10) + [DigitChar(a % 10)];
      assert sb == NatToString(b / 10) + [DigitChar(b % 10)];
      assert sa[|sa| - 1] == DigitChar(a % 10) && sb[|sb| - 1] == DigitChar(b % 10);
      assert a % 10 == b % 10;
      assert NatToString(a / 10) == sa[..|sa| - 1] == sb[..|sb| - 1] == NatToString(b / 10);
      NatToStringInjective(a / 10, b / 10);
    } else if a < 10 && b < 10 {
      assert NatToString(a)[0] == DigitChar(a) && NatToString(b)[0] == DigitChar(b);
    }
  }

  /** str(i) for any integer: a minus sign, then the digits of |i|. */
  function IntToString(i: int): (r: string)
    ensures |r| > 0
  {
    if i >= 0 then NatToString(i) else "-" + NatToString(-i)
  }

  // ---------------------------------------------------------------------
  // Searching
  // ---------------------------------------------------------------------

  predicate OccursAt(s: string, sub: string, k: int) {
    0 <= k && k + |sub| <= |s| && s[k..k + |sub|] == sub
  }

  /** The first occurrence of `sub` in `s` at or after `from`, or -1 (Python's str.find). */
  function FindFrom(s: string, sub: string, from: nat): (k: int)
    requires from <= |s|
    ensures k == -1 || (from <= k && OccursAt(s, sub, k))
    ensures k == -1 ==> forall j :: from <= j ==> !OccursAt(s, sub, j)
    ensures k >= 0 ==> forall j :: from <= j < k ==> !OccursAt(s, sub, j)
    decreases |s| - from
  {
    if from + |sub| > |s| then -1
    else if s[from..from + |sub|] == sub then from
    else if from == |s| then -1
    else FindFrom(s, sub, from + 1)
  }

  function Find(s: string, sub: string): (k: int)
    ensures k == -1 || OccursAt(s, sub, k)
    ensures k == -1 <==> forall j :: !OccursAt(s, sub, j)
  {
    FindFrom(s, sub, 0)
  }

  /** Python's `sub in s`. */
  predicate Contains(s: string, sub: string) {
    Find(s, sub) >= 0
  }

  lemma ContainsIff(s: string, sub: string)
    ensures Contains(s, sub) <==> exists j :: OccursAt(s, sub, j)
  {
  }

  /** str.rfind for a one-character needle: the last index of `c`, or -1. */
  function RFindChar(s: string, c: char): (k: int)
    ensures -1 <= k < |s|
    ensures k >= 0 ==> s[k] == c
    ensures forall j :: k < j < |s| ==> s[j] != c
  {
    if |s| == 0 then -1
    else if s[|s| - 1] == c then |s| - 1
    else RFindChar(s[..|s| - 1], c)
  }

  // ---------------------------------------------------------------------
  // Joining and splitting
  // ---------------------------------------------------------------------

  /** sep.join(parts) */
  function Join(parts: seq<string>, sep: string): string
    decreases |parts|
  {
    if |parts| == 0 then ""
    else if |parts| == 1 then parts[0]
    else parts[0] + sep + Join(parts[1..], sep)
  }

  /** s.split(sep) for a non-empty separator: the pieces between the
      non-overlapping occurrences of sep, scanned from the left. */
  function Split(s: string, sep: string): (r: seq<string>)
    requires |sep| > 0
    ensures |r| >= 1
    decreases |s|
  {
    var k := Find(s, sep);
    if k < 0 then [s] else [s[..k]] + Split(s[k + |sep|..], sep)
  }

  lemma JoinCons(head: string, tail: seq<string>, sep: string)
    requires |tail| >= 1
    ensures Join([head] + tail, sep) == head + sep + Join(tail, sep)
  {
    assert ([head] + tail)[1..] == tail;
  }

  /** Where the separator occurs, the text is the piece before it, the
      separator and the rest. */
  lemma SplitAtOccurrence(s: string, sep: string, k: int)
    requires OccursAt(s, sep, k)
    ensures s == s[..k] + sep + s[k + |sep|..]
  {
    assert s == s[..k] + s[k..k + |sep|] + s[k + |sep|..];
  }

  /** Splitting and re-joining with the same separator gives the text back. */
  lemma {:induction false} JoinSplit(s: string, sep: string)
    requires |sep| > 0
    ensures Join(Split(s, sep), sep) == s
    decreases |s|
  {
    var k := Find(s, sep);
    if k >= 0 {
      var rest := s[k + |sep|..];
      var pieces := Split(rest, sep);
      JoinSplit(rest, sep);
      JoinCons(s[..k], pieces, sep);
      SplitAtOccurrence(s, sep, k);
    }
  }

  /** A text with no occurrence of the separator is not split. */
  lemma SplitNoSeparator(s: string, sep: string)
    requires |sep| > 0 && forall j :: !OccursAt(s, sep, j)
    ensures Split(s, sep) == [s]
  {
  }

  /** A text without the separator's first character is not split. */
  lemma SplitWithoutFirstChar(s: string, sep: string)
    requires |sep| > 0 && sep[0] !in s
    ensures Split(s, sep) == [s]
  {
    forall j
      ensures !OccursAt(s, sep, j)
    {
      if 0 <= j && j + |sep| <= |s| {
        assert s[j..j + |sep|][0] == s[j];
      }
    }
    SplitNoSeparator(s, sep);
  }

  /** Splitting on a one-character separator at its first occurrence. */
  lemma SplitAtFirst(x: string, c: char, rest: string)
    requires c !in x
    ensures Split(x + [c] + rest, [c]) == [x] + Split(rest, [c])
  {
    var s := x + [c] + rest;
    assert OccursAt(s, [c], |x|) by { assert s[|x|..|x| + 1] == [c]; }
    forall j | 0 <= j < |x|
      ensures !OccursAt(s, [c], j)
    {
      assert s[j] == x[j];
      if j + 1 <= |s| {
        assert s[j..j + 1][0] == s[j];
      }
    }
    var k := Find(s, [c]);
    assert k == |x|;
    assert s[..k] == x && s[k + 1..] == rest;
  }

  /** A character found in neither the parts nor the separator is not in their join. */
  lemma {:induction false} JoinAvoids(parts: seq<string>, sep: string, c: char)
    requires c !in sep && forall k :: 0 <= k < |parts| ==> c !in parts[k]
    ensures c !in Join(parts, sep)
    decreases |parts|
  {
    if |parts| > 1 {
      JoinAvoids(parts[1..], sep, c);
    }
  }

  // ---------------------------------------------------------------------
  // Whitespace, case, replacement
  // ---------------------------------------------------------------------

  /** The characters Python's str.isspace() accepts. */
  predicate IsSpace(c: char) {
    c == ' ' || c == '\t' || c == '\n' || c == '\r' || c == '\U{000B}' || c == '\U{000C}'
    || ('\U{001C}' <= c <= '\U{001F}') || c == '\U{0085}' || c == '\U{00A0}' || c == '\U{1680}'
    || ('\U{2000}' <= c <= '\U{200A}') || c == '\U{2028}' || c == '\U{2029}' || c == '\U{202F}'
    || c == '\U{205F}' || c == '\U{3000}'
  }

  function StripLeft(s: string): (r: string)
    ensures |r| <= |s| && r == s[|s| - |r|..]
    ensures |r| > 0 ==> !IsSpace(r[0])
    ensures forall i :: 0 <= i < |s| - |r| ==> IsSpace(s[i])
  {
    if |s| > 0 && IsSpace(s[0]) then StripLeft(s[1..]) else s
  }

  function StripRight(s: string): (r: string)
    ensures |r| <= |s| && r == s[..|r|]
    ensures |r| > 0 ==> !IsSpace(r[|r| - 1])
    ensures forall i :: |r| <= i < |s| ==> IsSpace(s[i])
  {
    if |s| > 0 && IsSpace(s[|s| - 1]) then StripRight(s[..|s| - 1]) else s
  }

  /** str.strip() with no argument. */
  function Strip(s: string): (r: string)
    ensures |r| <= |s|
  {
    StripRight(StripLeft(s))
  }

  /** A text that neither starts nor ends with whitespace is its own strip. */
  lemma StripUnpadded(s: string)
    requires |s| > 0 ==> !IsSpace(s[0]) && !IsSpace(s[|s| - 1])
    ensures Strip(s) == s
  {
  }

  /** Stripping a single leading space off an unpadded text. */
  lemma StripLeadingSpace(s: string)
    requires |s| > 0 ==> !IsSpace(s[0]) && !IsSpace(s[|s| - 1])
    ensures Strip(" " + s) == s
  {
    assert (" " + s)[1..] == s;
  }

  function LowerChar(c: char): char {
    if 'A' <= c <= 'Z' then ((c as int) + 32) as char else c
  }

  /** str.lower(), for the ASCII letters. */
  function Lower(s: string): (r: string)
    ensures |r| == |s| && forall i :: 0 <= i < |s| ==> r[i] == LowerChar(s[i])
  {
    if |s| == 0 then "" else [LowerChar(s[0])] + Lower(s[1..])
  }

  /** s.replace(c, t) for a one-character pattern: every c becomes t. */
  function ReplaceChar(s: string, c: char, t: string): string
  {
    if |s| == 0 then ""
    else (if s[0] == c then t else [s[0]]) + ReplaceChar(s[1..], c, t)
  }

  // ---------------------------------------------------------------------
  // Python slicing with negative bounds
  // ---------------------------------------------------------------------

  /** Python's s[:n]: a negative n counts from the end. */
  function PyPrefix<T>(s: seq<T>, n: int): (r: seq<T>)
    ensures 0 <= n <= |s| ==> r == s[..n]
    ensures n > |s| ==> r == s
    ensures |r| <= |s| && r == s[..|r|]
  {
    if n >= 0 then (if n <= |s| then s[..n] else s)
    else if |s| + n >= 0 then s[..|s| + n] else []
  }

  /** Python's s[n:]: a negative n counts from the end. */
  function PySliceFrom<T>(s: seq<T>, n: int): (r: seq<T>)
    ensures 0 <= n <= |s| ==> r == s[n..]
    ensures |r| <= |s| && r == s[|s| - |r|..]
  {
    if n >= 0 then (if n <= |s| then s[n..] else [])
    else if |s| + n >= 0 then s[|s| + n..] else s
  }

  /** s[-k:] for k >= 1 keeps the last min(k, |s|) elements. */
  lemma LastK<T>(s: seq<T>, k: int)
    requires k >= 1
    ensures |PySliceFrom(s, -k)| == if |s| < k then |s| else k
  {
  }

  // ---------------------------------------------------------------------
  // repr() of a string
  // ---------------------------------------------------------------------

  /** The quote repr() puts round a string: a double quote when the string
      holds an apostrophe and no double quote, a single quote otherwise. */
  function ReprQuote(s: string): (q: char)
    ensures q == '\'' || q == '"'
  {
    if '\'' in s && '"' !in s then '"' else '\''
  }

  function HexDigit(d: nat): char
    requires d < 16
  {
    if d < 10 then ('0' as int + d) as char else ('a' as int + d - 10) as char
  }

  function HexValue(c: char): (v: nat)
    ensures v < 16
  {
    if '0' <= c <= '9' then c as int - '0' as int
    else if 'a' <= c <= 'f' then c as int - 'a' as int + 10
    else 0
  }

  lemma HexRoundTrip(d: nat)
    requires d < 16
    ensures HexValue(HexDigit(d)) == d
  {
  }

  /** The characters repr() writes as a `\xhh` escape: the ASCII control
      characters other than tab, newline and carriage return, DEL, the Latin-1
      control characters, the no-break space and the soft hyphen. */
  predicate HexEscaped(c: char) {
    (c < ' ' && c != '\t' && c != '\n' && c != '\r') || ('\U{7F}' <= c <= '\U{A0}') || c == '\U{AD}'
  }

  /** How repr() writes one character inside the quotes `quote`. */
  function CharRepr(c: char, quote: char): string {
    if c == quote || c == '\\' then ['\\', c]
    else if c == '\t' then "\\t"
    else if c == '\n' then "\\n"
    else if c == '\r' then "\\r"
    else if HexEscaped(c) then ['\\', 'x', HexDigit(c as int / 16), HexDigit(c as int % 16)]
    else [c]
  }

  /** The text between the quotes: each character written in turn. */
  function EscapeBody(s: string, quote: char): string {
    if |s| == 0 then "" else CharRepr(s[0], quote) + EscapeBody(s[1..], quote)
  }

  /** repr() of a string: the body between the chosen quotes. */
  function StrRepr(s: string): (r: string)
    ensures |r| >= 2 && r[0] == ReprQuote(s) && r[|r| - 1] == ReprQuote(s)
  {
    [ReprQuote(s)] + EscapeBody(s, ReprQuote(s)) + [ReprQuote(s)]
  }

  /** Reading an escaped body back the way Python reads the escapes repr()
      writes: `\xhh`, `\t`, `\n`, `\r`, and a backslash before any other
      character standing for that character. */
  function Unescape(e: string): string
    decreases |e|
  {
    if |e| == 0 then ""
    else if e[0] == '\\' && |e| >= 4 && e[1] == 'x' then
      [(16 * HexValue(e[2]) + HexValue(e[3])) as char] + Unescape(e[4..])
    else if e[0] == '\\' && |e| >= 2 then
      (if e[1] == 't' then "\t" else if e[1] == 'n' then "\n" else if e[1] == 'r' then "\r" else [e[1]])
      + Unescape(e[2..])
    else [e[0]] + Unescape(e[1..])
  }

  /** One written character reads back as itself. */
  lemma UnescapeCharRepr(c: char, quote: char, rest: string)
    requires quote == '\'' || quote == '"'
    ensures Unescape(CharRepr(c, quote) + rest) == [c] + Unescape(rest)
  {
    var e := CharRepr(c, quote) + rest;
    if c == quote || c == '\\' || c == '\t' || c == '\n' || c == '\r' {
      assert e[2..] == rest;
    } else if HexEscaped(c) {
      HexRoundTrip(c as int / 16);
      HexRoundTrip(c as int % 16);
      assert e[4..] == rest;
    } else {
      assert e[1..] == rest;
    }
  }

  /** The body repr() writes reads back as the string: no two strings share
      a body, so the rendering loses nothing. */
  lemma {:induction false} EscapeRoundTrip(s: string, quote: char)
    requires quote == '\'' || quote == '"'
    ensures Unescape(EscapeBody(s, quote)) == s
  {
    if |s| > 0 {
      UnescapeCharRepr(s[0], quote, EscapeBody(s[1..], quote));
      EscapeRoundTrip(s[1..], quote);
      assert s == [s[0]] + s[1..];
    }
  }

  /** A character repr() writes as it is inside the quotes `quote`. */
  predicate PlainIn(c: char, quote: char) {
    c != quote && c != '\\' && c != '\t' && c != '\n' && c != '\r' && !HexEscaped(c)
  }

  /** A string of plain characters is its own body. */
  lemma {:induction false} PlainBody(s: string, quote: char)
    requires forall k :: 0 <= k < |s| ==> PlainIn(s[k], quote)
    ensures EscapeBody(s, quote) == s
  {
    if |s| > 0 {
      PlainBody(s[1..], quote);
      assert s == [s[0]] + s[1..];
    }
  }

  /** A string with an apostrophe and otherwise plain characters is written
      between double quotes as it is. */
  lemma ApostropheInDoubleQuotes(s: string)
    requires '\'' in s && forall k :: 0 <= k < |s| ==> PlainIn(s[k], '"')
    ensures StrRepr(s) == "\"" + s + "\""
  {
    assert forall k :: 0 <= k < |s| ==> s[k] != '"';
    PlainBody(s, '"');
  }

  /** A string without apostrophes and escapes is written between single
      quotes as it is. */
  lemma PlainInSingleQuotes(s: string)
    requires forall k :: 0 <= k < |s| ==> PlainIn(s[k], '\'')
    ensures StrRepr(s) == "'" + s + "'"
  {
    assert forall k :: 0 <= k < |s| ==> s[k] != '\'';
    PlainBody(s, '\'');
  }
}
