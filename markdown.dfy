/** Escaping of chat text for Telegram's (version 1) Markdown: underscores are
    replaced by hyphens, and '*', '`' and '[' get a backslash in front. The
    source does this as four successive whole-string replacements; the model
    proves that the four passes together are a single per-character map. */
module Markdown {
  import opened Strings

  /** The characters escaped with a backslash, in the order they are processed. */
  const EscapeChars: seq<char> := ['*', '`', '[']

  /** What character `c` has become after the underscore pass and the first
      `k` backslash passes. */
  function StageChar(c: char, k: nat): string
    requires k <= |EscapeChars|
  {
    if c == '_' then "-"
    else if c in EscapeChars[..k] then ['\\', c]
    else [c]
  }

  /** The whole text after the underscore pass and the first `k` backslash passes. */
  function Stage(s: string, k: nat): string
    requires k <= |EscapeChars|
  {
    if |s| == 0 then "" else StageChar(s[0], k) + Stage(s[1..], k)
  }

  /** The escaping of one character once every pass has run. */
  function EscapeChar(c: char): (r: string)
    ensures c == '_' ==> r == "-"
    ensures c in EscapeChars ==> r == ['\\', c]
    ensures c != '_' && c !in EscapeChars ==> r == [c]
  {
    StageChar(c, |EscapeChars|)
  }

  /** The escaped text: each character replaced by its escaping, in order. */
  function Escaped(s: string): string {
    Stage(s, |EscapeChars|)
  }

  /** escape_markdown: the underscore replacement, then one replacement per
      escape character, each over the whole text. */
  method EscapeMarkdown(text: string) returns (escaped: string)
    ensures escaped == Escaped(text)
  {
    escaped := ReplaceChar(text, '_', "-");
    UnderscorePass(text);
    var i := 0;
    while i < |EscapeChars|
      invariant 0 <= i <= |EscapeChars|
      invariant escaped == Stage(text, i)
    {
      var c := EscapeChars[i];
      BackslashPass(text, i);
      escaped := ReplaceChar(escaped, c, ['\\', c]);
      i := i + 1;
    }
  }

  lemma {:induction false} ReplaceCharConcat(a: string, b: string, c: char, t: string)
    ensures ReplaceChar(a + b, c, t) == ReplaceChar(a, c, t) + ReplaceChar(b, c, t)
    decreases |a|
  {
    if |a| > 0 {
      assert (a + b)[0] == a[0];
      assert (a + b)[1..] == a[1..] + b;
      ReplaceCharConcat(a[1..], b, c, t);
    } else {
      assert a + b == b;
    }
  }

  /** The first replacement (underscores to hyphens) yields stage 0. */
  lemma {:induction false} UnderscorePass(s: string)
    ensures ReplaceChar(s, '_', "-") == Stage(s, 0)
    decreases |s|
  {
    if |s| > 0 {
      UnderscorePass(s[1..]);
    }
  }

  /** Replacing the k-th escape character in stage k yields stage k + 1: the
      text produced by the earlier passes holds that character only where the
      input did. */
  lemma {:induction false} BackslashPass(s: string, k: nat)
    requires k < |EscapeChars|
    ensures ReplaceChar(Stage(s, k), EscapeChars[k], ['\\', EscapeChars[k]]) == Stage(s, k + 1)
    decreases |s|
  {
    var c := EscapeChars[k];
    if |s| > 0 {
      ReplaceCharConcat(StageChar(s[0], k), Stage(s[1..], k), c, ['\\', c]);
      BackslashPass(s[1..], k);
      var x := s[0];
      assert EscapeChars[..k + 1] == EscapeChars[..k] + [c];
      if x == '_' {
        assert StageChar(x, k) == "-";
        assert ReplaceChar("-", c, ['\\', c]) == "-";
      } else if x in EscapeChars[..k] {
        assert x != c;
        assert ReplaceChar(['\\', x], c, ['\\', c]) == ['\\', x];
      } else if x == c {
        assert ReplaceChar([x], c, ['\\', c]) == ['\\', c];
      } else {
        assert ReplaceChar([x], c, ['\\', c]) == [x];
      }
    }
  }

  /** The output holds no underscore. */
  lemma {:induction false} EscapedHasNoUnderscore(s: string)
    ensures forall i :: 0 <= i < |Escaped(s)| ==> Escaped(s)[i] != '_'
    decreases |s|
  {
    if |s| > 0 {
      EscapedHasNoUnderscore(s[1..]);
      var h := EscapeChar(s[0]);
      var r := Escaped(s);
      assert r == h + Escaped(s[1..]);
      forall i | 0 <= i < |r|
        ensures r[i] != '_'
      {
        if i < |h| {
          assert r[i] == h[i];
        } else {
          assert r[i] == Escaped(s[1..])[i - |h|];
        }
      }
    }
  }

  /** How many characters of `s` get a backslash. */
  function CountEscapable(s: string): nat {
    if |s| == 0 then 0 else (if s[0] in EscapeChars then 1 else 0) + CountEscapable(s[1..])
  }

  /** The output is longer than the input by exactly one character per
      escaped '*', '`' or '['. */
  lemma {:induction false} EscapedLength(s: string)
    ensures |Escaped(s)| == |s| + CountEscapable(s)
    decreases |s|
  {
    if |s| > 0 {
      EscapedLength(s[1..]);
    }
  }

  /** Text without any of '_', '*', '`', '[' comes back unchanged, backslashes
      included. */
  lemma {:induction false} EscapedIdentity(s: string)
    requires forall i :: 0 <= i < |s| ==> s[i] != '_' && s[i] !in EscapeChars
    ensures Escaped(s) == s
    decreases |s|
  {
    if |s| > 0 {
      EscapedIdentity(s[1..]);
      assert s == [s[0]] + s[1..];
    }
  }

  /** Escaping distributes over concatenation, so each character is escaped
      independently of its neighbours, and the order of the text is kept. */
  lemma {:induction false} EscapedConcat(a: string, b: string)
    ensures Escaped(a + b) == Escaped(a) + Escaped(b)
    decreases |a|
  {
    if |a| > 0 {
      assert (a + b)[0] == a[0];
      assert (a + b)[1..] == a[1..] + b;
      EscapedConcat(a[1..], b);
    } else {
      assert a + b == b;
    }
  }
}
