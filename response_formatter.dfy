/** The text layout of the Telegram bot's replies: captions cut at a sentence
    or paragraph break, long messages split into pieces that fit Telegram's
    limit, and the keyboard of buttons that open the cited chunks. */
module ResponseFormatting {
  import opened Wrappers
  import opened Strings

  // ---------------------------------------------------------------------
  // Truncation
  // ---------------------------------------------------------------------

  function Max(a: int, b: int): int {
    if a >= b then a else b
  }

  /** The index of the last '.' or newline in `s`, or -1. */
  function LastBreak(s: string): (k: int)
    ensures -1 <= k < |s|
    ensures k >= 0 ==> s[k] == '.' || s[k] == '\n'
    ensures forall j :: k < j < |s| ==> s[j] != '.' && s[j] != '\n'
  {
    Max(RFindChar(s, '.'), RFindChar(s, '\n'))
  }

  /** Whether the break point is late enough to cut there: the source
      compares it with `max_length * 0.8`, written here as 5·bp > 4·max. */
  predicate LateEnough(breakPoint: int, maxLength: int) {
    5 * breakPoint > 4 * maxLength
  }

  /** _truncate_text: the text when it fits; otherwise the text up to and
      including the last break among its first max - 3 characters, if that
      break is late enough, else the first max - 3 characters; then "...". */
  function TruncateText(text: string, maxLength: int): (r: string)
    ensures |text| <= maxLength ==> r == text
    ensures |text| > maxLength ==> |r| >= 3 && r[|r| - 3..] == "..."
    ensures |text| > maxLength && maxLength >= 3 ==>
      |r| <= maxLength && r[..|r| - 3] == text[..|r| - 3]
  {
    if |text| <= maxLength then text
    else
      var truncated := PyPrefix(text, maxLength - 3);
      var breakPoint := LastBreak(truncated);
      if LateEnough(breakPoint, maxLength) then PyPrefix(text, breakPoint + 1) + "..."
      else PyPrefix(text, maxLength - 3) + "..."
  }

  /** Where the cut falls: after the last break in the first max - 3
      characters when that break is past 80% of the limit, and at exactly
      max - 3 characters otherwise. */
  lemma TruncateCutPoint(text: string, maxLength: int)
    requires |text| > maxLength >= 3
    ensures var bp := LastBreak(text[..maxLength - 3]);
      if LateEnough(bp, maxLength) then
        TruncateText(text, maxLength) == text[..bp + 1] + "..." && (text[bp] == '.' || text[bp] == '\n')
      else
        TruncateText(text, maxLength) == text[..maxLength - 3] + "..."
  {
  }

  /** Truncating twice is truncating once, when the result fits. */
  lemma TruncateIdempotent(text: string, maxLength: int)
    requires maxLength >= 3
    ensures TruncateText(TruncateText(text, maxLength), maxLength) == TruncateText(text, maxLength)
  {
  }

  // ---------------------------------------------------------------------
  // Splitting
  // ---------------------------------------------------------------------

  /** The pieces emitted so far and the piece being built. */
  datatype Acc = Acc(chunks: seq<string>, current: string)

  /** Ends the piece being built: a non-empty one is emitted, stripped, and
      the next piece starts empty. */
  function Flush(acc: Acc): (r: Acc)
    ensures r.current == ""
    ensures acc.current == "" ==> r == acc
    ensures acc.current != "" ==> |r.chunks| == |acc.chunks| + 1 && r.chunks[..|acc.chunks|] == acc.chunks
  {
    if acc.current != "" then Acc(acc.chunks + [Strip(acc.current)], "") else acc
  }

  /** One sentence of an over-long paragraph. */
  function SentenceStep(acc: Acc, sentence: string, maxLength: int): Acc {
    var a := if |acc.current| + |sentence| + 2 > maxLength then Flush(acc) else acc;
    if a.current != "" then Acc(a.chunks, a.current + ". " + sentence)
    else Acc(a.chunks, sentence)
  }

  /** The sentences, one after the other. */
  function Sentences(acc: Acc, ss: seq<string>, maxLength: int): Acc
    decreases |ss|
  {
    if |ss| == 0 then acc
    else SentenceStep(Sentences(acc, ss[..|ss| - 1], maxLength), ss[|ss| - 1], maxLength)
  }

  /** One paragraph: appended to the current piece when it fits, else the
      current piece is emitted and the paragraph starts a new one, split by
      sentences when it is itself too long. */
  function ParagraphStep(acc: Acc, paragraph: string, maxLength: int): Acc {
    if |acc.current| + |paragraph| + 2 > maxLength then
      var a := Flush(acc);
      if |paragraph| > maxLength then Sentences(a, Split(paragraph, ". "), maxLength)
      else Acc(a.chunks, paragraph)
    else if acc.current != "" then Acc(acc.chunks, acc.current + "\n\n" + paragraph)
    else Acc(acc.chunks, paragraph)
  }

  function Paragraphs(acc: Acc, ps: seq<string>, maxLength: int): Acc
    decreases |ps|
  {
    if |ps| == 0 then acc
    else ParagraphStep(Paragraphs(acc, ps[..|ps| - 1], maxLength), ps[|ps| - 1], maxLength)
  }

  /** What _split_text returns. */
  function SplitPieces(text: string, maxLength: int): seq<string> {
    if |text| <= maxLength then [text]
    else Flush(Paragraphs(Acc([], ""), Split(text, "\n\n"), maxLength)).chunks
  }

  /** _split_text: the paragraph loop, with the sentence loop inside it. */
  method SplitText(text: string, maxLength: int) returns (chunks: seq<string>)
    ensures chunks == SplitPieces(text, maxLength)
  {
    if |text| <= maxLength {
      return [text];
    }
    chunks := [];
    var currentChunk := "";
    var paragraphs := Split(text, "\n\n");
    var i := 0;
    while i < |paragraphs|
      invariant 0 <= i <= |paragraphs|
      invariant Acc(chunks, currentChunk) == Paragraphs(Acc([], ""), paragraphs[..i], maxLength)
    {
      assert paragraphs[..i + 1][..i] == paragraphs[..i];
      var paragraph := paragraphs[i];
      ghost var before := Acc(chunks, currentChunk);
      if |currentChunk| + |paragraph| + 2 > maxLength {
        if currentChunk != "" {
          chunks := chunks + [Strip(currentChunk)];
          currentChunk := "";
        }
        if |paragraph| > maxLength {
          chunks, currentChunk := AddSentences(chunks, currentChunk, Split(paragraph, ". "), maxLength);
        } else {
          currentChunk := paragraph;
        }
      } else {
        if currentChunk != "" {
          currentChunk := currentChunk + "\n\n" + paragraph;
        } else {
          currentChunk := paragraph;
        }
      }
      assert Acc(chunks, currentChunk) == ParagraphStep(before, paragraph, maxLength);
      i := i + 1;
    }
    assert paragraphs[..|paragraphs|] == paragraphs;
    if currentChunk != "" {
      chunks := chunks + [Strip(currentChunk)];
    }
  }

  /** Each ". "-separated sentence of the paragraph fits the limit. */
  predicate SentencesOfFit(paragraph: string, maxLength: int) {
    forall j :: 0 <= j < |Split(paragraph, ". ")| ==> |Split(paragraph, ". ")[j]| <= maxLength
  }

  /** The sentence loop of _split_text, over the sentences of one over-long
      paragraph. */
  method AddSentences(chunks0: seq<string>, current0: string, sentences: seq<string>, maxLength: int)
    returns (chunks: seq<string>, currentChunk: string)
    ensures Acc(chunks, currentChunk) == Sentences(Acc(chunks0, current0), sentences, maxLength)
  {
    chunks, currentChunk := chunks0, current0;
    var j := 0;
    while j < |sentences|
      invariant 0 <= j <= |sentences|
      invariant Acc(chunks, currentChunk) == Sentences(Acc(chunks0, current0), sentences[..j], maxLength)
    {
      assert sentences[..j + 1][..j] == sentences[..j];
      var sentence := sentences[j];
      if |currentChunk| + |sentence| + 2 > maxLength {
        if currentChunk != "" {
          chunks := chunks + [Strip(currentChunk)];
          currentChunk := "";
        }
      }
      if currentChunk != "" {
        currentChunk := currentChunk + ". " + sentence;
      } else {
        currentChunk := sentence;
      }
      j := j + 1;
    }
    assert sentences[..|sentences|] == sentences;
  }

  /** Every sentence of every paragraph longer than the limit fits the limit. */
  predicate SentencesFit(text: string, maxLength: int) {
    forall i :: 0 <= i < |Split(text, "\n\n")| && |Split(text, "\n\n")[i]| > maxLength ==>
      SentencesOfFit(Split(text, "\n\n")[i], maxLength)
  }

  /** No piece is longer than the limit. */
  predicate Fits(acc: Acc, maxLength: int) {
    |acc.current| <= maxLength && forall k :: 0 <= k < |acc.chunks| ==> |acc.chunks[k]| <= maxLength
  }

  lemma FlushFits(acc: Acc, maxLength: int)
    requires Fits(acc, maxLength)
    ensures Fits(Flush(acc), maxLength)
  {
    if acc.current != "" {
      var r := Flush(acc);
      assert r.chunks == acc.chunks + [Strip(acc.current)];
      forall k | 0 <= k < |r.chunks|
        ensures |r.chunks[k]| <= maxLength
      {
        if k < |acc.chunks| {
          assert r.chunks[k] == acc.chunks[k];
        }
      }
    }
  }

  lemma {:induction false} SentencesKeepFit(acc: Acc, ss: seq<string>, maxLength: int)
    requires Fits(acc, maxLength)
    requires forall j :: 0 <= j < |ss| ==> |ss[j]| <= maxLength
    ensures Fits(Sentences(acc, ss, maxLength), maxLength)
    decreases |ss|
  {
    if |ss| > 0 {
      var prev := Sentences(acc, ss[..|ss| - 1], maxLength);
      SentencesKeepFit(acc, ss[..|ss| - 1], maxLength);
      FlushFits(prev, maxLength);
    }
  }

  lemma ParagraphKeepsFit(acc: Acc, paragraph: string, maxLength: int)
    requires Fits(acc, maxLength)
    requires |paragraph| > maxLength ==> SentencesOfFit(paragraph, maxLength)
    ensures Fits(ParagraphStep(acc, paragraph, maxLength), maxLength)
  {
    FlushFits(acc, maxLength);
    if |acc.current| + |paragraph| + 2 > maxLength && |paragraph| > maxLength {
      SentencesKeepFit(Flush(acc), Split(paragraph, ". "), maxLength);
    }
  }

  lemma {:induction false} ParagraphsKeepFit(ps: seq<string>, maxLength: int, n: nat)
    requires maxLength >= 0 && n <= |ps|
    requires forall i :: 0 <= i < |ps| && |ps[i]| > maxLength ==> SentencesOfFit(ps[i], maxLength)
    ensures Fits(Paragraphs(Acc([], ""), ps[..n], maxLength), maxLength)
  {
    if n > 0 {
      assert ps[..n][..n - 1] == ps[..n - 1];
      ParagraphsKeepFit(ps, maxLength, n - 1);
      ParagraphKeepsFit(Paragraphs(Acc([], ""), ps[..n - 1], maxLength), ps[n - 1], maxLength);
    }
  }

  /** A text that fits is one piece; otherwise, when every sentence of every
      over-long paragraph fits, so does every piece. A longer sentence is
      emitted whole, so the condition cannot be dropped. */
  lemma SplitPiecesFit(text: string, maxLength: int)
    requires maxLength >= 0 && SentencesFit(text, maxLength)
    ensures |text| <= maxLength ==> SplitPieces(text, maxLength) == [text]
    ensures forall k :: 0 <= k < |SplitPieces(text, maxLength)| ==> |SplitPieces(text, maxLength)[k]| <= maxLength
  {
    if |text| > maxLength {
      var ps := Split(text, "\n\n");
      ParagraphsKeepFit(ps, maxLength, |ps|);
      assert ps[..|ps|] == ps;
      FlushFits(Paragraphs(Acc([], ""), ps, maxLength), maxLength);
    }
  }

  /** A sentence longer than the limit comes out as a piece of its own, too
      long for Telegram: here a text with no paragraph or sentence break. */
  lemma LongSentenceEmittedWhole(text: string, maxLength: int)
    requires |text| > maxLength >= 0
    requires '\n' !in text && '.' !in text
    requires !IsSpace(text[0]) && !IsSpace(text[|text| - 1])
    ensures SplitPieces(text, maxLength) == [text]
  {
    SplitWithoutFirstChar(text, "\n\n");
    SplitWithoutFirstChar(text, ". ");
    var ps := [text];
    assert ps[..0] == [];
    assert Sentences(Acc([], ""), ps, maxLength) == Acc([], text);
    assert ParagraphStep(Acc([], ""), text, maxLength) == Acc([], text);
    assert Paragraphs(Acc([], ""), ps, maxLength) == Acc([], text);
    StripUnpadded(text);
    assert Flush(Acc([], text)) == Acc([text], "");
  }

  // ---------------------------------------------------------------------
  // Chunk buttons
  // ---------------------------------------------------------------------

  /** An inline button: its label and the data sent back when pressed. */
  datatype Button = Button(text: string, callbackData: string)

  /** The button of one chunk id. */
  function ChunkButton(chunkId: string): (b: Button)
    ensures b.callbackData == chunkId
    ensures b.text == "\U{1F4C4} " + chunkId
  {
    Button("\U{1F4C4} " + chunkId, chunkId)
  }

  function ButtonsFor(ids: seq<string>): (r: seq<Button>)
    ensures |r| == |ids| && forall k :: 0 <= k < |ids| ==> r[k] == ChunkButton(ids[k])
  {
    seq(|ids|, k requires 0 <= k < |ids| => ChunkButton(ids[k]))
  }

  function Min(a: int, b: int): int {
    if a <= b then a else b
  }

  /** Row r holds the buttons of ids 2r and 2r + 1 (when there is one). */
  function Layout(ids: seq<string>): (rows: seq<seq<Button>>)
    ensures |rows| == (|ids| + 1) / 2
  {
    seq((|ids| + 1) / 2, r requires 0 <= r < (|ids| + 1) / 2 => ButtonsFor(ids[2 * r..Min(2 * r + 2, |ids|)]))
  }

  /** _create_chunk_buttons: None for no ids; otherwise rows of two buttons
      built by the two nested loops. */
  method CreateChunkButtons(chunkIdsUsed: Option<seq<string>>) returns (markup: Option<seq<seq<Button>>>)
    ensures chunkIdsUsed.None? || |chunkIdsUsed.value| == 0 <==> markup.None?
    ensures markup.Some? ==> markup.value == Layout(chunkIdsUsed.value)
  {
    if chunkIdsUsed.None? || |chunkIdsUsed.value| == 0 {
      return None;
    }
    var ids := chunkIdsUsed.value;
    var n := |ids|;
    var chunkButtons: seq<seq<Button>> := [];
    var i := 0;
    while i < n
      invariant i == 2 * |chunkButtons| && i <= n + 1
      invariant forall r :: 0 <= r < |chunkButtons| ==> chunkButtons[r] == ButtonsFor(ids[2 * r..Min(2 * r + 2, n)])
    {
      var row: seq<Button> := [];
      var j := i;
      var end := Min(i + 2, n);
      while j < end
        invariant i <= j <= end
        invariant row == ButtonsFor(ids[i..j])
      {
        row := row + [ChunkButton(ids[j])];
        j := j + 1;
      }
      chunkButtons := chunkButtons + [row];
      i := i + 2;
    }
    markup := Some(chunkButtons);
  }

  /** The buttons of all rows, row after row. */
  function Flatten(rows: seq<seq<Button>>): seq<Button>
    decreases |rows|
  {
    if |rows| == 0 then [] else rows[0] + Flatten(rows[1..])
  }

  /** Every row has one or two buttons, and only the last can have one. */
  lemma LayoutRowSizes(ids: seq<string>)
    ensures forall r :: 0 <= r < |Layout(ids)| ==> 1 <= |Layout(ids)[r]| <= 2
    ensures forall r :: 0 <= r < |Layout(ids)| - 1 ==> |Layout(ids)[r]| == 2
  {
  }

  lemma LayoutCons(ids: seq<string>)
    requires |ids| > 2
    ensures Layout(ids) == [ButtonsFor(ids[..2])] + Layout(ids[2..])
  {
    var a := Layout(ids);
    var b := [ButtonsFor(ids[..2])] + Layout(ids[2..]);
    assert |a| == |b|;
    forall r | 0 <= r < |a|
      ensures a[r] == b[r]
    {
      if r > 0 {
        assert ids[2 * r..Min(2 * r + 2, |ids|)] == ids[2..][2 * (r - 1)..Min(2 * (r - 1) + 2, |ids| - 2)];
      }
    }
  }

  /** Read row by row, the buttons are the ids in order, each labelled with
      the page emoji and carrying its id as callback data. */
  lemma {:induction false} LayoutFlatten(ids: seq<string>)
    ensures Flatten(Layout(ids)) == ButtonsFor(ids)
    decreases |ids|
  {
    if |ids| == 0 {
    } else if |ids| <= 2 {
      assert ids[2 * 0..Min(2 * 0 + 2, |ids|)] == ids;
      assert Layout(ids) == [ButtonsFor(ids)];
      assert Flatten([ButtonsFor(ids)]) == ButtonsFor(ids) + Flatten([]);
    } else {
      LayoutCons(ids);
      LayoutFlatten(ids[2..]);
      var rows := Layout(ids);
      assert rows[1..] == Layout(ids[2..]);
      assert ButtonsFor(ids) == ButtonsFor(ids[..2]) + ButtonsFor(ids[2..]);
    }
  }
}
