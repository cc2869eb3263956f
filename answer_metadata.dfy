/** The metadata suffix the answer step appends to name the chunks it used,
    and the regular-expression parse that reads the ids back from the final
    answer. */
module AnswerMetadata {
  import opened Wrappers
  import opened Strings

  const UsedChunks: string := "Used chunks: "
  const MetadataMarker: string := "[Metadata:"

  /** The suffix appended to a structured answer that cites chunks: the
      metadata entries (here only the "Used chunks" one) joined by "; ". */
  function MetadataSuffix(joinedIds: string): string {
    "\n\n[Metadata: " + Join([UsedChunks + joinedIds], "; ") + "]"
  }

  /** Where the pattern `Used chunks: ([^;]+)` can match: the literal text
      followed by at least one character other than ';'. */
  predicate MatchesAt(s: string, k: int) {
    OccursAt(s, UsedChunks, k) && k + |UsedChunks| < |s| && s[k + |UsedChunks|] != ';'
  }

  /** re.search: the leftmost match at or after `from`. */
  function FirstMatchFrom(s: string, from: nat): (r: Option<nat>)
    ensures r.Some? ==> from <= r.value && MatchesAt(s, r.value)
    ensures r.Some? ==> forall j :: from <= j < r.value ==> !MatchesAt(s, j)
    ensures r.None? ==> forall j :: from <= j ==> !MatchesAt(s, j)
    decreases |s| - from
  {
    if from >= |s| then None
    else if MatchesAt(s, from) then Some(from)
    else FirstMatchFrom(s, from + 1)
  }

  /** Where the greedy `[^;]+` starting at i stops: at the first ';' or the end. */
  function RunEnd(s: string, i: nat): (e: nat)
    requires i <= |s|
    ensures i <= e <= |s|
    ensures e < |s| ==> s[e] == ';'
    ensures forall j :: i <= j < e ==> s[j] != ';'
    decreases |s| - i
  {
    if i == |s| || s[i] == ';' then i else RunEnd(s, i + 1)
  }

  /** The text captured by the pattern's group, if the pattern matches. */
  function CapturedIds(s: string): Option<string> {
    match FirstMatchFrom(s, 0)
    case None => None
    case Some(k) => Some(s[k + |UsedChunks|..RunEnd(s, k + |UsedChunks|)])
  }

  /** The chunk ids process_message reads off the final answer: nothing
      unless the answer contains "[Metadata:" and the pattern matches, else
      the captured text split on "," with each piece stripped. */
  function ParseChunkIds(content: string): seq<string> {
    if !Contains(content, MetadataMarker) then []
    else
      match CapturedIds(content)
      case None => []
      case Some(group) =>
        var pieces := Split(group, ",");
        seq(|pieces|, i requires 0 <= i < |pieces| => Strip(pieces[i]))
  }

  predicate Unpadded(s: string) {
    |s| > 0 ==> !IsSpace(s[0]) && !IsSpace(s[|s| - 1])
  }

  /** An id the model may cite and the parse can give back: no ',' or ';'
      inside and no surrounding whitespace. */
  predicate PlainId(id: string) {
    ',' !in id && ';' !in id && Unpadded(id)
  }

  /** The pieces of `p + ", ".join(ids) + t` split on ",": the first id
      carries p, every later one a leading space, and the last one t. */
  /** The joined text around its first separator. */
  lemma JoinedAtFirst(p: string, ids: seq<string>, t: string)
    requires |ids| > 1
    ensures p + Join(ids, ", ") + t == (p + ids[0]) + [','] + (" " + Join(ids[1..], ", ") + t)
  {
    assert Join(ids, ", ") == ids[0] + ", " + Join(ids[1..], ", ");
  }

  lemma SplitSingleId(p: string, id: string, t: string)
    requires ',' !in p && ',' !in id && ',' !in t
    ensures Split(p + id + t, ",") == [p + id + t]
  {
    assert ',' !in p + id + t;
    SplitWithoutFirstChar(p + id + t, ",");
  }

  lemma {:induction false} SplitJoinedIds(p: string, ids: seq<string>, t: string)
    requires |ids| > 0 && ',' !in p && ',' !in t
    requires forall k :: 0 <= k < |ids| ==> ',' !in ids[k]
    ensures var pieces := Split(p + Join(ids, ", ") + t, ",");
      |pieces| == |ids|
      && forall k :: 0 <= k < |ids| ==>
           pieces[k] == (if k == 0 then p else " ") + ids[k] + (if k == |ids| - 1 then t else "")
    decreases |ids|
  {
    var pieces := Split(p + Join(ids, ", ") + t, ",");
    if |ids| == 1 {
      assert Join(ids, ", ") == ids[0];
      SplitSingleId(p, ids[0], t);
    } else {
      var tail := ids[1..];
      JoinedAtFirst(p, ids, t);
      assert ',' !in p + ids[0];
      SplitAtFirst(p + ids[0], ',', " " + Join(tail, ", ") + t);
      var rest := Split(" " + Join(tail, ", ") + t, ",");
      SplitJoinedIds(" ", tail, t);
      assert pieces == [p + ids[0]] + rest;
      forall k | 1 <= k < |ids|
        ensures pieces[k] == " " + ids[k] + (if k == |ids| - 1 then t else "")
      {
        assert pieces[k] == rest[k - 1] && tail[k - 1] == ids[k];
      }
    }
  }

  /** The answer-plus-suffix as the answer step builds it. */
  function WithSuffix(answer: string, ids: seq<string>): string {
    answer + MetadataSuffix(Join(ids, ", "))
  }

  /** No occurrence of "Used chunks: " starts before the one in the suffix:
      the answer has none of its own, one straddling the boundary would need
      a newline inside "Used chunks: ", and the suffix's opening has no 'U'. */
  lemma NoEarlierMatch(answer: string, ids: seq<string>)
    requires forall j :: !OccursAt(answer, UsedChunks, j)
    ensures var s := WithSuffix(answer, ids);
      forall j :: 0 <= j < |answer| + 13 ==> !OccursAt(s, UsedChunks, j)
  {
    var s := WithSuffix(answer, ids);
    var opening := "\n\n[Metadata: ";
    assert s == answer + opening + (UsedChunks + Join(ids, ", ") + "]");
    assert |opening| == 13;
    forall j | 0 <= j < |answer| + 13
      ensures !OccursAt(s, UsedChunks, j)
    {
      if j + |UsedChunks| <= |answer| {
        assert s[j..j + |UsedChunks|] == answer[j..j + |UsedChunks|];
        assert !OccursAt(answer, UsedChunks, j);
      } else if j < |answer| {
        if j + |UsedChunks| <= |s| {
          var i := |answer| - j;
          assert s[j..j + |UsedChunks|][i] == s[|answer|] == '\n';
          assert UsedChunks[i] != '\n';
        }
      } else {
        assert s[j] == opening[j - |answer|];
        if j + |UsedChunks| <= |s| {
          assert s[j..j + |UsedChunks|][0] == s[j] != 'U';
        }
      }
    }
  }

  const Opening: string := "\n\n[Metadata: "

  lemma WithSuffixShape(answer: string, ids: seq<string>)
    ensures WithSuffix(answer, ids) == answer + Opening + UsedChunks + (Join(ids, ", ") + "]")
    ensures |Opening| == 13 && |UsedChunks| == 13
  {
  }

  lemma MarkerInSuffix(answer: string, ids: seq<string>)
    ensures Contains(WithSuffix(answer, ids), MetadataMarker)
  {
    var s := WithSuffix(answer, ids);
    WithSuffixShape(answer, ids);
    assert s[|answer| + 2..|answer| + 12] == Opening[2..12];
    assert OccursAt(s, MetadataMarker, |answer| + 2);
  }

  lemma MatchInSuffix(answer: string, ids: seq<string>)
    requires forall k :: 0 <= k < |ids| ==> ';' !in ids[k]
    ensures var s := WithSuffix(answer, ids); var k0 := |answer| + 13;
      MatchesAt(s, k0) && s[k0 + 13..] == Join(ids, ", ") + "]" && ';' !in s[k0 + 13..]
  {
    var s := WithSuffix(answer, ids);
    WithSuffixShape(answer, ids);
    var rest := Join(ids, ", ") + "]";
    var k0 := |answer| + 13;
    JoinAvoids(ids, ", ", ';');
    assert s[k0 + 13..] == rest;
    assert s[k0..k0 + 13] == UsedChunks;
    assert s[k0 + 13] == rest[0];
  }

  /** The group captured when the leftmost match is at k and no ';' follows it. */
  lemma CaptureToEnd(s: string, k: nat)
    requires MatchesAt(s, k) && forall j :: 0 <= j < k ==> !OccursAt(s, UsedChunks, j)
    requires ';' !in s[k + |UsedChunks|..]
    ensures CapturedIds(s) == Some(s[k + |UsedChunks|..])
  {
    assert FirstMatchFrom(s, 0) == Some(k);
    var i := k + |UsedChunks|;
    forall j | i <= j < |s|
      ensures s[j] != ';'
    {
      assert s[i..][j - i] == s[j];
    }
    assert RunEnd(s, i) == |s|;
    assert s[i..|s|] == s[i..];
  }

  /** The suffix's own "Used chunks: " is where the pattern matches, and the
      group runs to the end of the text. */
  lemma CapturedFromSuffix(answer: string, ids: seq<string>)
    requires forall j :: !OccursAt(answer, UsedChunks, j)
    requires forall k :: 0 <= k < |ids| ==> ';' !in ids[k]
    ensures CapturedIds(WithSuffix(answer, ids)) == Some(Join(ids, ", ") + "]")
  {
    NoEarlierMatch(answer, ids);
    MatchInSuffix(answer, ids);
    CaptureToEnd(WithSuffix(answer, ids), |answer| + 13);
  }

  /** The parse of a text whose marker is present and whose group is known. */
  lemma ParseOfGroup(s: string, group: string)
    requires Contains(s, MetadataMarker) && CapturedIds(s) == Some(group)
    ensures var pieces := Split(group, ",");
      ParseChunkIds(s) == seq(|pieces|, i requires 0 <= i < |pieces| => Strip(pieces[i]))
  {
  }

  /** The ids the answer step writes are not the ids process_message reads:
      for plain ids cited after an answer that does not itself mention
      "Used chunks: ", the parse gives them back in order except that the
      last one keeps the closing "]" of the suffix, because `[^;]+` runs to
      the end of the text. */
  lemma ParseWithSuffix(answer: string, ids: seq<string>)
    requires |ids| > 0 && !Contains(answer, UsedChunks)
    requires forall k :: 0 <= k < |ids| ==> PlainId(ids[k])
    ensures ParseChunkIds(WithSuffix(answer, ids)) == ids[..|ids| - 1] + [ids[|ids| - 1] + "]"]
  {
    var s := WithSuffix(answer, ids);
    var rest := Join(ids, ", ") + "]";
    assert Find(answer, UsedChunks) == -1;
    CapturedFromSuffix(answer, ids);
    MarkerInSuffix(answer, ids);
    ParseOfGroup(s, rest);
    assert rest == "" + Join(ids, ", ") + "]";
    SplitJoinedIds("", ids, "]");
    StripPieces(ids, Split(rest, ","));
  }

  /** Stripping the pieces of the split gives the ids back, the last with "]". */
  lemma StripPieces(ids: seq<string>, pieces: seq<string>)
    requires |ids| > 0 && |pieces| == |ids|
    requires forall k :: 0 <= k < |ids| ==> PlainId(ids[k])
    requires forall k :: 0 <= k < |ids| ==>
      pieces[k] == (if k == 0 then "" else " ") + ids[k] + (if k == |ids| - 1 then "]" else "")
    ensures seq(|pieces|, i requires 0 <= i < |pieces| => Strip(pieces[i])) == ids[..|ids| - 1] + [ids[|ids| - 1] + "]"]
  {
    var n := |ids|;
    var target := ids[..n - 1] + [ids[n - 1] + "]"];
    var stripped := seq(|pieces|, i requires 0 <= i < |pieces| => Strip(pieces[i]));
    forall k | 0 <= k < n
      ensures stripped[k] == target[k]
    {
      assert PlainId(ids[k]);
      assert pieces[k] == (if k == 0 then "" else " ") + ids[k] + (if k == n - 1 then "]" else "");
      StripPieceAt(ids[k], k == 0, k == n - 1);
      assert target[k] == if k == n - 1 then ids[k] + "]" else ids[k];
    }
    assert stripped == target;
  }

  /** One piece of the split, stripped: the id, with the closing "]" if it is the last. */
  lemma StripPieceAt(id: string, first: bool, last: bool)
    requires Unpadded(id)
    ensures Strip((if first then "" else " ") + id + (if last then "]" else "")) == (if last then id + "]" else id)
  {
    var lead := if first then "" else " ";
    if last {
      assert lead + id + "]" == lead + (id + "]");
      ClosedIdUnpadded(id);
      StripPiece(first, id + "]");
    } else {
      assert lead + id + "" == lead + id;
      StripPiece(first, id);
    }
  }

  lemma ClosedIdUnpadded(id: string)
    requires Unpadded(id)
    ensures Unpadded(id + "]")
  {
  }

  /** A piece is an id, after a space unless it is the first. */
  lemma StripPiece(first: bool, id: string)
    requires Unpadded(id)
    ensures Strip((if first then "" else " ") + id) == id
  {
    if first {
      assert "" + id == id;
      StripUnpadded(id);
    } else {
      StripLeadingSpace(id);
    }
  }
}
