// Splitting the site's knowledge file into retrieval chunks
// (netlify/functions/ask.js, `chunkMarkdown`).
//
// The text is cut at every run of two or more newlines, each piece is
// trimmed and empty pieces are dropped; the paragraphs are then packed
// greedily, in order, into chunks joined by a blank line, a new chunk being
// started whenever adding the next paragraph would exceed 1200 characters.

module Chunker {
  import opened Common

  const MaxChunkLength: nat := 1200
  const ParagraphSeparator: string := "\n\n"

  predicate IsNewline(c: char) {
    c == '\n'
  }

  predicate NonEmpty(s: string) {
    s != ""
  }

  /** `text.split(/\n{2,}/g).map(s => s.trim()).filter(Boolean)` */
  function Paragraphs(text: string): (r: seq<string>)
    ensures forall p :: p in r ==> p != "" && !IsSpace(p[0]) && !IsSpace(p[|p| - 1])
  {
    var pieces := SplitOnRuns(text, IsNewline, 2, "");
    var trimmed := MapSeq(Trim, pieces);
    assert forall p :: p in trimmed ==> p == "" || (!IsSpace(p[0]) && !IsSpace(p[|p| - 1])) by {
      forall p | p in trimmed
        ensures p == "" || (!IsSpace(p[0]) && !IsSpace(p[|p| - 1]))
      {
        var k :| 0 <= k < |trimmed| && trimmed[k] == p;
        TrimSpec(pieces[k]);
      }
    }
    FilterSpec(NonEmpty, trimmed);
    Filter(NonEmpty, trimmed)
  }

  /** `paragraphs.join("\n\n")`, also the contents of one packed chunk. */
  function JoinParagraphs(ps: seq<string>): string {
    Join(ps, ParagraphSeparator)
  }

  predicate AllNonEmpty(ps: seq<string>) {
    forall k :: 0 <= k < |ps| ==> ps[k] != ""
  }

  // ------------------------------------------------------------------
  // The packing loop, as a fold over the paragraphs

  /** The loop's two variables: the finished chunks and the chunk being filled. */
  datatype Packing = Packing(chunks: seq<string>, cur: string)

  /** One iteration of the loop over the paragraphs. */
  function PackStep(st: Packing, p: string): Packing {
    if |st.cur| + |ParagraphSeparator| + |p| > MaxChunkLength then
      Packing(if st.cur != "" then st.chunks + [st.cur] else st.chunks, p)
    else
      Packing(st.chunks, if st.cur != "" then st.cur + ParagraphSeparator + p else p)
  }

  /** The state after the loop has consumed all of `paras`. */
  function PackFold(paras: seq<string>): Packing
    decreases |paras|
  {
    if paras == [] then Packing([], "")
    else PackStep(PackFold(paras[..|paras| - 1]), paras[|paras| - 1])
  }

  /** The chunks returned: the finished ones and the last one if non-empty. */
  function Pack(paras: seq<string>): seq<string> {
    var st := PackFold(paras);
    if st.cur != "" then st.chunks + [st.cur] else st.chunks
  }

  // ------------------------------------------------------------------
  // The same loop seen as a grouping of the paragraphs

  function Flatten(gs: seq<seq<string>>): seq<string>
    decreases |gs|
  {
    if gs == [] then [] else Flatten(gs[..|gs| - 1]) + gs[|gs| - 1]
  }

  lemma FlattenAppend(gs: seq<seq<string>>, g: seq<string>)
    ensures Flatten(gs + [g]) == Flatten(gs) + g
  {
    assert (gs + [g])[..|gs|] == gs;
  }

  /** The groups of paragraphs that form the finished chunks, and the open
      group that forms `cur`. */
  datatype Groups = Groups(closed: seq<seq<string>>, open: seq<string>)

  ghost function Grouping(paras: seq<string>): Groups
    decreases |paras|
  {
    if paras == [] then Groups([], [])
    else
      var g := Grouping(paras[..|paras| - 1]);
      var p := paras[|paras| - 1];
      if |JoinParagraphs(g.open)| + |ParagraphSeparator| + |p| > MaxChunkLength then
        Groups(if g.open != [] then g.closed + [g.open] else g.closed, [p])
      else
        Groups(g.closed, g.open + [p])
  }

  /** The groups of paragraphs, one per returned chunk. */
  ghost function ChunkGroups(paras: seq<string>): seq<seq<string>> {
    var g := Grouping(paras);
    if g.open != [] then g.closed + [g.open] else g.closed
  }

  lemma {:induction false} JoinParagraphsNonEmpty(ps: seq<string>)
    requires AllNonEmpty(ps) && ps != []
    ensures JoinParagraphs(ps) != ""
  {
    if |ps| > 1 {
      assert JoinParagraphs(ps) == JoinParagraphs(ps[..|ps| - 1]) + ParagraphSeparator + ps[|ps| - 1];
    }
  }

  lemma JoinParagraphsSnoc(ps: seq<string>, p: string)
    requires ps != []
    ensures JoinParagraphs(ps + [p]) == JoinParagraphs(ps) + ParagraphSeparator + p
  {
    assert (ps + [p])[..|ps|] == ps;
  }

  predicate GroupsNonEmpty(gs: seq<seq<string>>) {
    forall k :: 0 <= k < |gs| ==> gs[k] != [] && AllNonEmpty(gs[k])
  }

  /** The groups cover the paragraphs in order. */
  lemma {:induction false} GroupingCovers(paras: seq<string>)
    ensures Flatten(Grouping(paras).closed) + Grouping(paras).open == paras
    decreases |paras|
  {
    if paras != [] {
      var init, p := paras[..|paras| - 1], paras[|paras| - 1];
      assert paras == init + [p];
      GroupingCovers(init);
      var g := Grouping(init);
      if |JoinParagraphs(g.open)| + |ParagraphSeparator| + |p| > MaxChunkLength {
        if g.open != [] {
          FlattenAppend(g.closed, g.open);
          assert Grouping(paras) == Groups(g.closed + [g.open], [p]);
        } else {
          assert Grouping(paras) == Groups(g.closed, [p]);
        }
      } else {
        assert Grouping(paras) == Groups(g.closed, g.open + [p]);
      }
    }
  }

  /** The open group is empty only before the first paragraph, and no group
      is empty or holds an empty paragraph. */
  lemma {:induction false} GroupingNonEmpty(paras: seq<string>)
    requires AllNonEmpty(paras)
    ensures Grouping(paras).open == [] <==> paras == []
    ensures GroupsNonEmpty(Grouping(paras).closed) && AllNonEmpty(Grouping(paras).open)
    decreases |paras|
  {
    if paras != [] {
      var init := paras[..|paras| - 1];
      assert AllNonEmpty(init);
      GroupingNonEmpty(init);
    }
  }

  /** A group of two or more paragraphs fits in the length limit. */
  lemma {:induction false} GroupingBound(paras: seq<string>)
    ensures forall k :: 0 <= k < |Grouping(paras).closed| && |Grouping(paras).closed[k]| >= 2 ==>
              |JoinParagraphs(Grouping(paras).closed[k])| <= MaxChunkLength
    ensures |Grouping(paras).open| >= 2 ==> |JoinParagraphs(Grouping(paras).open)| <= MaxChunkLength
    decreases |paras|
  {
    if paras != [] {
      var init, p := paras[..|paras| - 1], paras[|paras| - 1];
      GroupingBound(init);
      var g := Grouping(init);
      if g.open != [] {
        JoinParagraphsSnoc(g.open, p);
      }
    }
  }

  /** The fold and the grouping stay in step: every finished chunk is the
      join of a closed group and `cur` is the join of the open group. */
  lemma {:induction false} PackFoldIsGrouping(paras: seq<string>)
    requires AllNonEmpty(paras)
    ensures PackFold(paras).chunks == MapSeq(JoinParagraphs, Grouping(paras).closed)
    ensures PackFold(paras).cur == JoinParagraphs(Grouping(paras).open)
    decreases |paras|
  {
    if paras != [] {
      var init, p := paras[..|paras| - 1], paras[|paras| - 1];
      assert AllNonEmpty(init);
      PackFoldIsGrouping(init);
      GroupingNonEmpty(init);
      var g := Grouping(init);
      if g.open != [] {
        JoinParagraphsNonEmpty(g.open);
        JoinParagraphsSnoc(g.open, p);
        MapSeqSnoc(JoinParagraphs, g.closed, g.open);
      }
    }
  }

  /** Each chunk is the blank-line join of a non-empty run of consecutive
      paragraphs, and the runs cover all paragraphs in order. */
  lemma PackIsGrouping(paras: seq<string>)
    requires AllNonEmpty(paras)
    ensures |ChunkGroups(paras)| == |Pack(paras)|
    ensures Flatten(ChunkGroups(paras)) == paras
    ensures GroupsNonEmpty(ChunkGroups(paras))
    ensures Pack(paras) == MapSeq(JoinParagraphs, ChunkGroups(paras))
  {
    ChunkGroupsCover(paras);
    PackJoinsGroups(paras);
  }

  lemma PackJoinsGroups(paras: seq<string>)
    requires AllNonEmpty(paras)
    ensures Pack(paras) == MapSeq(JoinParagraphs, ChunkGroups(paras))
  {
    PackFoldIsGrouping(paras);
    GroupingNonEmpty(paras);
    var g := Grouping(paras);
    if g.open != [] {
      JoinParagraphsNonEmpty(g.open);
      MapSeqSnoc(JoinParagraphs, g.closed, g.open);
    }
  }

  lemma ChunkGroupsCover(paras: seq<string>)
    requires AllNonEmpty(paras)
    ensures Flatten(ChunkGroups(paras)) == paras
    ensures GroupsNonEmpty(ChunkGroups(paras))
  {
    GroupingCovers(paras);
    GroupingNonEmpty(paras);
    var g := Grouping(paras);
    if g.open != [] {
      CloseGroup(g.closed, g.open);
    }
  }

  lemma CloseGroup(closed: seq<seq<string>>, open: seq<string>)
    requires GroupsNonEmpty(closed) && open != [] && AllNonEmpty(open)
    ensures Flatten(closed + [open]) == Flatten(closed) + open
    ensures GroupsNonEmpty(closed + [open])
  {
    FlattenAppend(closed, open);
    var gs := closed + [open];
    forall k | 0 <= k < |gs|
      ensures gs[k] != [] && AllNonEmpty(gs[k])
    {
      if k < |closed| {
        assert gs[k] == closed[k];
      }
    }
  }

  /** A chunk that holds two or more paragraphs is at most 1200 characters. */
  lemma PackGroupBound(paras: seq<string>)
    requires AllNonEmpty(paras)
    ensures |ChunkGroups(paras)| == |Pack(paras)|
    ensures forall k :: 0 <= k < |ChunkGroups(paras)| && |ChunkGroups(paras)[k]| >= 2 ==>
              |Pack(paras)[k]| <= MaxChunkLength
  {
    PackIsGrouping(paras);
    GroupingBound(paras);
    var g := Grouping(paras);
    var gs := ChunkGroups(paras);
    forall k | 0 <= k < |gs| && |gs[k]| >= 2
      ensures |Pack(paras)[k]| <= MaxChunkLength
    {
      assert Pack(paras)[k] == JoinParagraphs(gs[k]);
      if k < |g.closed| {
        assert gs[k] == g.closed[k];
      } else {
        assert gs[k] == g.open;
      }
    }
  }

  lemma {:induction false} JoinOfJoins(gs: seq<seq<string>>)
    requires forall k :: 0 <= k < |gs| ==> gs[k] != []
    ensures JoinParagraphs(MapSeq(JoinParagraphs, gs)) == JoinParagraphs(Flatten(gs))
    decreases |gs|
  {
    if |gs| > 1 {
      var init, g := gs[..|gs| - 1], gs[|gs| - 1];
      JoinOfJoins(init);
      assert MapSeq(JoinParagraphs, gs)[..|gs| - 1] == MapSeq(JoinParagraphs, init);
      assert Flatten(init) != [] by {
        assert Flatten(init) == Flatten(init[..|init| - 1]) + init[|init| - 1];
      }
      JoinConcat(Flatten(init), g, ParagraphSeparator);
    } else if |gs| == 1 {
      assert gs[..0] == [];
      assert Flatten(gs) == gs[0];
      assert MapSeq(JoinParagraphs, gs) == [JoinParagraphs(gs[0])];
    }
  }

  /** Packing only regroups: joining the chunks with a blank line gives the
      paragraphs joined with a blank line. */
  lemma PackPreservesText(paras: seq<string>)
    requires AllNonEmpty(paras)
    ensures JoinParagraphs(Pack(paras)) == JoinParagraphs(paras)
  {
    PackIsGrouping(paras);
    JoinOfJoins(ChunkGroups(paras));
  }

  /** No chunk is empty, and a chunk over 1200 characters is a single
      paragraph that was too long on its own. */
  lemma PackChunkBounds(paras: seq<string>)
    requires AllNonEmpty(paras)
    ensures forall c :: c in Pack(paras) ==> c != ""
    ensures forall c :: c in Pack(paras) && |c| > MaxChunkLength ==> c in paras
  {
    PackIsGrouping(paras);
    PackGroupBound(paras);
    var gs := ChunkGroups(paras);
    forall c | c in Pack(paras)
      ensures c != "" && (|c| > MaxChunkLength ==> c in paras)
    {
      var k :| 0 <= k < |Pack(paras)| && Pack(paras)[k] == c;
      JoinParagraphsNonEmpty(gs[k]);
      if |c| > MaxChunkLength {
        assert |gs[k]| == 1;
        FlattenHolds(gs, k);
      }
    }
  }

  lemma {:induction false} FlattenHolds(gs: seq<seq<string>>, k: nat)
    requires k < |gs| && |gs[k]| == 1
    ensures gs[k][0] in Flatten(gs)
    decreases |gs|
  {
    if k < |gs| - 1 {
      FlattenHolds(gs[..|gs| - 1], k);
    }
  }

  lemma ParagraphsNonEmpty(text: string)
    ensures AllNonEmpty(Paragraphs(text))
  {
    var ps := Paragraphs(text);
    assert forall k :: 0 <= k < |ps| ==> ps[k] in ps;
  }

  // ------------------------------------------------------------------
  // The function itself

  /** What the packed chunks of a text are, in terms of its paragraphs. */
  lemma ChunksOfText(text: string)
    ensures forall c :: c in Pack(Paragraphs(text)) ==> c != ""
    ensures JoinParagraphs(Pack(Paragraphs(text))) == JoinParagraphs(Paragraphs(text))
    ensures forall c :: c in Pack(Paragraphs(text)) && |c| > MaxChunkLength ==> c in Paragraphs(text)
  {
    ParagraphsNonEmpty(text);
    PackPreservesText(Paragraphs(text));
    PackChunkBounds(Paragraphs(text));
  }

  lemma PackFoldPrefix(paras: seq<string>, i: nat)
    requires i < |paras|
    ensures PackFold(paras[..i + 1]) == PackStep(PackFold(paras[..i]), paras[i])
  {
    assert paras[..i + 1][..i] == paras[..i];
  }

  /** `chunkMarkdown(text)` */
  method ChunkMarkdown(text: string) returns (chunks: seq<string>)
    ensures chunks == Pack(Paragraphs(text))
    ensures forall c :: c in chunks ==> c != ""
    ensures JoinParagraphs(chunks) == JoinParagraphs(Paragraphs(text))
    ensures forall c :: c in chunks && |c| > MaxChunkLength ==> c in Paragraphs(text)
  {
    var paragraphs := Paragraphs(text);
    chunks := [];
    var cur := "";
    for i := 0 to |paragraphs|
      invariant PackFold(paragraphs[..i]) == Packing(chunks, cur)
    {
      var p := paragraphs[i];
      PackFoldPrefix(paragraphs, i);
      if |cur + ParagraphSeparator + p| > MaxChunkLength {
        if cur != "" {
          chunks := chunks + [cur];
        }
        cur := p;
      } else {
        cur := if cur != "" then cur + ParagraphSeparator + p else p;
      }
    }
    assert paragraphs[..|paragraphs|] == paragraphs;
    if cur != "" {
      chunks := chunks + [cur];
    }
    ChunksOfText(text);
  }
}
