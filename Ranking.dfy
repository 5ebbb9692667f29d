// Ranking the chunks by similarity (netlify/functions/ask.js):
// `scored.sort((a, b) => b.s - a.s)` on the records `{ i, s }` built in
// chunk order. `Array.prototype.sort` is stable, so equal scores keep chunk
// order; the result is the unique arrangement with scores descending and
// ties broken by the smaller chunk index.

module Ranking {
  import opened Common

  /** `{ i, s }`: a chunk index and its similarity to the question. */
  datatype Scored = Scored(index: nat, score: real)

  /** The records in chunk order: `cVecs.map((vec, i) => ({ i, s: ... }))`. */
  function ScoredInOrder(scores: seq<real>): (r: seq<Scored>)
    ensures |r| == |scores|
    ensures forall k :: 0 <= k < |r| ==> r[k] == Scored(k, scores[k])
  {
    seq(|scores|, k requires 0 <= k < |scores| => Scored(k, scores[k]))
  }

  /** `x` comes before `y` in the stable descending order. */
  predicate RanksBefore(x: Scored, y: Scored) {
    x.score > y.score || (x.score == y.score && x.index < y.index)
  }

  predicate Ranked(xs: seq<Scored>) {
    forall i, j :: 0 <= i < j < |xs| ==> RanksBefore(xs[i], xs[j])
  }

  predicate DistinctIndices(xs: seq<Scored>) {
    forall i, j :: 0 <= i < j < |xs| ==> xs[i].index != xs[j].index
  }

  lemma ScoredInOrderDistinct(scores: seq<real>)
    ensures DistinctIndices(ScoredInOrder(scores))
  {
  }

  // ------------------------------------------------------------------
  // A reference ranking, by insertion into a ranked list

  function Insert(x: Scored, ys: seq<Scored>): (r: seq<Scored>)
    ensures multiset(r) == multiset(ys) + multiset{x}
    decreases |ys|
  {
    if ys == [] then [x]
    else if RanksBefore(x, ys[0]) then [x] + ys
    else
      assert ys == [ys[0]] + ys[1..];
      [ys[0]] + Insert(x, ys[1..])
  }

  function Rank(xs: seq<Scored>): (r: seq<Scored>)
    ensures multiset(r) == multiset(xs)
    decreases |xs|
  {
    if xs == [] then []
    else
      assert xs == xs[..|xs| - 1] + [xs[|xs| - 1]];
      Insert(xs[|xs| - 1], Rank(xs[..|xs| - 1]))
  }

  /** The records of `xs` other than `x` all carry indices other than `x`'s. */
  predicate FreshIndex(x: Scored, ys: seq<Scored>) {
    forall k :: 0 <= k < |ys| ==> ys[k].index != x.index
  }

  lemma {:induction false} InsertRanked(x: Scored, ys: seq<Scored>)
    requires Ranked(ys) && FreshIndex(x, ys)
    ensures Ranked(Insert(x, ys))
    decreases |ys|
  {
    if ys != [] && !RanksBefore(x, ys[0]) {
      InsertRanked(x, ys[1..]);
      var r := Insert(x, ys[1..]);
      forall k | 0 <= k < |r|
        ensures RanksBefore(ys[0], r[k])
      {
        assert r[k] in multiset(r);
        assert r[k] == x || r[k] in ys[1..];
      }
    }
  }

  lemma {:induction false} RankRanked(xs: seq<Scored>)
    requires DistinctIndices(xs)
    ensures Ranked(Rank(xs))
    decreases |xs|
  {
    if xs != [] {
      var init, x := xs[..|xs| - 1], xs[|xs| - 1];
      RankRanked(init);
      var r := Rank(init);
      forall k | 0 <= k < |r|
        ensures r[k].index != x.index
      {
        assert r[k] in multiset(init);
      }
      InsertRanked(x, r);
    }
  }

  /** There is only one ranked arrangement of a collection of records. */
  lemma {:induction false} RankedUnique(xs: seq<Scored>, ys: seq<Scored>)
    requires Ranked(xs) && Ranked(ys) && multiset(xs) == multiset(ys)
    ensures xs == ys
    decreases |xs|
  {
    if xs == [] {
      assert |ys| == |multiset(ys)| == 0;
    } else {
      RankedSameHead(xs, ys);
      SameTails(xs, ys);
      RankedTail(xs);
      RankedTail(ys);
      RankedUnique(xs[1..], ys[1..]);
      assert xs == [xs[0]] + xs[1..] && ys == [ys[0]] + ys[1..];
    }
  }

  /** Two ranked arrangements of the same records start alike. */
  lemma RankedSameHead(xs: seq<Scored>, ys: seq<Scored>)
    requires Ranked(xs) && Ranked(ys) && multiset(xs) == multiset(ys) && xs != []
    ensures ys != [] && xs[0] == ys[0]
  {
    assert |ys| == |multiset(ys)| == |xs|;
    assert xs[0] in multiset(ys);
    var j :| 0 <= j < |ys| && ys[j] == xs[0];
    assert ys[0] in multiset(xs);
    var i :| 0 <= i < |xs| && xs[i] == ys[0];
    assert i == 0 || RanksBefore(xs[0], xs[i]);
    if j != 0 {
      assert false;
    }
  }

  lemma SameTails(xs: seq<Scored>, ys: seq<Scored>)
    requires xs != [] && ys != [] && xs[0] == ys[0] && multiset(xs) == multiset(ys)
    ensures multiset(xs[1..]) == multiset(ys[1..])
  {
    assert xs == [xs[0]] + xs[1..] && ys == [ys[0]] + ys[1..];
    assert multiset(xs[1..]) == multiset(xs) - multiset{xs[0]};
    assert multiset(ys[1..]) == multiset(ys) - multiset{ys[0]};
  }

  lemma RankedTail(xs: seq<Scored>)
    requires Ranked(xs) && xs != []
    ensures Ranked(xs[1..])
  {
    assert forall k :: 0 <= k < |xs| - 1 ==> xs[1..][k] == xs[k + 1];
  }

  /** The reference ranking is the ranked arrangement of the records, and
      any ranked permutation of the records equals it. */
  lemma RankIsRanking(xs: seq<Scored>, ys: seq<Scored>)
    requires DistinctIndices(xs)
    ensures Ranked(Rank(xs)) && multiset(Rank(xs)) == multiset(xs)
    ensures Ranked(ys) && multiset(ys) == multiset(xs) ==> ys == Rank(xs)
  {
    RankRanked(xs);
    if Ranked(ys) && multiset(ys) == multiset(xs) {
      RankedUnique(ys, Rank(xs));
    }
  }

  /** The first ranked record has the highest score of all. */
  lemma RankFirstIsBest(scores: seq<real>)
    requires scores != []
    ensures var r := Rank(ScoredInOrder(scores));
      r != [] && forall k :: 0 <= k < |scores| ==> r[0].score >= scores[k]
  {
    var xs := ScoredInOrder(scores);
    RankRanked(xs);
    var r := Rank(xs);
    assert |r| == |multiset(r)| == |xs|;
    forall k | 0 <= k < |scores|
      ensures r[0].score >= scores[k]
    {
      assert xs[k] in multiset(r);
      var j :| 0 <= j < |r| && r[j] == xs[k];
      if j != 0 {
        assert RanksBefore(r[0], r[j]);
      }
    }
  }

  /** Ranking the records built from `scores`: every chunk index appears
      exactly once, each with its own score, in ranked order. */
  lemma RankOfScores(scores: seq<real>)
    ensures |Rank(ScoredInOrder(scores))| == |scores|
    ensures Ranked(Rank(ScoredInOrder(scores)))
    ensures forall x :: x in Rank(ScoredInOrder(scores)) ==> x.index < |scores| && x.score == scores[x.index]
    ensures forall i :: 0 <= i < |scores| ==> Scored(i, scores[i]) in Rank(ScoredInOrder(scores))
  {
    var xs := ScoredInOrder(scores);
    RankRanked(xs);
    RankMembers(xs);
    assert |Rank(xs)| == |multiset(Rank(xs))| == |xs|;
    forall i | 0 <= i < |scores|
      ensures Scored(i, scores[i]) in xs
    {
      assert xs[i] == Scored(i, scores[i]);
    }
  }

  lemma RankMembers(xs: seq<Scored>)
    ensures forall x :: x in Rank(xs) <==> x in xs
  {
    forall x
      ensures x in Rank(xs) <==> x in xs
    {
      assert x in Rank(xs) <==> x in multiset(Rank(xs));
      assert x in xs <==> x in multiset(xs);
    }
  }

  /** `scored.slice(0, n).map(({ i }) => i)` after the sort: the chunk
      indices of the `n` best records. */
  function TopIndices(scores: seq<real>, n: nat): (top: seq<nat>)
    ensures |top| == if |scores| < n then |scores| else n
    ensures forall p :: 0 <= p < |top| ==> top[p] < |scores|
  {
    var ranked := Rank(ScoredInOrder(scores));
    RankIndicesInRange(scores);
    var m := if |scores| < n then |scores| else n;
    seq(m, p requires 0 <= p < m => ranked[p].index)
  }

  lemma RankIndicesInRange(scores: seq<real>)
    ensures var ranked := Rank(ScoredInOrder(scores));
      |ranked| == |scores| && forall p :: 0 <= p < |ranked| ==> ranked[p].index < |scores|
  {
    RankOfScores(scores);
    var ranked := Rank(ScoredInOrder(scores));
    forall p | 0 <= p < |ranked|
      ensures ranked[p].index < |scores|
    {
      assert ranked[p] in ranked;
    }
  }

  /** The selected indices are those of the first records of the ranking. */
  lemma TopIndicesOfRank(scores: seq<real>, n: nat)
    ensures var ranked, top := Rank(ScoredInOrder(scores)), TopIndices(scores, n);
      |ranked| == |scores| && forall p :: 0 <= p < |top| ==> top[p] == ranked[p].index
  {
    RankOfScores(scores);
  }

  /** The selected chunks are distinct, come best first with ties in chunk
      order, and no chunk left out scores higher than one selected. */
  lemma TopIndicesAreBest(scores: seq<real>, n: nat)
    ensures var top := TopIndices(scores, n);
      && NoDuplicates(top)
      && (forall p, q :: 0 <= p < q < |top| ==>
            scores[top[p]] > scores[top[q]] || (scores[top[p]] == scores[top[q]] && top[p] < top[q]))
      && (forall p, k :: 0 <= p < |top| && 0 <= k < |scores| && k !in top ==> scores[top[p]] >= scores[k])
  {
    TopIndicesOrdered(scores, n);
    TopIndicesDominate(scores, n);
  }

  lemma TopIndicesOrdered(scores: seq<real>, n: nat)
    ensures var top := TopIndices(scores, n);
      && NoDuplicates(top)
      && (forall p, q :: 0 <= p < q < |top| ==>
            scores[top[p]] > scores[top[q]] || (scores[top[p]] == scores[top[q]] && top[p] < top[q]))
  {
    RankOfScores(scores);
    var ranked := Rank(ScoredInOrder(scores));
    var top := TopIndices(scores, n);
    assert forall p :: 0 <= p < |top| ==> top[p] == ranked[p].index;
  }

  lemma TopIndicesDominate(scores: seq<real>, n: nat)
    ensures var top := TopIndices(scores, n);
      forall p, k :: 0 <= p < |top| && 0 <= k < |scores| && k !in top ==> scores[top[p]] >= scores[k]
  {
    RankOfScores(scores);
    var ranked := Rank(ScoredInOrder(scores));
    var top := TopIndices(scores, n);
    assert forall p :: 0 <= p < |top| ==> top[p] == ranked[p].index;
    forall p, k | 0 <= p < |top| && 0 <= k < |scores| && k !in top
      ensures scores[top[p]] >= scores[k]
    {
      assert Scored(k, scores[k]) in ranked;
      var j :| 0 <= j < |ranked| && ranked[j] == Scored(k, scores[k]);
      if j < |top| {
        assert false;
      }
      assert RanksBefore(ranked[p], ranked[j]);
    }
  }

  // ------------------------------------------------------------------
  // The sort itself: in place on the array, stable

  /** `scored.sort((a, b) => b.s - a.s)` on records built in chunk order. */
  method SortByScore(a: array<Scored>)
    requires forall k :: 0 <= k < a.Length ==> a[k].index == k
    modifies a
    ensures a[..] == Rank(old(a[..]))
  {
    ghost var original := a[..];
    for i := 0 to a.Length
      invariant multiset(a[..]) == multiset(original)
      invariant a[i..] == original[i..]
      invariant Ranked(a[..i])
      invariant forall k :: 0 <= k < i ==> a[k].index < i
    {
      InsertLast(a, i);
    }
    assert a[..] == a[..a.Length];
    assert DistinctIndices(original);
    RankIsRanking(original, a[..]);
  }

  /** The state of the inner loop that moves record `key` (index `i`) left:
      it sits at `j`, the other records of `s[..i + 1]` are in ranked order,
      and those it has passed have lower scores. */
  predicate Inserting(s: seq<Scored>, i: nat, j: nat, key: Scored) {
    && j <= i < |s| && s[j] == key && key.index == i
    && (forall p, q :: 0 <= p < q <= i && p != j && q != j ==> RanksBefore(s[p], s[q]))
    && (forall q :: j < q <= i ==> key.score > s[q].score)
    && (forall k :: 0 <= k <= i && k != j ==> s[k].index < i)
  }

  lemma InsertingStep(s: seq<Scored>, i: nat, j: nat, key: Scored)
    requires Inserting(s, i, j, key) && 0 < j && s[j - 1].score < key.score
    ensures Inserting(s[j - 1 := key][j := s[j - 1]], i, j - 1, key)
  {
  }

  lemma InsertingDone(s: seq<Scored>, i: nat, j: nat, key: Scored)
    requires Inserting(s, i, j, key) && (j == 0 || s[j - 1].score >= key.score)
    ensures Ranked(s[..i + 1])
    ensures forall k :: 0 <= k < i + 1 ==> s[k].index < i + 1
  {
    forall p, q | 0 <= p < q <= i
      ensures RanksBefore(s[p], s[q])
    {
      if q == j {
        assert RanksBefore(s[j - 1], key);
        if p < j - 1 {
          assert RanksBefore(s[p], s[j - 1]);
        }
      }
    }
  }

  lemma SwapKeepsMultiset(s: seq<Scored>, j: nat)
    requires 0 < j < |s|
    ensures multiset(s[j - 1 := s[j]][j := s[j - 1]]) == multiset(s)
  {
  }

  /** Moves `a[i]` left past the records with a lower score. */
  method InsertLast(a: array<Scored>, i: nat)
    requires i < a.Length && a[i].index == i
    requires Ranked(a[..i]) && forall k :: 0 <= k < i ==> a[k].index < i
    modifies a
    ensures multiset(a[..]) == multiset(old(a[..]))
    ensures a[i + 1..] == old(a[i + 1..])
    ensures Ranked(a[..i + 1])
    ensures forall k :: 0 <= k < i + 1 ==> a[k].index < i + 1
  {
    var j: nat := i;
    ghost var key := a[i];
    while j > 0 && a[j - 1].score < a[j].score
      invariant Inserting(a[..], i, j, key)
      invariant multiset(a[..]) == multiset(old(a[..]))
      invariant a[i + 1..] == old(a[i + 1..])
    {
      ghost var before := a[..];
      InsertingStep(before, i, j, key);
      SwapKeepsMultiset(before, j);
      a[j - 1], a[j] := a[j], a[j - 1];
      assert a[..] == before[j - 1 := key][j := before[j - 1]];
      assert a[i + 1..] == before[i + 1..];
      j := j - 1;
    }
    InsertingDone(a[..], i, j, key);
  }
}
