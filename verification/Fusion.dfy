/**
  Reciprocal-rank fusion of agentic_rag/math_retriever.py: ranked lists of document ids are summed
  into one score per document, and the best of them are kept. Scores are exact rationals.
 */
module Fusion {
  import opened Collections

  type Ranking = seq<string>
  type Scores = map<string, real>

  /** The share of the document at a 0-based position (rank is position + 1). */
  function Share(k: nat, position: nat): real {
    1.0 / (k + position + 1) as real
  }

  // ---- The score of one document, without any table

  /** What a ranking gives to a document; a document listed twice gets both shares. */
  function Given(ranking: Ranking, k: nat, doc: string): real {
    if ranking == [] then 0.0
    else
      var n := |ranking| - 1;
      Given(ranking[..n], k, doc) + if ranking[n] == doc then Share(k, n) else 0.0
  }

  function Score(rankings: seq<Ranking>, k: nat, doc: string): real {
    if rankings == [] then 0.0
    else
      var n := |rankings| - 1;
      Score(rankings[..n], k, doc) + Given(rankings[n], k, doc)
  }

  predicate Listed(rankings: seq<Ranking>, doc: string) {
    exists r <- rankings :: doc in r
  }

  ghost predicate IsFused(scores: Scores, rankings: seq<Ranking>, k: nat) {
    && (forall doc :: doc in scores <==> Listed(rankings, doc))
    && (forall doc <- scores :: scores[doc] == Score(rankings, k, doc))
  }

  /** Half way through the last ranking. */
  ghost predicate IsPartial(scores: Scores, done: seq<Ranking>, part: Ranking, k: nat) {
    && (forall doc :: doc in scores <==> Listed(done, doc) || doc in part)
    && (forall doc :: Score(done, k, doc) + Given(part, k, doc) == if doc in scores then scores[doc] else 0.0)
  }

  lemma {:induction false} UnrankedGetsNothing(ranking: Ranking, k: nat, doc: string)
    requires doc !in ranking
    ensures Given(ranking, k, doc) == 0.0
    decreases |ranking|
  {
    if ranking == [] {
    } else {
      UnrankedGetsNothing(ranking[..|ranking| - 1], k, doc);
    }
  }

  lemma {:induction false} UnlistedGetsNothing(rankings: seq<Ranking>, k: nat, doc: string)
    requires !Listed(rankings, doc)
    ensures Score(rankings, k, doc) == 0.0
    decreases |rankings|
  {
    if rankings == [] {
    } else {
      var n := |rankings| - 1;
      UnlistedGetsNothing(rankings[..n], k, doc);
      UnrankedGetsNothing(rankings[n], k, doc);
    }
  }

  lemma NothingYet(k: nat)
    ensures IsPartial(map[], [], [], k)
  {
  }

  lemma AllRead(scores: Scores, rankings: seq<Ranking>, k: nat)
    requires IsPartial(scores, rankings, [], k)
    ensures IsFused(scores, rankings, k)
  {
    assert forall doc :: Given([], k, doc) == 0.0;
  }

  lemma NextPosition(scores: Scores, done: seq<Ranking>, ranking: Ranking, j: nat, k: nat)
    requires j < |ranking| && IsPartial(scores, done, ranking[..j], k)
    ensures var doc := ranking[j];
            IsPartial(scores[doc := (if doc in scores then scores[doc] else 0.0) + Share(k, j)], done,
                      ranking[..j + 1], k)
  {
    hide Share, Score, Listed;
    assert ranking[..j + 1] == ranking[..j] + [ranking[j]];
    assert ranking[..j + 1][..j] == ranking[..j];
  }

  lemma NextRanking(scores: Scores, done: seq<Ranking>, ranking: Ranking, k: nat)
    requires IsPartial(scores, done, ranking, k)
    ensures IsPartial(scores, done + [ranking], [], k)
  {
    var all := done + [ranking];
    assert all[..|done|] == done;
    forall doc ensures Listed(all, doc) <==> Listed(done, doc) || doc in ranking {
      assert ranking in all;
      assert forall r <- done :: r in all;
    }
  }

  /** fuse_rankings */
  method FuseRankings(rankings: seq<Ranking>, k: nat) returns (scores: Scores)
    ensures IsFused(scores, rankings, k)
  {
    hide Score, Given, Listed, IsPartial, Share;
    scores := map[];
    NothingYet(k);
    for i := 0 to |rankings|
      invariant IsPartial(scores, rankings[..i], [], k)
    {
      var ranking := rankings[i];
      assert ranking[..0] == [];
      for j := 0 to |ranking|
        invariant IsPartial(scores, rankings[..i], ranking[..j], k)
      {
        var doc := ranking[j];
        NextPosition(scores, rankings[..i], ranking, j, k);
        scores := scores[doc := (if doc in scores then scores[doc] else 0.0) + Share(k, j)];
      }
      assert ranking[..|ranking|] == ranking;
      NextRanking(scores, rankings[..i], ranking, k);
      assert rankings[..i + 1] == rankings[..i] + [ranking];
    }
    assert rankings[..|rankings|] == rankings;
    AllRead(scores, rankings, k);
  }

  /**
    The score, position by position: a document listed one place further down in the last ranking gains the
    reciprocal of k plus its rank, every other document nothing; and without listings there is no score.
   */
  lemma EachPositionAdds(rankings: seq<Ranking>, ranking: Ranking, x: string, k: nat, doc: string)
    ensures Score([], k, doc) == 0.0 && Score(rankings + [[]], k, doc) == Score(rankings, k, doc)
    ensures Score(rankings + [ranking + [x]], k, doc)
            == Score(rankings + [ranking], k, doc) + if x == doc then 1.0 / (k + |ranking| + 1) as real else 0.0
  {
    var longer := ranking + [x];
    assert longer[..|ranking|] == ranking;
    assert (rankings + [[]])[..|rankings|] == rankings;
    assert (rankings + [longer])[..|rankings|] == rankings;
    assert (rankings + [ranking])[..|rankings|] == rankings;
  }

  // ---- The order of the rankings does not matter

  lemma {:induction false} ScoreOfSplit(rankings: seq<Ranking>, k: nat, doc: string, i: nat)
    requires i < |rankings|
    ensures Score(rankings, k, doc) == Score(rankings[..i] + rankings[i + 1..], k, doc) + Given(rankings[i], k, doc)
    decreases |rankings|
  {
    var n := |rankings| - 1;
    var without := rankings[..i] + rankings[i + 1..];
    if i == n {
      assert without == rankings[..n];
    } else {
      var init := rankings[..n];
      ScoreOfSplit(init, k, doc, i);
      assert init[..i] + init[i + 1..] == without[..n - 1];
      assert without[n - 1] == rankings[n];
    }
  }

  lemma WithoutOne(rankings: seq<Ranking>, i: nat)
    requires i < |rankings|
    ensures multiset(rankings[..i] + rankings[i + 1..]) == multiset(rankings) - multiset{rankings[i]}
  {
    assert rankings == rankings[..i] + [rankings[i]] + rankings[i + 1..];
  }

  lemma SameButOne(one: seq<Ranking>, other: seq<Ranking>) returns (i: nat)
    requires one != [] && multiset(one) == multiset(other)
    ensures i < |other| && other[i] == one[|one| - 1]
    ensures multiset(one[..|one| - 1]) == multiset(other[..i] + other[i + 1..])
  {
    var n := |one| - 1;
    assert one[n] in multiset(one);
    assert one[n] in other;
    i :| 0 <= i < |other| && other[i] == one[n];
    WithoutOne(one, n);
    WithoutOne(other, i);
    assert one[..n] + one[n + 1..] == one[..n];
  }

  /** The same rankings in any order give the same table. */
  lemma {:induction false} OrderDoesNotMatter(one: seq<Ranking>, other: seq<Ranking>, k: nat, doc: string)
    requires multiset(one) == multiset(other)
    ensures Score(one, k, doc) == Score(other, k, doc)
    decreases |one|
  {
    hide Given;
    if one == [] {
      assert |multiset(other)| == 0;
      assert other == [];
    } else {
      var i := SameButOne(one, other);
      OrderDoesNotMatter(one[..|one| - 1], other[..i] + other[i + 1..], k, doc);
      ScoreOfSplit(other, k, doc, i);
    }
  }

  lemma TableIgnoresOrder(one: seq<Ranking>, other: seq<Ranking>, k: nat, scores: Scores, scores': Scores)
    requires multiset(one) == multiset(other)
    requires IsFused(scores, one, k) && IsFused(scores', other, k)
    ensures scores == scores'
  {
    hide Score;
    assert forall r :: r in one <==> r in multiset(one);
    assert forall r :: r in other <==> r in multiset(other);
    forall doc ensures doc in scores <==> doc in scores' {
      assert Listed(one, doc) <==> Listed(other, doc);
    }
    forall doc <- scores ensures scores[doc] == scores'[doc] {
      OrderDoesNotMatter(one, other, k, doc);
    }
  }

  // ---- Total mass

  function Sum(scores: Scores, docs: seq<string>): real
    requires forall doc <- docs :: doc in scores
  {
    if docs == [] then 0.0 else scores[docs[0]] + Sum(scores, docs[1..])
  }

  function Mass(k: nat, length: nat): real {
    if length == 0 then 0.0 else Mass(k, length - 1) + Share(k, length - 1)
  }

  function TotalMass(rankings: seq<Ranking>, k: nat): real {
    if rankings == [] then 0.0
    else TotalMass(rankings[..|rankings| - 1], k) + Mass(k, |rankings[|rankings| - 1]|)
  }

  function ScoreSum(rankings: seq<Ranking>, k: nat, docs: seq<string>): real {
    if docs == [] then 0.0 else Score(rankings, k, docs[0]) + ScoreSum(rankings, k, docs[1..])
  }

  function GivenSum(ranking: Ranking, k: nat, docs: seq<string>): real {
    if docs == [] then 0.0 else Given(ranking, k, docs[0]) + GivenSum(ranking, k, docs[1..])
  }

  lemma {:induction false} ScoreSumSplits(rankings: seq<Ranking>, k: nat, docs: seq<string>)
    requires rankings != []
    ensures var n := |rankings| - 1;
            ScoreSum(rankings, k, docs) == ScoreSum(rankings[..n], k, docs) + GivenSum(rankings[n], k, docs)
    decreases |docs|
  {
    if docs == [] {
    } else {
      ScoreSumSplits(rankings, k, docs[1..]);
    }
  }

  /** One occurrence adds its share to exactly one of the distinct documents. */
  lemma {:induction false} GivenSumSplits(ranking: Ranking, k: nat, docs: seq<string>)
    requires ranking != [] && Distinct(docs)
    ensures var n := |ranking| - 1;
            GivenSum(ranking, k, docs)
            == GivenSum(ranking[..n], k, docs) + if ranking[n] in docs then Share(k, n) else 0.0
    decreases |docs|
  {
    if docs == [] {
    } else {
      GivenSumSplits(ranking, k, docs[1..]);
      assert docs == [docs[0]] + docs[1..];
    }
  }

  lemma {:induction false} NothingGiven(k: nat, docs: seq<string>)
    ensures GivenSum([], k, docs) == 0.0 && ScoreSum([], k, docs) == 0.0
    decreases |docs|
  {
    if docs == [] {
    } else {
      NothingGiven(k, docs[1..]);
    }
  }

  lemma {:induction false} RankingMass(ranking: Ranking, k: nat, docs: seq<string>)
    requires Distinct(docs) && forall doc <- ranking :: doc in docs
    ensures GivenSum(ranking, k, docs) == Mass(k, |ranking|)
    decreases |ranking|
  {
    if ranking == [] {
      NothingGiven(k, docs);
    } else {
      RankingMass(ranking[..|ranking| - 1], k, docs);
      GivenSumSplits(ranking, k, docs);
    }
  }

  lemma {:induction false} ScoreMass(rankings: seq<Ranking>, k: nat, docs: seq<string>)
    requires Distinct(docs) && forall doc :: Listed(rankings, doc) ==> doc in docs
    ensures ScoreSum(rankings, k, docs) == TotalMass(rankings, k)
    decreases |rankings|
  {
    if rankings == [] {
      NothingGiven(k, docs);
    } else {
      var n := |rankings| - 1;
      assert forall doc | doc in rankings[n] :: Listed(rankings, doc);
      assert forall doc | Listed(rankings[..n], doc) :: Listed(rankings, doc);
      ScoreMass(rankings[..n], k, docs);
      RankingMass(rankings[n], k, docs);
      ScoreSumSplits(rankings, k, docs);
    }
  }

  lemma FusedAt(scores: Scores, rankings: seq<Ranking>, k: nat, doc: string)
    requires IsFused(scores, rankings, k)
    ensures doc in scores <==> Listed(rankings, doc)
    ensures doc in scores ==> scores[doc] == Score(rankings, k, doc)
  {
  }

  lemma {:induction false} SumIsScoreSum(scores: Scores, rankings: seq<Ranking>, k: nat, docs: seq<string>)
    requires IsFused(scores, rankings, k) && forall doc <- docs :: doc in scores
    ensures Sum(scores, docs) == ScoreSum(rankings, k, docs)
    decreases |docs|
  {
    hide IsFused;
    if docs == [] {
    } else {
      assert scores[docs[0]] == Score(rankings, k, docs[0]) by { FusedAt(scores, rankings, k, docs[0]); }
      SumIsScoreSum(scores, rankings, k, docs[1..]);
    }
  }

  /** Nothing is lost: however the table is enumerated, its values add up to the shares of all positions. */
  lemma TotalMassIsShared(scores: Scores, rankings: seq<Ranking>, k: nat, docs: seq<string>)
    requires IsFused(scores, rankings, k)
    requires Distinct(docs) && forall doc :: doc in docs <==> doc in scores
    ensures Sum(scores, docs) == TotalMass(rankings, k)
  {
    SumIsScoreSum(scores, rankings, k, docs);
    ScoreMass(rankings, k, docs);
  }

  // ---- Dominance

  predicate Precedes(ranking: Ranking, a: string, b: string) {
    exists i, j :: 0 <= i < j < |ranking| && ranking[i] == a && ranking[j] == b
  }

  lemma {:induction false} GivenAt(ranking: Ranking, k: nat, i: nat)
    requires Distinct(ranking) && i < |ranking|
    ensures Given(ranking, k, ranking[i]) == Share(k, i)
    decreases |ranking|
  {
    var n := |ranking| - 1;
    if i == n {
      UnrankedGetsNothing(ranking[..n], k, ranking[n]);
    } else {
      GivenAt(ranking[..n], k, i);
    }
  }

  lemma ShareFalls(k: nat, i: nat, j: nat)
    requires i < j
    ensures Share(k, i) > Share(k, j) > 0.0
  {
    var x, y := (k + i + 1) as real, (k + j + 1) as real;
    assert 0.0 < x < y;
    assert 1.0 / x - 1.0 / y == (y - x) / (x * y);
  }

  lemma ShareIsPositive(k: nat, i: nat)
    ensures Share(k, i) > 0.0
  {
  }

  lemma DominatesInOne(ranking: Ranking, k: nat, a: string, b: string)
    requires Distinct(ranking) && (b in ranking ==> Precedes(ranking, a, b))
    ensures Given(ranking, k, a) >= Given(ranking, k, b)
    ensures b in ranking ==> Given(ranking, k, a) > Given(ranking, k, b)
  {
    if b in ranking {
      var i, j :| 0 <= i < j < |ranking| && ranking[i] == a && ranking[j] == b;
      GivenAt(ranking, k, i);
      GivenAt(ranking, k, j);
      ShareFalls(k, i, j);
    } else {
      UnrankedGetsNothing(ranking, k, b);
      if a in ranking {
        var i :| 0 <= i < |ranking| && ranking[i] == a;
        GivenAt(ranking, k, i);
        ShareIsPositive(k, i);
      } else {
        UnrankedGetsNothing(ranking, k, a);
      }
    }
  }

  /** a stands before b wherever b is listed, and b is listed somewhere. */
  ghost predicate Dominates(rankings: seq<Ranking>, a: string, b: string) {
    Listed(rankings, b) && forall r <- rankings | b in r :: Precedes(r, a, b)
  }

  lemma {:induction false} DominantScoresHigher(rankings: seq<Ranking>, k: nat, a: string, b: string)
    requires forall r <- rankings :: Distinct(r)
    requires forall r <- rankings | b in r :: Precedes(r, a, b)
    ensures Score(rankings, k, a) >= Score(rankings, k, b)
    ensures Listed(rankings, b) ==> Score(rankings, k, a) > Score(rankings, k, b)
    decreases |rankings|
  {
    if rankings == [] {
    } else {
      var n := |rankings| - 1;
      DominantScoresHigher(rankings[..n], k, a, b);
      DominatesInOne(rankings[n], k, a, b);
      assert rankings == rankings[..n] + [rankings[n]];
    }
  }

  // ---- The cut

  /** Any order the stable sort may give: the table's documents, each once, by falling score. */
  ghost predicate IsOrdered(ordered: seq<string>, scores: Scores) {
    && Distinct(ordered)
    && (forall doc :: doc in ordered <==> doc in scores)
    && (forall i, j | 0 <= i < j < |ordered| && ordered[i] in scores && ordered[j] in scores ::
          scores[ordered[i]] >= scores[ordered[j]])
  }

  function Cut(ordered: seq<string>, candidates: nat): seq<string> {
    if |ordered| <= candidates then ordered else ordered[..candidates]
  }

  /** The best are kept, in their order: as many as asked for, or all. */
  lemma CutKeepsTheBest(ordered: seq<string>, candidates: nat)
    ensures Cut(ordered, candidates) <= ordered
    ensures |Cut(ordered, candidates)| == if |ordered| < candidates then |ordered| else candidates
  {
  }

  /** However many candidates are kept, a dominated document is never kept without the one that dominates it. */
  lemma CutRespectsDominance(scores: Scores, rankings: seq<Ranking>, k: nat, ordered: seq<string>, candidates: nat,
                             a: string, b: string)
    requires IsFused(scores, rankings, k) && IsOrdered(ordered, scores)
    requires (forall r <- rankings :: Distinct(r)) && Dominates(rankings, a, b)
    ensures b in Cut(ordered, candidates) ==>
              exists i, j :: 0 <= i < j < |Cut(ordered, candidates)|
                             && Cut(ordered, candidates)[i] == a && Cut(ordered, candidates)[j] == b
  {
    var cut := Cut(ordered, candidates);
    if b in cut {
      var j :| 0 <= j < |cut| && cut[j] == b;
      DominantScoresHigher(rankings, k, a, b);
      var r :| r in rankings && b in r;
      assert Precedes(r, a, b);
      assert a in r && Listed(rankings, a);
      FusedAt(scores, rankings, k, a);
      FusedAt(scores, rankings, k, b);
      var i :| 0 <= i < |ordered| && ordered[i] == a;
      assert ordered[j] == b;
      assert i < j;
      assert cut[i] == a;
    }
  }
}
