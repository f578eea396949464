/** Reciprocal rank fusion of the dense and the full-text ranking, and the expansion of children to parents. */
module Fusion {
  import opened Common

  /** An evidence block; `text` stands for the columns that only travel along. */
  datatype Block = Block(id: string, chunkId: string, text: string, score: real, rerankScore: real)

  const RRF_K: nat := 60

  function Share(rank: nat): real {
    1.0 / (RRF_K + rank + 1) as real
  }

  const MAX_RRF: real := 2.0 / (RRF_K + 1) as real

  lemma ShareFacts(i: nat, j: nat)
    ensures Share(i) > 0.0
    ensures i < j ==> Share(i) > Share(j)
    ensures MAX_RRF == 2.0 * Share(0) && MAX_RRF > 0.0
  {
    if i < j {
      var x, y := (RRF_K + i + 1) as real, (RRF_K + j + 1) as real;
      assert 0.0 < x < y;
      Reciprocal(x, y);
    }
  }

  lemma Reciprocal(x: real, y: real)
    requires 0.0 < x < y
    ensures 1.0 / x > 1.0 / y
  {
    assert 1.0 / x - 1.0 / y == (y - x) / (x * y);
  }

  // ---------- scores ----------

  /** What a list adds to the score of an id. */
  function Contribution(list: seq<Block>, id: string): real {
    if list == [] then 0.0
    else Contribution(list[..|list| - 1], id) + (if list[|list| - 1].id == id then Share(|list| - 1) else 0.0)
  }

  function Score(a: seq<Block>, b: seq<Block>, id: string): real {
    Contribution(a, id) + Contribution(b, id)
  }

  predicate Lists(list: seq<Block>, id: string) {
    exists k :: 0 <= k < |list| && list[k].id == id
  }

  predicate UniqueIds(list: seq<Block>) {
    forall i, j :: 0 <= i < j < |list| ==> list[i].id != list[j].id
  }

  lemma {:induction false} NoContribution(list: seq<Block>, id: string)
    requires !Lists(list, id)
    ensures Contribution(list, id) == 0.0
  {
    if list != [] {
      assert !Lists(list[..|list| - 1], id);
      NoContribution(list[..|list| - 1], id);
    }
  }

  /** With unique ids a list adds the share of the one place where the id stands. */
  lemma {:induction false} ContributionAt(list: seq<Block>, k: nat)
    requires UniqueIds(list) && k < |list|
    ensures Contribution(list, list[k].id) == Share(k)
  {
    var last := |list| - 1;
    if k == last {
      NoContribution(list[..last], list[k].id);
    } else {
      ContributionAt(list[..last], k);
    }
  }

  lemma {:induction false} ContributionBounds(list: seq<Block>, id: string)
    ensures Contribution(list, id) >= 0.0
    ensures Lists(list, id) ==> Contribution(list, id) > 0.0
    ensures UniqueIds(list) ==> Contribution(list, id) <= Share(0)
    ensures UniqueIds(list) ==> (Contribution(list, id) == Share(0) <==> |list| > 0 && list[0].id == id)
  {
    ShareFacts(0, 0);
    if list != [] {
      var last := |list| - 1;
      ContributionBounds(list[..last], id);
      ShareFacts(0, last);
      ShareFacts(last, last);
      if UniqueIds(list) {
        if Lists(list, id) {
          var k :| 0 <= k < |list| && list[k].id == id;
          ContributionAt(list, k);
          ShareFacts(0, k);
        } else {
          NoContribution(list, id);
        }
      }
    }
  }

  // ---------- ranking a map of scores ----------

  datatype Scored = Scored(id: string, score: real)

  predicate Before(x: Scored, y: Scored) {
    x.score > y.score || (x.score == y.score && StrLe(x.id, y.id))
  }

  lemma BeforeIsTotalOrder()
    ensures TotalPreorder(Before)
    ensures forall x, y :: Before(x, y) && Before(y, x) ==> x == y
  {
    StrLeIsTotalOrder();
  }

  ghost predicate Entries(scores: map<string, real>, ranked: seq<Scored>) {
    && (forall i, j :: 0 <= i < j < |ranked| ==> ranked[i].id != ranked[j].id)
    && (forall x :: x in ranked <==> x.id in scores && scores[x.id] == x.score)
  }

  ghost predicate IsRanking(scores: map<string, real>, ranked: seq<Scored>) {
    Entries(scores, ranked) && SortedBy(Before, ranked)
  }

  lemma EntriesSameMultiset(scores: map<string, real>, xs: seq<Scored>, ys: seq<Scored>)
    requires Entries(scores, xs) && Entries(scores, ys)
    ensures multiset(xs) == multiset(ys)
  {
    DistinctMeansOnce(xs);
    DistinctMeansOnce(ys);
    forall x ensures multiset(xs)[x] == multiset(ys)[x] {
      assert x in multiset(xs) <==> x in xs;
      assert x in multiset(ys) <==> x in ys;
    }
  }

  /** The order in which Go walks the map cannot be seen: there is one ranking. */
  lemma RankingUnique(scores: map<string, real>, xs: seq<Scored>, ys: seq<Scored>)
    requires IsRanking(scores, xs) && IsRanking(scores, ys)
    ensures xs == ys
  {
    BeforeIsTotalOrder();
    EntriesSameMultiset(scores, xs, ys);
    SortedUnique(Before, xs, ys);
  }

  method RankScores(scores: map<string, real>) returns (ranked: seq<Scored>)
    ensures IsRanking(scores, ranked)
  {
    var rest := scores.Keys;
    var found: seq<Scored> := [];
    while rest != {}
      invariant rest <= scores.Keys
      invariant forall i, j :: 0 <= i < j < |found| ==> found[i].id != found[j].id
      invariant forall x :: x in found <==> x.id in scores && x.id !in rest && scores[x.id] == x.score
      decreases |rest|
    {
      var id :| id in rest;
      found := found + [Scored(id, scores[id])];
      rest := rest - {id};
    }
    ranked := SortBy(Before, found);
    BeforeIsTotalOrder();
    SortBySorts(Before, found);
    DistinctIdsMove(found, ranked);
    forall x ensures x in ranked <==> x in found {
      assert x in ranked <==> x in multiset(ranked);
      assert x in found <==> x in multiset(found);
    }
  }

  lemma DistinctIdsMove(xs: seq<Scored>, ys: seq<Scored>)
    requires multiset(xs) == multiset(ys)
    requires forall i, j :: 0 <= i < j < |xs| ==> xs[i].id != xs[j].id
    ensures forall i, j :: 0 <= i < j < |ys| ==> ys[i].id != ys[j].id
  {
    DistinctFromMultiset(xs, ys);
    forall i, j | 0 <= i < j < |ys| ensures ys[i].id != ys[j].id {
      assert ys[i] in multiset(xs) && ys[j] in multiset(xs);
      var a :| 0 <= a < |xs| && xs[a] == ys[i];
      var b :| 0 <= b < |xs| && xs[b] == ys[j];
      assert a != b;
    }
  }

  // ---------- the fusion ----------

  ghost predicate LastIn(list: seq<Block>, id: string, block: Block) {
    exists k :: 0 <= k < |list| && list[k] == block && block.id == id && forall j :: k < j < |list| ==> list[j].id != id
  }

  ghost predicate FirstIn(list: seq<Block>, id: string, block: Block) {
    exists k :: 0 <= k < |list| && list[k] == block && block.id == id && forall j :: 0 <= j < k ==> list[j].id != id
  }

  /** The block shown for an id: the last one of A, else the first one of B. */
  ghost predicate BlockFor(a: seq<Block>, b: seq<Block>, id: string, block: Block) {
    if Lists(a, id) then LastIn(a, id, block) else FirstIn(b, id, block)
  }

  ghost predicate ScoresOf(a: seq<Block>, b: seq<Block>, scores: map<string, real>) {
    && (forall id :: id in scores <==> Lists(a, id) || Lists(b, id))
    && (forall id :: id in scores ==> scores[id] == Score(a, b, id))
  }

  ghost predicate Fused(a: seq<Block>, b: seq<Block>, topK: nat, ranked: seq<Scored>, result: seq<Block>) {
    && (exists scores :: ScoresOf(a, b, scores) && IsRanking(scores, ranked))
    && |result| == (if |ranked| > topK then topK else |ranked|)
    && forall i :: 0 <= i < |result| ==> FusedRow(a, b, ranked[i], result[i])
  }

  ghost predicate FusedRow(a: seq<Block>, b: seq<Block>, x: Scored, row: Block) {
    exists block :: BlockFor(a, b, x.id, block) && row == RowOf(x, block)
  }

  /** The block as it is returned, with the normalized and the raw score. */
  function RowOf(x: Scored, block: Block): Block {
    block.(score := Clamp(x.score / MAX_RRF), rerankScore := x.score)
  }

  function Clamp(x: real): real { if x > 1.0 then 1.0 else x }

  lemma ListsSnoc(list: seq<Block>, k: nat, id: string)
    requires k < |list|
    ensures Lists(list[..k + 1], id) <==> Lists(list[..k], id) || list[k].id == id
    ensures Contribution(list[..k + 1], id) == Contribution(list[..k], id)
              + (if list[k].id == id then Share(k) else 0.0)
  {
    assert list[..k + 1][..k] == list[..k];
    assert list[..k + 1] == list[..k] + [list[k]];
    if list[k].id == id {
      assert list[..k + 1][k].id == id;
    }
    if Lists(list[..k], id) {
      var j :| 0 <= j < k && list[..k][j].id == id;
      assert list[..k + 1][j].id == id;
    }
    if Lists(list[..k + 1], id) && list[k].id != id {
      var j :| 0 <= j < k + 1 && list[..k + 1][j].id == id;
      assert list[..k][j].id == id;
    }
  }

  method AddList(list: seq<Block>, scores0: map<string, real>) returns (scores: map<string, real>)
    ensures forall id :: id in scores <==> id in scores0 || Lists(list, id)
    ensures forall id :: id in scores ==>
              scores[id] == (if id in scores0 then scores0[id] else 0.0) + Contribution(list, id)
  {
    scores := scores0;
    for rank := 0 to |list|
      invariant forall id :: id in scores <==> id in scores0 || Lists(list[..rank], id)
      invariant forall id :: id in scores ==>
                  scores[id] == (if id in scores0 then scores0[id] else 0.0) + Contribution(list[..rank], id)
    {
      forall id ensures Lists(list[..rank + 1], id) <==> Lists(list[..rank], id) || list[rank].id == id {
        ListsSnoc(list, rank, id);
      }
      forall id ensures Contribution(list[..rank + 1], id)
                     == Contribution(list[..rank], id) + (if list[rank].id == id then Share(rank) else 0.0) {
        ListsSnoc(list, rank, id);
      }
      var id := list[rank].id;
      if id !in scores {
        NoContribution(list[..rank], id);
      }
      scores := scores[id := (if id in scores then scores[id] else 0.0) + Share(rank)];
    }
    assert list[..|list|] == list;
  }

  lemma LastSnoc(list: seq<Block>, k: nat, id: string, block: Block)
    requires k < |list|
    ensures LastIn(list[..k], id, block) && list[k].id != id ==> LastIn(list[..k + 1], id, block)
    ensures list[k].id == id ==> LastIn(list[..k + 1], id, list[k])
  {
    var s, t := list[..k], list[..k + 1];
    assert t == s + [list[k]];
    if LastIn(s, id, block) && list[k].id != id {
      var i :| 0 <= i < |s| && s[i] == block && block.id == id && forall j :: i < j < |s| ==> s[j].id != id;
      assert t[i] == block;
    }
    assert t[k] == list[k];
  }

  lemma FirstSnoc(list: seq<Block>, k: nat, id: string, block: Block)
    requires k < |list|
    ensures FirstIn(list[..k], id, block) ==> FirstIn(list[..k + 1], id, block)
    ensures list[k].id == id && !Lists(list[..k], id) ==> FirstIn(list[..k + 1], id, list[k])
  {
    var s, t := list[..k], list[..k + 1];
    assert t == s + [list[k]];
    if FirstIn(s, id, block) {
      var i :| 0 <= i < |s| && s[i] == block && block.id == id && forall j :: 0 <= j < i ==> s[j].id != id;
      assert t[i] == block;
    }
    if list[k].id == id && !Lists(s, id) {
      assert forall j :: 0 <= j < k ==> s[j].id != id;
      assert t[k].id == id;
    }
  }

  method LastBlocks(a: seq<Block>) returns (m: map<string, Block>)
    ensures forall id :: id in m <==> Lists(a, id)
    ensures forall id :: id in m ==> LastIn(a, id, m[id])
  {
    hide LastIn, Lists;
    m := map[];
    NothingListed(a);
    for k := 0 to |a|
      invariant forall id :: id in m <==> Lists(a[..k], id)
      invariant forall id :: id in m ==> LastIn(a[..k], id, m[id])
    {
      ghost var before := m;
      m := m[a[k].id := a[k]];
      forall id ensures id in m <==> Lists(a[..k + 1], id) {
        ListsSnoc(a, k, id);
      }
      forall id | id in m ensures LastIn(a[..k + 1], id, m[id]) {
        LastSnoc(a, k, id, if id in before then before[id] else a[k]);
      }
    }
    assert a[..|a|] == a;
  }

  lemma NothingListed(list: seq<Block>)
    ensures forall id :: !Lists(list[..0], id)
  {
  }

  method BlocksById(a: seq<Block>, b: seq<Block>) returns (m: map<string, Block>)
    ensures forall id :: id in m <==> Lists(a, id) || Lists(b, id)
    ensures forall id :: id in m ==> BlockFor(a, b, id, m[id])
  {
    hide LastIn, FirstIn, Lists;
    m := LastBlocks(a);
    NothingListed(b);
    for k := 0 to |b|
      invariant forall id :: id in m <==> Lists(a, id) || Lists(b[..k], id)
      invariant forall id :: id in m ==> if Lists(a, id) then LastIn(a, id, m[id]) else FirstIn(b[..k], id, m[id])
    {
      ghost var before := m;
      if b[k].id !in m {
        m := m[b[k].id := b[k]];
      }
      forall id ensures id in m <==> Lists(a, id) || Lists(b[..k + 1], id) {
        ListsSnoc(b, k, id);
      }
      forall id | id in m && !Lists(a, id) ensures FirstIn(b[..k + 1], id, m[id]) {
        FirstSnoc(b, k, id, if id in before then before[id] else b[k]);
      }
    }
    assert b[..|b|] == b;
  }

  method ReciprocalRankFusion(a: seq<Block>, b: seq<Block>, topK: nat) returns (result: seq<Block>)
    ensures exists ranked :: Fused(a, b, topK, ranked, result)
  {
    hide BlockFor, Lists, Contribution, Entries, Clamp;
    var scoresA := AddList(a, map[]);
    var scores := AddList(b, scoresA);
    forall id | id in scores ensures scores[id] == Score(a, b, id) {
      if id !in scoresA {
        NoContribution(a, id);
      }
    }
    assert ScoresOf(a, b, scores);
    var blockById := BlocksById(a, b);
    var rows := RankScores(scores);
    ghost var ranked := rows;
    EntryIds(scores, rows);
    if |rows| > topK {
      rows := rows[..topK];
    }
    result := [];
    for i := 0 to |rows|
      invariant |result| == i
      invariant forall j :: 0 <= j < i ==> FusedRow(a, b, ranked[j], result[j])
    {
      var r := rows[i];
      assert r == ranked[i] && r.id in scores;
      var normalized := r.score / MAX_RRF;
      assert BlockFor(a, b, r.id, blockById[r.id]);
      assert blockById[r.id].(score := Clamp(normalized), rerankScore := r.score) == RowOf(r, blockById[r.id]);
      result := result + [blockById[r.id].(score := Clamp(normalized), rerankScore := r.score)];
    }
    assert IsRanking(scores, ranked);
    assert |result| == if |ranked| > topK then topK else |ranked|;
    assert Fused(a, b, topK, ranked, result);
  }

  lemma EntryIds(scores: map<string, real>, ranked: seq<Scored>)
    requires Entries(scores, ranked)
    ensures forall i :: 0 <= i < |ranked| ==> ranked[i].id in scores && scores[ranked[i].id] == ranked[i].score
  {
    forall i | 0 <= i < |ranked| ensures ranked[i].id in scores && scores[ranked[i].id] == ranked[i].score {
      assert ranked[i] in ranked;
    }
  }

  // ---------- what the fusion guarantees ----------

  lemma FusedEntry(a: seq<Block>, b: seq<Block>, topK: nat, ranked: seq<Scored>, result: seq<Block>, i: nat)
    requires Fused(a, b, topK, ranked, result) && i < |ranked|
    ensures Lists(a, ranked[i].id) || Lists(b, ranked[i].id)
    ensures ranked[i].score == Score(a, b, ranked[i].id)
    ensures i < |result| ==> result[i].id == ranked[i].id && result[i].rerankScore == ranked[i].score
                             && result[i].score == Clamp(ranked[i].score / MAX_RRF)
  {
    var scores :| ScoresOf(a, b, scores) && IsRanking(scores, ranked);
    EntryIds(scores, ranked);
  }

  /** In numbers: place p of one list is worth 1 / (61 + p), the two lists add up, and what is shown is the block of the
      first list if that holds the id, else of the second. */
  lemma FusedShares(a: seq<Block>, b: seq<Block>, topK: nat, ranked: seq<Scored>, result: seq<Block>, i: nat)
    requires Fused(a, b, topK, ranked, result) && UniqueIds(a) && UniqueIds(b) && i < |result|
    ensures var (id, total) := (result[i].id, result[i].rerankScore);
            && (forall p: nat, q: nat :: p < |a| && q < |b| && a[p].id == id && b[q].id == id ==>
                  total == 1.0 / ((61 + p) as real) + 1.0 / ((61 + q) as real))
            && (forall p: nat :: p < |a| && a[p].id == id && !Lists(b, id) ==> total == 1.0 / ((61 + p) as real))
            && (forall q: nat :: q < |b| && b[q].id == id && !Lists(a, id) ==> total == 1.0 / ((61 + q) as real))
    ensures forall p: nat :: p < |a| && a[p].id == result[i].id ==>
              result[i] == a[p].(score := result[i].score, rerankScore := result[i].rerankScore)
    ensures forall q: nat :: q < |b| && b[q].id == result[i].id && !Lists(a, b[q].id) ==>
              result[i] == b[q].(score := result[i].score, rerankScore := result[i].rerankScore)
  {
    FusedEntry(a, b, topK, ranked, result, i);
    assert FusedRow(a, b, ranked[i], result[i]);
    hide Fused;
    SharesOf(a, result[i].id);
    SharesOf(b, result[i].id);
    hide Contribution, Share;
  }

  lemma SharesOf(list: seq<Block>, id: string)
    requires UniqueIds(list)
    ensures forall p: nat :: p < |list| && list[p].id == id ==> Contribution(list, id) == 1.0 / ((61 + p) as real)
    ensures !Lists(list, id) ==> Contribution(list, id) == 0.0
  {
    if Lists(list, id) {
      var p :| 0 <= p < |list| && list[p].id == id;
      ContributionAt(list, p);
    } else {
      NoContribution(list, id);
    }
  }

  lemma SameRanking(a: seq<Block>, b: seq<Block>, topK: nat, r1: seq<Scored>, x1: seq<Block>, r2: seq<Scored>,
                    x2: seq<Block>)
    requires Fused(a, b, topK, r1, x1) && Fused(a, b, topK, r2, x2)
    ensures r1 == r2 && |x1| == |x2|
  {
    var s1 :| ScoresOf(a, b, s1) && IsRanking(s1, r1);
    var s2 :| ScoresOf(a, b, s2) && IsRanking(s2, r2);
    assert s1.Keys == s2.Keys;
    assert s1 == s2;
    RankingUnique(s1, r1, r2);
  }

  /** An id has one block. */
  lemma BlockIsFixed(a: seq<Block>, b: seq<Block>, id: string, x: Block, y: Block)
    requires BlockFor(a, b, id, x) && BlockFor(a, b, id, y)
    ensures x == y
  {
    if Lists(a, id) {
      var i :| 0 <= i < |a| && a[i] == x && forall m :: i < m < |a| ==> a[m].id != id;
      var j :| 0 <= j < |a| && a[j] == y && forall m :: j < m < |a| ==> a[m].id != id;
      assert i == j;
    } else {
      var i :| 0 <= i < |b| && b[i] == x && forall m :: 0 <= m < i ==> b[m].id != id;
      var j :| 0 <= j < |b| && b[j] == y && forall m :: 0 <= m < j ==> b[m].id != id;
      assert i == j;
    }
  }

  lemma RowIsFixed(a: seq<Block>, b: seq<Block>, x: Scored, row1: Block, row2: Block)
    requires FusedRow(a, b, x, row1) && FusedRow(a, b, x, row2)
    ensures row1 == row2
  {
    hide RowOf;
    var y1 :| BlockFor(a, b, x.id, y1) && row1 == RowOf(x, y1);
    var y2 :| BlockFor(a, b, x.id, y2) && row2 == RowOf(x, y2);
    BlockIsFixed(a, b, x.id, y1, y2);
  }

  /** The result does not depend on the map order: it is a function of the two lists and the limit. */
  lemma FusionDeterministic(a: seq<Block>, b: seq<Block>, topK: nat, r1: seq<Scored>, x1: seq<Block>, r2: seq<Scored>,
                            x2: seq<Block>)
    requires Fused(a, b, topK, r1, x1) && Fused(a, b, topK, r2, x2)
    ensures r1 == r2 && x1 == x2
  {
    SameRanking(a, b, topK, r1, x1, r2, x2);
    hide IsRanking, ScoresOf, FusedRow;
    forall i | 0 <= i < |x1| ensures x1[i] == x2[i] {
      RowIsFixed(a, b, r1[i], x1[i], x2[i]);
    }
  }

  /** The result is the top of all listed ids under (score descending, id ascending), without repetitions. */
  lemma FusionIsTopK(a: seq<Block>, b: seq<Block>, topK: nat, ranked: seq<Scored>, result: seq<Block>, id: string)
    requires Fused(a, b, topK, ranked, result)
    ensures UniqueIds(result) && |result| <= topK
    ensures (Lists(a, id) || Lists(b, id)) && !Lists(result, id) ==>
              |result| == topK && forall i :: 0 <= i < |result| ==>
                  || result[i].rerankScore > Score(a, b, id)
                  || (result[i].rerankScore == Score(a, b, id) && StrLt(result[i].id, id))
    ensures forall i, j :: 0 <= i < j < |result| ==>
              || result[i].rerankScore > result[j].rerankScore
              || (result[i].rerankScore == result[j].rerankScore && StrLt(result[i].id, result[j].id))
  {
    var scores :| ScoresOf(a, b, scores) && IsRanking(scores, ranked);
    forall i | 0 <= i < |result| ensures result[i].id == ranked[i].id && result[i].rerankScore == ranked[i].score {
      FusedEntry(a, b, topK, ranked, result, i);
    }
    if (Lists(a, id) || Lists(b, id)) && !Lists(result, id) {
      assert Scored(id, scores[id]) in ranked;
      var k :| 0 <= k < |ranked| && ranked[k] == Scored(id, scores[id]);
      assert k >= |result|;
    }
  }

  /** `x` stands ahead of `y` wherever `y` stands. */
  ghost predicate Ahead(list: seq<Block>, x: string, y: string) {
    forall j :: 0 <= j < |list| && list[j].id == y ==> exists i :: 0 <= i < j && list[i].id == x
  }

  lemma AheadContributes(list: seq<Block>, x: string, y: string)
    requires UniqueIds(list) && Ahead(list, x, y)
    ensures Contribution(list, x) >= Contribution(list, y)
    ensures Lists(list, y) ==> Contribution(list, x) > Contribution(list, y)
  {
    if Lists(list, y) {
      var j :| 0 <= j < |list| && list[j].id == y;
      var i :| 0 <= i < j && list[i].id == x;
      ContributionAt(list, i);
      ContributionAt(list, j);
      ShareFacts(i, j);
    } else {
      NoContribution(list, y);
      ContributionBounds(list, x);
    }
  }

  lemma AheadLists(list: seq<Block>, x: string, y: string)
    requires Ahead(list, x, y) && Lists(list, y)
    ensures Lists(list, x)
  {
    var j :| 0 <= j < |list| && list[j].id == y;
  }

  lemma RankedEntry(a: seq<Block>, b: seq<Block>, topK: nat, ranked: seq<Scored>, result: seq<Block>, x: string)
    returns (i: nat)
    requires Fused(a, b, topK, ranked, result) && (Lists(a, x) || Lists(b, x))
    ensures i < |ranked| && ranked[i] == Scored(x, Score(a, b, x))
  {
    var scores :| ScoresOf(a, b, scores) && IsRanking(scores, ranked);
    assert Scored(x, scores[x]) in ranked;
    i :| 0 <= i < |ranked| && ranked[i] == Scored(x, scores[x]);
  }

  lemma RankedIsSorted(a: seq<Block>, b: seq<Block>, topK: nat, ranked: seq<Scored>, result: seq<Block>)
    requires Fused(a, b, topK, ranked, result)
    ensures |result| <= |ranked| && SortedBy(Before, ranked)
  {
  }

  /** Dominance: a block ahead of another in every list that holds the other comes first, and is not cut off before
      it. */
  lemma FusionKeepsDominance(a: seq<Block>, b: seq<Block>, topK: nat, ranked: seq<Scored>, result: seq<Block>,
                             x: string, j: nat)
    requires Fused(a, b, topK, ranked, result) && UniqueIds(a) && UniqueIds(b)
    requires j < |result| && Ahead(a, x, result[j].id) && Ahead(b, x, result[j].id)
    ensures exists i :: 0 <= i < j && result[i].id == x
  {
    hide Fused, Ahead, Lists, Contribution, UniqueIds;
    var y := result[j].id;
    RankedIsSorted(a, b, topK, ranked, result);
    FusedEntry(a, b, topK, ranked, result, j);
    AheadContributes(a, x, y);
    AheadContributes(b, x, y);
    if Lists(a, y) {
      AheadLists(a, x, y);
    } else {
      AheadLists(b, x, y);
    }
    var i := RankedEntry(a, b, topK, ranked, result, x);
    assert i < j;
    FusedEntry(a, b, topK, ranked, result, i);
  }

  /** The normalized score is in (0, 1], it is 1 exactly for a block first in both lists, and the clamp never fires. */
  lemma FusionScores(a: seq<Block>, b: seq<Block>, topK: nat, ranked: seq<Scored>, result: seq<Block>, i: nat)
    requires Fused(a, b, topK, ranked, result) && UniqueIds(a) && UniqueIds(b) && i < |result|
    ensures 0.0 < result[i].score <= 1.0 && result[i].score == result[i].rerankScore / MAX_RRF
    ensures result[i].score == 1.0 <==> |a| > 0 && |b| > 0 && a[0].id == result[i].id && b[0].id == result[i].id
  {
    var id := ranked[i].id;
    FusedEntry(a, b, topK, ranked, result, i);
    ContributionBounds(a, id);
    ContributionBounds(b, id);
    hide Contribution;
    Normalized(ranked[i].score);
  }

  lemma Normalized(score: real)
    requires 0.0 < score <= 2.0 * Share(0)
    ensures 0.0 < score / MAX_RRF <= 1.0
    ensures score / MAX_RRF == 1.0 <==> score == 2.0 * Share(0)
  {
    assert MAX_RRF == 2.0 / 61.0;
    assert score / MAX_RRF == score * 61.0 / 2.0;
  }

  // ---------- children are shown as their parents ----------

  /** The parent, carrying the child's scores; a child whose parent row is missing stays itself. */
  function Shown(parentOf: map<string, string>, parents: map<string, Block>, b: Block): Block {
    if b.chunkId in parentOf && parentOf[b.chunkId] in parents
    then parents[parentOf[b.chunkId]].(score := b.score, rerankScore := b.rerankScore)
    else b
  }

  /** Every parent that is referred to has its row. */
  predicate ParentsPresent(parentOf: map<string, string>, parents: map<string, Block>) {
    forall c :: c in parentOf ==> parentOf[c] in parents
  }

  ghost predicate Shows(result: seq<Block>, chunkId: string) {
    exists i :: 0 <= i < |result| && result[i].chunkId == chunkId
  }

  /** The expanded list is an in-order selection of the shown blocks, one per chunk id. */
  ghost predicate Expansion(parentOf: map<string, string>, parents: map<string, Block>, blocks: seq<Block>,
                            result: seq<Block>, from: seq<nat>) {
    && |from| == |result|
    && (forall i :: 0 <= i < |from| ==> from[i] < |blocks| && result[i] == Shown(parentOf, parents, blocks[from[i]]))
    && (forall i, j :: 0 <= i < j < |from| ==> from[i] < from[j])
    && (forall i, j :: 0 <= i < j < |result| ==> result[i].chunkId != result[j].chunkId)
  }

  lemma ExpansionSnoc(parentOf: map<string, string>, parents: map<string, Block>, blocks: seq<Block>, k: nat,
                      result: seq<Block>, from: seq<nat>)
    requires k < |blocks| && Expansion(parentOf, parents, blocks[..k], result, from)
    ensures Expansion(parentOf, parents, blocks[..k + 1], result, from)
    ensures !Shows(result, Shown(parentOf, parents, blocks[k]).chunkId) ==>
              Expansion(parentOf, parents, blocks[..k + 1], result + [Shown(parentOf, parents, blocks[k])], from + [k])
  {
    assert forall i :: 0 <= i < k ==> blocks[..k][i] == blocks[..k + 1][i];
    assert blocks[..k + 1][k] == blocks[k];
  }

  lemma ShowsSnoc(result: seq<Block>, b: Block)
    ensures forall c :: Shows(result + [b], c) <==> Shows(result, c) || c == b.chunkId
  {
    forall c ensures Shows(result + [b], c) <==> Shows(result, c) || c == b.chunkId {
      assert (result + [b])[|result|] == b;
      if Shows(result, c) {
        var i :| 0 <= i < |result| && result[i].chunkId == c;
        assert (result + [b])[i].chunkId == c;
      }
    }
  }

  /** The chunk that stands for a block: its parent, or itself. */
  function Family(parentOf: map<string, string>, b: Block): string {
    if b.chunkId in parentOf then parentOf[b.chunkId] else b.chunkId
  }

  predicate FirstOfFamily(parentOf: map<string, string>, blocks: seq<Block>, k: nat)
    requires k < |blocks|
  {
    forall j :: 0 <= j < k ==> Family(parentOf, blocks[j]) != Family(parentOf, blocks[k])
  }

  /** The first block of each family, in order. */
  function FirstIndices(parentOf: map<string, string>, blocks: seq<Block>, n: nat): seq<nat>
    requires n <= |blocks|
  {
    if n == 0 then []
    else FirstIndices(parentOf, blocks, n - 1) + (if FirstOfFamily(parentOf, blocks, n - 1) then [n - 1] else [])
  }

  /** A parent has no parent. */
  predicate TwoLevels(parentOf: map<string, string>) {
    forall c :: c in parentOf ==> parentOf[c] !in parentOf
  }

  /** `seen` after the first `k` blocks, as far as it matters. */
  ghost predicate SeenOk(parentOf: map<string, string>, blocks: seq<Block>, k: nat, seen: set<string>)
    requires k <= |blocks|
  {
    && (forall j :: 0 <= j < k ==> Family(parentOf, blocks[j]) in seen)
    && (forall c :: c in seen && c !in parentOf ==> exists j :: 0 <= j < k && Family(parentOf, blocks[j]) == c)
    && (forall c :: c in seen && c in parentOf ==> exists j :: 0 <= j < k && blocks[j].chunkId == c)
  }

  lemma SeenFirst(parentOf: map<string, string>, blocks: seq<Block>, k: nat, seen: set<string>)
    requires TwoLevels(parentOf) && k < |blocks| && SeenOk(parentOf, blocks, k, seen)
    ensures Family(parentOf, blocks[k]) !in parentOf
    ensures Family(parentOf, blocks[k]) in seen <==> !FirstOfFamily(parentOf, blocks, k)
    ensures FirstOfFamily(parentOf, blocks, k) ==> blocks[k].chunkId !in seen
  {
  }

  lemma SeenNext(parentOf: map<string, string>, blocks: seq<Block>, k: nat, seen: set<string>, more: set<string>)
    requires TwoLevels(parentOf) && k < |blocks| && SeenOk(parentOf, blocks, k, seen)
    requires Family(parentOf, blocks[k]) in more && seen <= more
    requires more <= seen + {Family(parentOf, blocks[k]), blocks[k].chunkId}
    ensures SeenOk(parentOf, blocks, k + 1, more)
  {
    forall c | c in more && c !in parentOf ensures exists j :: 0 <= j < k + 1 && Family(parentOf, blocks[j]) == c {
      if c in seen {
        var j :| 0 <= j < k && Family(parentOf, blocks[j]) == c;
      } else {
        assert Family(parentOf, blocks[k]) == c;
      }
    }
    forall c | c in more && c in parentOf ensures exists j :: 0 <= j < k + 1 && blocks[j].chunkId == c {
      if c in seen {
        var j :| 0 <= j < k && blocks[j].chunkId == c;
      } else {
        assert blocks[k].chunkId == c;
      }
    }
  }

  /** Where the loop stands after the first `k` blocks. */
  ghost predicate Progress(parentOf: map<string, string>, parents: map<string, Block>, blocks: seq<Block>, k: nat,
                           result: seq<Block>, from: seq<nat>, seen: set<string>)
    requires k <= |blocks|
  {
    && Expansion(parentOf, parents, blocks[..k], result, from)
    && (TwoLevels(parentOf) ==> SeenOk(parentOf, blocks, k, seen) && from == FirstIndices(parentOf, blocks, k))
    && (forall c :: Shows(result, c) ==> c in seen)
    && (ParentsPresent(parentOf, parents) ==>
          && (forall c :: c in seen ==> Shows(result, c))
          && forall j :: 0 <= j < k ==> Shown(parentOf, parents, blocks[j]).chunkId in seen)
  }

  lemma ProgressSkip(parentOf: map<string, string>, parents: map<string, Block>, blocks: seq<Block>, k: nat,
                     result: seq<Block>, from: seq<nat>, seen: set<string>, more: set<string>)
    requires forall p :: p in parents ==> parents[p].chunkId == p
    requires k < |blocks| && Progress(parentOf, parents, blocks, k, result, from, seen)
    requires var (c, p) := (blocks[k].chunkId, Family(parentOf, blocks[k]));
             if p in seen then more == seen
             else c in parentOf && p !in parents && c in seen + {p} && more == seen + {p}
    ensures Progress(parentOf, parents, blocks, k + 1, result, from, more)
  {
    ExpansionSnoc(parentOf, parents, blocks, k, result, from);
    PresentParent(parentOf, parents, blocks[k]);
    if TwoLevels(parentOf) {
      SeenFirst(parentOf, blocks, k, seen);
      SeenNext(parentOf, blocks, k, seen, more);
    }
    hide Expansion, Shows, SeenOk, FirstOfFamily, TwoLevels, ParentsPresent, Shown;
  }

  lemma ProgressTake(parentOf: map<string, string>, parents: map<string, Block>, blocks: seq<Block>, k: nat,
                     result: seq<Block>, from: seq<nat>, seen: set<string>, more: set<string>)
    requires forall p :: p in parents ==> parents[p].chunkId == p
    requires k < |blocks| && Progress(parentOf, parents, blocks, k, result, from, seen)
    requires var (c, p) := (blocks[k].chunkId, Family(parentOf, blocks[k]));
             && p !in seen
             && if c in parentOf && p !in parents then c !in seen + {p} && more == seen + {p, c} else more == seen + {p}
    ensures Progress(parentOf, parents, blocks, k + 1, result + [Shown(parentOf, parents, blocks[k])], from + [k], more)
  {
    ShownInMore(parentOf, parents, blocks[k], more, seen);
    ExpansionSnoc(parentOf, parents, blocks, k, result, from);
    ShowsSnoc(result, Shown(parentOf, parents, blocks[k]));
    PresentParent(parentOf, parents, blocks[k]);
    if TwoLevels(parentOf) {
      SeenFirst(parentOf, blocks, k, seen);
      SeenNext(parentOf, blocks, k, seen, more);
    }
    hide Expansion, Shows, SeenOk, FirstOfFamily, TwoLevels, ParentsPresent, Shown;
  }

  lemma ShownInMore(parentOf: map<string, string>, parents: map<string, Block>, b: Block, more: set<string>,
                    seen: set<string>)
    requires forall p :: p in parents ==> parents[p].chunkId == p
    requires var (c, p) := (b.chunkId, Family(parentOf, b));
             && p !in seen
             && if c in parentOf && p !in parents then c !in seen + {p} && more == seen + {p, c} else more == seen + {p}
    ensures Shown(parentOf, parents, b).chunkId in more && Shown(parentOf, parents, b).chunkId !in seen
  {
  }

  /** The loop keeps one block per chunk id. When no parent has a parent it keeps exactly the first block of each
      family; when every parent is present nothing goes missing. */
  method ExpandToParents(blocks: seq<Block>, parentOf: map<string, string>, parents: map<string, Block>)
    returns (result: seq<Block>, ghost from: seq<nat>)
    requires forall p :: p in parents ==> parents[p].chunkId == p
    ensures parentOf == map[] ==> result == blocks
    ensures parentOf != map[] ==> Expansion(parentOf, parents, blocks, result, from)
    ensures parentOf != map[] && TwoLevels(parentOf) ==> from == FirstIndices(parentOf, blocks, |blocks|)
    ensures parentOf != map[] && ParentsPresent(parentOf, parents) ==>
              forall k :: 0 <= k < |blocks| ==> Shows(result, Shown(parentOf, parents, blocks[k]).chunkId)
  {
    if parentOf == map[] {
      return blocks, [];
    }
    var seen: set<string> := {};
    result, from := [], [];
    ProgressStart(parentOf, parents, blocks);
    hide Progress;
    for k := 0 to |blocks|
      invariant Progress(parentOf, parents, blocks, k, result, from, seen)
    {
      var block := blocks[k];
      ghost var before := seen;
      if block.chunkId in parentOf {
        var parentId := parentOf[block.chunkId];
        if parentId in seen {
          ProgressSkip(parentOf, parents, blocks, k, result, from, before, seen);
          continue;
        }
        seen := seen + {parentId};
        if parentId in parents {
          ProgressTake(parentOf, parents, blocks, k, result, from, before, seen);
          result := result + [parents[parentId].(score := block.score, rerankScore := block.rerankScore)];
          from := from + [k];
          continue;
        }
      }
      if block.chunkId in seen {
        ProgressSkip(parentOf, parents, blocks, k, result, from, before, seen);
        continue;
      }
      seen := seen + {block.chunkId};
      ProgressTake(parentOf, parents, blocks, k, result, from, before, seen);
      result := result + [block];
      from := from + [k];
    }
    ProgressEnd(parentOf, parents, blocks, result, from, seen);
  }

  lemma ProgressStart(parentOf: map<string, string>, parents: map<string, Block>, blocks: seq<Block>)
    ensures Progress(parentOf, parents, blocks, 0, [], [], {})
  {
    ExpansionEmpty(parentOf, parents, blocks);
  }

  lemma ProgressEnd(parentOf: map<string, string>, parents: map<string, Block>, blocks: seq<Block>,
                    result: seq<Block>, from: seq<nat>, seen: set<string>)
    requires Progress(parentOf, parents, blocks, |blocks|, result, from, seen)
    ensures Expansion(parentOf, parents, blocks, result, from)
    ensures TwoLevels(parentOf) ==> from == FirstIndices(parentOf, blocks, |blocks|)
    ensures ParentsPresent(parentOf, parents) ==>
              forall k :: 0 <= k < |blocks| ==> Shows(result, Shown(parentOf, parents, blocks[k]).chunkId)
  {
    assert blocks[..|blocks|] == blocks;
    hide Expansion, TwoLevels, SeenOk, ParentsPresent, Shown, Shows;
  }

  lemma {:induction false} FirstIndicesExact(parentOf: map<string, string>, blocks: seq<Block>, n: nat)
    requires n <= |blocks|
    ensures var at := FirstIndices(parentOf, blocks, n);
            && (forall i :: 0 <= i < |at| ==> at[i] < n && FirstOfFamily(parentOf, blocks, at[i]))
            && (forall k: nat :: k < n && FirstOfFamily(parentOf, blocks, k) ==>
                exists i :: 0 <= i < |at| && at[i] == k)
  {
    hide FirstOfFamily;
    if n > 0 {
      FirstIndicesExact(parentOf, blocks, n - 1);
      var before, at := FirstIndices(parentOf, blocks, n - 1), FirstIndices(parentOf, blocks, n);
      forall k: nat | k < n && FirstOfFamily(parentOf, blocks, k) ensures exists i :: 0 <= i < |at| && at[i] == k {
        if k < n - 1 {
          var i :| 0 <= i < |before| && before[i] == k;
          assert at[i] == k;
        } else {
          assert at[|before|] == k;
        }
      }
    }
  }

  lemma {:induction false} FirstOf(parentOf: map<string, string>, blocks: seq<Block>, k: nat) returns (f: nat)
    requires k < |blocks|
    ensures f <= k && FirstOfFamily(parentOf, blocks, f) && Family(parentOf, blocks[f]) == Family(parentOf, blocks[k])
  {
    if j: nat :| j < k && Family(parentOf, blocks[j]) == Family(parentOf, blocks[k]) {
      f := FirstOf(parentOf, blocks, j);
    } else {
      f := k;
    }
  }

  /** Two different chunks of one family have their parent's row. */
  ghost predicate FamiliesHaveRows(parentOf: map<string, string>, parents: map<string, Block>, blocks: seq<Block>) {
    forall j, k :: 0 <= j < k < |blocks| ==>
      var p := Family(parentOf, blocks[k]);
      Family(parentOf, blocks[j]) == p && blocks[j].chunkId != blocks[k].chunkId ==> p in parents
  }

  /** Nothing goes missing exactly when no two different chunks of one family lack their parent's row. */
  lemma NothingMissingIff(parentOf: map<string, string>, parents: map<string, Block>, blocks: seq<Block>,
                          result: seq<Block>, from: seq<nat>)
    requires TwoLevels(parentOf) && forall p :: p in parents ==> parents[p].chunkId == p
    requires Expansion(parentOf, parents, blocks, result, from) && from == FirstIndices(parentOf, blocks, |blocks|)
    ensures (forall k :: 0 <= k < |blocks| ==> Shows(result, Shown(parentOf, parents, blocks[k]).chunkId))
            <==> FamiliesHaveRows(parentOf, parents, blocks)
  {
    hide Expansion, Shows, Shown, TwoLevels, Family, FirstOfFamily, FirstIndices;
    if FamiliesHaveRows(parentOf, parents, blocks) {
      forall k | 0 <= k < |blocks| ensures Shows(result, Shown(parentOf, parents, blocks[k]).chunkId) {
        var f := FirstOf(parentOf, blocks, k);
        FirstIsShown(parentOf, parents, blocks, result, from, f);
        SameFamilyShown(parentOf, parents, blocks[f], blocks[k]);
      }
    } else {
      var j: nat, k: nat :| j < k < |blocks| && Family(parentOf, blocks[j]) == Family(parentOf, blocks[k])
                            && blocks[j].chunkId != blocks[k].chunkId && Family(parentOf, blocks[k]) !in parents;
      var f := FirstOf(parentOf, blocks, k);
      var m := if blocks[f].chunkId == blocks[k].chunkId then j else k;
      OtherIsMissing(parentOf, parents, blocks, result, from, f, m);
    }
  }

  lemma FirstIsShown(parentOf: map<string, string>, parents: map<string, Block>, blocks: seq<Block>,
                     result: seq<Block>, from: seq<nat>, f: nat)
    requires Expansion(parentOf, parents, blocks, result, from) && from == FirstIndices(parentOf, blocks, |blocks|)
    requires f < |blocks| && FirstOfFamily(parentOf, blocks, f)
    ensures Shows(result, Shown(parentOf, parents, blocks[f]).chunkId)
  {
    FirstIndicesExact(parentOf, blocks, |blocks|);
    hide FirstIndices, FirstOfFamily, Shown;
    var i :| 0 <= i < |from| && from[i] == f;
    assert result[i].chunkId == Shown(parentOf, parents, blocks[f]).chunkId;
  }

  lemma SameFamilyShown(parentOf: map<string, string>, parents: map<string, Block>, a: Block, b: Block)
    requires forall p :: p in parents ==> parents[p].chunkId == p
    requires Family(parentOf, a) == Family(parentOf, b)
    requires a.chunkId == b.chunkId || Family(parentOf, b) in parents
    ensures Shown(parentOf, parents, a).chunkId == Shown(parentOf, parents, b).chunkId
  {
  }

  /** A chunk of a family without parent row, other than the first one, is not shown. */
  lemma OtherIsMissing(parentOf: map<string, string>, parents: map<string, Block>, blocks: seq<Block>,
                       result: seq<Block>, from: seq<nat>, f: nat, m: nat)
    requires TwoLevels(parentOf) && forall p :: p in parents ==> parents[p].chunkId == p
    requires Expansion(parentOf, parents, blocks, result, from) && from == FirstIndices(parentOf, blocks, |blocks|)
    requires f < |blocks| && m < |blocks| && FirstOfFamily(parentOf, blocks, f)
    requires Family(parentOf, blocks[f]) == Family(parentOf, blocks[m]) && Family(parentOf, blocks[m]) !in parents
    requires blocks[f].chunkId != blocks[m].chunkId
    ensures !Shows(result, Shown(parentOf, parents, blocks[m]).chunkId)
  {
    FirstIndicesExact(parentOf, blocks, |blocks|);
    hide FirstIndices;
    var c := blocks[m].chunkId;
    assert Shown(parentOf, parents, blocks[m]) == blocks[m];
    forall i | 0 <= i < |result| ensures result[i].chunkId != c {
      var g := from[i];
      assert Family(parentOf, blocks[g]) == Family(parentOf, blocks[m]) || result[i].chunkId != c;
      assert Family(parentOf, blocks[g]) == Family(parentOf, blocks[f]) ==> g == f;
    }
  }

  /** What is shown for a block: its parent's stored row with the block's two scores, or the block itself when it has no
      parent or the parent's row is missing. */
  lemma ShownRow(parentOf: map<string, string>, parents: map<string, Block>, b: Block)
    ensures var r := Shown(parentOf, parents, b);
            && r.score == b.score && r.rerankScore == b.rerankScore
            && (b.chunkId in parentOf && parentOf[b.chunkId] in parents ==>
                  var p := parents[parentOf[b.chunkId]];
                  r.id == p.id && r.chunkId == p.chunkId && r.text == p.text)
            && (b.chunkId !in parentOf || parentOf[b.chunkId] !in parents ==> r == b)
  {
  }

  lemma PresentParent(parentOf: map<string, string>, parents: map<string, Block>, b: Block)
    requires forall p :: p in parents ==> parents[p].chunkId == p
    ensures ParentsPresent(parentOf, parents) ==>
              Shown(parentOf, parents, b).chunkId == if b.chunkId in parentOf then parentOf[b.chunkId] else b.chunkId
    ensures ParentsPresent(parentOf, parents) && b.chunkId in parentOf ==> parentOf[b.chunkId] in parents
  {
  }

  lemma ExpansionEmpty(parentOf: map<string, string>, parents: map<string, Block>, blocks: seq<Block>)
    ensures Expansion(parentOf, parents, blocks[..0], [], []) && forall c :: !Shows([], c)
  {
  }

  /** From both searches to the evidence list: the expanded fusion is still in descending score, with one block per
      chunk. */
  lemma ExpandedFusionIsSorted(a: seq<Block>, b: seq<Block>, topK: nat, ranked: seq<Scored>, fused: seq<Block>,
                               parentOf: map<string, string>, parents: map<string, Block>, result: seq<Block>,
                                   from: seq<nat>)
    requires Fused(a, b, topK, ranked, fused) && UniqueIds(a) && UniqueIds(b)
    requires Expansion(parentOf, parents, fused, result, from)
    ensures forall i, j :: 0 <= i < j < |result| ==>
              result[i].score >= result[j].score && result[i].chunkId != result[j].chunkId
    ensures forall i :: 0 <= i < |result| ==> 0.0 < result[i].score <= 1.0
  {
    forall i | 0 <= i < |result| ensures 0.0 < result[i].score <= 1.0 {
      FusionScores(a, b, topK, ranked, fused, from[i]);
    }
    forall i, j | 0 <= i < j < |result| ensures result[i].score >= result[j].score {
      FusionIsTopK(a, b, topK, ranked, fused, "");
      FusionScores(a, b, topK, ranked, fused, from[i]);
      FusionScores(a, b, topK, ranked, fused, from[j]);
      hide Fused;
      ShareFacts(0, 0);
      assert Before(Scored(fused[from[i]].id, fused[from[i]].rerankScore),
                    Scored(fused[from[j]].id, fused[from[j]].rerankScore));
      Scale(fused[from[i]].rerankScore, fused[from[j]].rerankScore);
    }
  }

  lemma Scale(x: real, y: real)
    requires x >= y
    ensures x / MAX_RRF >= y / MAX_RRF
  {
    assert MAX_RRF == 2.0 / 61.0;
    assert x / MAX_RRF == x * 61.0 / 2.0 && y / MAX_RRF == y * 61.0 / 2.0;
  }
}
