/** Context assembly: candidate blocks and the two-phase eviction, against one declarative choice. */
module ContextBudget {
  import opened Common

  datatype Kind = UserProfile | RecentTurns | SessionSummary | TaskScratchpad | Evidence | ToolResult

  /** A context block; its text is represented by its token estimate. */
  datatype Block = Block(kind: Kind, tokens: nat, priority: int)

  function Tokens(bs: seq<Block>): nat {
    if bs == [] then 0 else bs[0].tokens + Tokens(bs[1..])
  }

  // ---------- the declarative choice ----------

  /** Block i is evicted before block j: lower priority, or the same priority and earlier. */
  predicate Worse(bs: seq<Block>, i: nat, j: nat)
    requires i < |bs| && j < |bs|
  {
    bs[i].priority < bs[j].priority || (bs[i].priority == bs[j].priority && i < j)
  }

  predicate Within(ids: seq<nat>, n: nat) {
    forall a :: 0 <= a < |ids| ==> ids[a] < n
  }

  predicate Ascending(ids: seq<nat>) {
    forall a, b :: 0 <= a < b < |ids| ==> ids[a] < ids[b]
  }

  /** `kept` lists the best blocks in their original order, `gone` all the others from worst to best. */
  predicate Ranked(bs: seq<Block>, kept: seq<nat>, gone: seq<nat>) {
    && Within(kept, |bs|) && Within(gone, |bs|)
    && Ascending(kept)
    && (forall a, b :: 0 <= a < b < |gone| ==> Worse(bs, gone[a], gone[b]))
    && (forall a, b :: 0 <= a < |gone| && 0 <= b < |kept| ==> Worse(bs, gone[a], kept[b]))
    && (forall i: nat :: i < |bs| ==> i in kept || i in gone)
    && |kept| + |gone| == |bs|
  }

  function Pick(bs: seq<Block>, ids: seq<nat>): (r: seq<Block>)
    requires Within(ids, |bs|)
    ensures |r| == |ids| && forall k :: 0 <= k < |ids| ==> r[k] == bs[ids[k]]
  {
    seq(|ids|, k requires 0 <= k < |ids| => bs[ids[k]])
  }

  predicate Fits(bs: seq<Block>, kept: seq<nat>, maxBlocks: nat, budget: int)
    requires Within(kept, |bs|)
  {
    |kept| <= maxBlocks && Tokens(Pick(bs, kept)) <= budget
  }

  /** No larger choice of best blocks fits. */
  ghost predicate NothingLarger(bs: seq<Block>, kept: seq<nat>, maxBlocks: nat, budget: int) {
    forall k, g :: Ranked(bs, k, g) && |k| > |kept| ==> !Fits(bs, k, maxBlocks, budget)
  }

  /** The largest affordable set of best blocks. */
  ghost predicate LargestAffordable(bs: seq<Block>, kept: seq<nat>, gone: seq<nat>, maxBlocks: nat, budget: int) {
    && Ranked(bs, kept, gone)
    && (kept == [] || Fits(bs, kept, maxBlocks, budget))
    && NothingLarger(bs, kept, maxBlocks, budget)
  }

  // ---------- the choice is unique ----------

  lemma {:induction false} GoneAgree(bs: seq<Block>, k1: seq<nat>, g1: seq<nat>, k2: seq<nat>, g2: seq<nat>, m: nat)
    requires Ranked(bs, k1, g1) && Ranked(bs, k2, g2) && m <= |g1| && m <= |g2|
    ensures g1[..m] == g2[..m]
  {
    if m > 0 {
      GoneAgree(bs, k1, g1, k2, g2, m - 1);
      var x, y := g1[m - 1], g2[m - 1];
      NotBefore(bs, k1, g1, k2, g2, m - 1);
      NotBefore(bs, k2, g2, k1, g1, m - 1);
      assert g1[..m] == g1[..m - 1] + [x] && g2[..m] == g2[..m - 1] + [y];
    }
  }

  lemma NotBefore(bs: seq<Block>, k1: seq<nat>, g1: seq<nat>, k2: seq<nat>, g2: seq<nat>, m: nat)
    requires Ranked(bs, k1, g1) && Ranked(bs, k2, g2) && m < |g1| && m < |g2| && g1[..m] == g2[..m]
    ensures !Worse(bs, g1[m], g2[m])
  {
    var x := g1[m];
    if x !in k2 && Worse(bs, x, g2[m]) {
      var a :| 0 <= a < |g2| && g2[a] == x;
      SamePrefix(g1, g2, m);
      Asymmetric(bs, g2[a], g2[m]);
    }
  }

  lemma Asymmetric(bs: seq<Block>, i: nat, j: nat)
    requires i < |bs| && j < |bs|
    ensures !(Worse(bs, i, j) && Worse(bs, j, i)) && !Worse(bs, i, i)
  {
  }

  lemma SamePrefix(g1: seq<nat>, g2: seq<nat>, m: nat)
    requires m <= |g1| && m <= |g2| && g1[..m] == g2[..m]
    ensures forall a :: 0 <= a < m ==> g1[a] == g2[a]
  {
    forall a | 0 <= a < m ensures g1[a] == g2[a] {
      assert g1[..m][a] == g2[..m][a];
    }
  }

  lemma {:induction false} AscendingUnique(a: seq<nat>, b: seq<nat>)
    requires Ascending(a) && Ascending(b) && forall i: nat :: i in a <==> i in b
    ensures a == b
  {
    if a != [] && b != [] {
      assert a[0] in a && b[0] in b;
      var x, y := a[0], b[0];
      assert x == y;
      forall i: nat ensures i in a[1..] <==> i in b[1..] {
        TailMember(a, i);
        TailMember(b, i);
      }
      AscendingUnique(a[1..], b[1..]);
      assert a == [x] + a[1..] && b == [y] + b[1..];
    } else if a != [] {
      Nonempty(a);
    } else if b != [] {
      Nonempty(b);
    }
  }

  lemma Nonempty(a: seq<nat>)
    requires a != []
    ensures exists i: nat :: i in a
  {
    assert a[0] in a;
  }

  lemma TailMember(a: seq<nat>, i: nat)
    requires Ascending(a) && a != []
    ensures i in a[1..] <==> i in a && i != a[0]
  {
    assert a == [a[0]] + a[1..];
  }

  lemma RankedUnique(bs: seq<Block>, k1: seq<nat>, g1: seq<nat>, k2: seq<nat>, g2: seq<nat>)
    requires Ranked(bs, k1, g1) && Ranked(bs, k2, g2) && |k1| == |k2|
    ensures k1 == k2 && g1 == g2
  {
    GoneAgree(bs, k1, g1, k2, g2, |g1|);
    assert g1[..|g1|] == g1 && g2[..|g2|] == g2;
    forall i: nat ensures i in k1 <==> i in k2 {
    }
    AscendingUnique(k1, k2);
  }

  /** There is one answer, whatever way it is computed. */
  lemma LargestAffordableUnique(bs: seq<Block>, k1: seq<nat>, g1: seq<nat>, k2: seq<nat>, g2: seq<nat>, maxBlocks: nat,
                                budget: int)
    requires LargestAffordable(bs, k1, g1, maxBlocks, budget) && LargestAffordable(bs, k2, g2, maxBlocks, budget)
    ensures k1 == k2 && g1 == g2
  {
    if |k1| == |k2| {
      RankedUnique(bs, k1, g1, k2, g2);
    }
  }

  // ---------- eviction ----------

  method LowestPriorityIndex(bs: seq<Block>) returns (idx: nat)
    requires |bs| > 0
    ensures idx < |bs|
    ensures forall j :: 0 <= j < |bs| && j != idx ==> Worse(bs, idx, j)
  {
    idx := 0;
    for i := 1 to |bs|
      invariant idx < i
      invariant forall j :: 0 <= j < i ==> bs[idx].priority <= bs[j].priority
      invariant forall j :: 0 <= j < idx ==> bs[idx].priority < bs[j].priority
    {
      if bs[i].priority < bs[idx].priority {
        idx := i;
      }
    }
  }

  function Without<T>(xs: seq<T>, idx: nat): (r: seq<T>)
    requires idx < |xs|
    ensures |r| == |xs| - 1
  {
    xs[..idx] + xs[idx + 1..]
  }

  lemma WithoutAt<T>(xs: seq<T>, idx: nat)
    requires idx < |xs|
    ensures forall a :: 0 <= a < |xs| - 1 ==> Without(xs, idx)[a] == xs[if a < idx then a else a + 1]
    ensures forall x :: x in xs <==> x in Without(xs, idx) || x == xs[idx]
  {
    assert xs == xs[..idx] + [xs[idx]] + xs[idx + 1..];
  }

  lemma Evict(bs: seq<Block>, kept: seq<nat>, gone: seq<nat>, idx: nat)
    requires Ranked(bs, kept, gone) && idx < |kept|
    requires forall j :: 0 <= j < |kept| && j != idx ==> Worse(Pick(bs, kept), idx, j)
    ensures Ranked(bs, Without(kept, idx), gone + [kept[idx]])
    ensures Pick(bs, Without(kept, idx)) == Without(Pick(bs, kept), idx)
  {
    var k, g := Without(kept, idx), gone + [kept[idx]];
    WithoutAt(kept, idx);
    WithoutAt(Pick(bs, kept), idx);
    hide Without;
    forall b | 0 <= b < |k| ensures Worse(bs, kept[idx], k[b]) {
      assert Worse(Pick(bs, kept), idx, if b < idx then b else b + 1);
    }
    hide Pick;
    forall i: nat | i < |bs| ensures i in k || i in g {
      assert i in kept || i in gone;
    }
  }

  lemma StillNothingLarger(bs: seq<Block>, kept: seq<nat>, gone: seq<nat>, idx: nat, maxBlocks: nat, budget: int)
    requires Ranked(bs, kept, gone) && idx < |kept|
    requires NothingLarger(bs, kept, maxBlocks, budget) && !Fits(bs, kept, maxBlocks, budget)
    ensures NothingLarger(bs, Without(kept, idx), maxBlocks, budget)
  {
    forall k, g | Ranked(bs, k, g) && |k| > |kept| - 1 ensures !Fits(bs, k, maxBlocks, budget) {
      if |k| == |kept| {
        RankedUnique(bs, k, g, kept, gone);
      }
    }
  }

  /** All indices in order: the state before any eviction. */
  lemma AllRanked(bs: seq<Block>, all: seq<nat>, maxBlocks: nat, budget: int)
    requires |all| == |bs| && forall i :: 0 <= i < |all| ==> all[i] == i
    ensures Ranked(bs, all, []) && Pick(bs, all) == bs && NothingLarger(bs, all, maxBlocks, budget)
  {
    forall i: nat | i < |bs| ensures i in all {
      assert all[i] == i;
    }
  }

  method TotalEstimatedTokens(bs: seq<Block>) returns (total: nat)
    ensures total == Tokens(bs)
  {
    total := 0;
    for i := 0 to |bs|
      invariant total + Tokens(bs[i..]) == Tokens(bs)
    {
      assert bs[i..][1..] == bs[i + 1..];
      total := total + bs[i].tokens;
    }
  }

  /** applyBudget. Only the safety net departs from the largest affordable set of best blocks: when that set is empty
      it returns the first block, which stays among the dropped ones. */
  method ApplyBudget(blocks: seq<Block>, maxBlocks: nat, budget: int)
    returns (included: seq<Block>, dropped: seq<Block>)
    ensures exists kept, gone ::
              && LargestAffordable(blocks, kept, gone, maxBlocks, budget)
              && dropped == Pick(blocks, gone)
              && included == if kept == [] && |blocks| > 0 then [blocks[0]] else Pick(blocks, kept)
  {
    hide NothingLarger, Ranked, Worse;
    included, dropped := blocks, [];
    ghost var kept: seq<nat>, gone: seq<nat> := seq(|blocks|, i => i), [];
    AllRanked(blocks, kept, maxBlocks, budget);
    while |included| > maxBlocks
      invariant Ranked(blocks, kept, gone) && NothingLarger(blocks, kept, maxBlocks, budget)
      invariant InRange(blocks, kept, gone) && included == Pick(blocks, kept) && dropped == Pick(blocks, gone)
      decreases |included|
    {
      included, dropped, kept, gone := EvictOne(blocks, included, dropped, kept, gone, maxBlocks, budget);
    }
    var total := TotalEstimatedTokens(included);
    while |included| > 0 && total > budget
      invariant Ranked(blocks, kept, gone) && NothingLarger(blocks, kept, maxBlocks, budget)
      invariant InRange(blocks, kept, gone) && included == Pick(blocks, kept) && dropped == Pick(blocks, gone)
      invariant total == Tokens(included) && |included| <= maxBlocks
      decreases |included|
    {
      included, dropped, kept, gone := EvictOne(blocks, included, dropped, kept, gone, maxBlocks, budget);
      total := TotalEstimatedTokens(included);
    }
    assert LargestAffordable(blocks, kept, gone, maxBlocks, budget);
    if |included| == 0 && |blocks| > 0 {
      included := [blocks[0]];
    }
  }

  predicate InRange(bs: seq<Block>, kept: seq<nat>, gone: seq<nat>) {
    Within(kept, |bs|) && Within(gone, |bs|)
  }

  method EvictOne(ghost blocks: seq<Block>, included0: seq<Block>, dropped0: seq<Block>, ghost kept0: seq<nat>,
                  ghost gone0: seq<nat>,
                  ghost maxBlocks: nat, ghost budget: int)
    returns (included: seq<Block>, dropped: seq<Block>, ghost kept: seq<nat>, ghost gone: seq<nat>)
    requires Ranked(blocks, kept0, gone0) && NothingLarger(blocks, kept0, maxBlocks, budget)
    requires included0 == Pick(blocks, kept0) && dropped0 == Pick(blocks, gone0)
    requires |included0| > 0 && !Fits(blocks, kept0, maxBlocks, budget)
    ensures Ranked(blocks, kept, gone) && NothingLarger(blocks, kept, maxBlocks, budget)
    ensures InRange(blocks, kept, gone) && included == Pick(blocks, kept) && dropped == Pick(blocks, gone)
    ensures |included| == |included0| - 1
  {
    var idx := LowestPriorityIndex(included0);
    Evict(blocks, kept0, gone0, idx);
    StillNothingLarger(blocks, kept0, gone0, idx, maxBlocks, budget);
    kept, gone := Without(kept0, idx), gone0 + [kept0[idx]];
    dropped := dropped0 + [included0[idx]];
    included := Without(included0, idx);
  }

  // ---------- what the caller learns ----------

  /** Nothing is invented or lost while the safety net is not used. */
  lemma KeptAndDroppedAreAll(bs: seq<Block>, kept: seq<nat>, gone: seq<nat>)
    requires Ranked(bs, kept, gone)
    ensures multiset(Pick(bs, kept)) + multiset(Pick(bs, gone)) == multiset(bs)
    ensures forall a, b :: 0 <= a < b < |gone| ==> Pick(bs, gone)[a].priority <= Pick(bs, gone)[b].priority
    ensures forall x, y :: x in Pick(bs, gone) && y in Pick(bs, kept) ==> x.priority <= y.priority
  {
    var ids := kept + gone;
    var all := seq(|bs|, i requires 0 <= i < |bs| => i);
    assert forall a, b :: 0 <= a < b < |kept| ==> kept[a] != kept[b];
    assert forall a, b :: 0 <= a < b < |gone| ==> Worse(bs, gone[a], gone[b]);
    DistinctCover(ids, |bs|);
    PickMultiset(bs, ids, all);
    assert Pick(bs, all) == bs;
    assert Pick(bs, ids) == Pick(bs, kept) + Pick(bs, gone);
  }

  /** `n` different numbers below `n` are a permutation of them. */
  lemma DistinctCover(ids: seq<nat>, n: nat)
    requires Distinct(ids) && Within(ids, n)
    requires forall i: nat :: i < n ==> i in ids
    ensures multiset(ids) == multiset(seq(n, i requires 0 <= i < n => i))
  {
    var all := seq(n, i requires 0 <= i < n => i);
    forall i: nat | i < n ensures i in all {
      assert all[i] == i;
    }
    DistinctMeansOnce(ids);
    DistinctMeansOnce(all);
    forall x: nat ensures multiset(ids)[x] == multiset(all)[x] {
      assert x in multiset(ids) <==> x in ids;
      assert x in multiset(all) <==> x in all;
    }
  }

  lemma SeqRemove<T>(ys: seq<T>, k: nat)
    requires k < |ys|
    ensures multiset(ys[..k] + ys[k + 1..]) + multiset{ys[k]} == multiset(ys)
  {
    assert ys == ys[..k] + ([ys[k]] + ys[k + 1..]);
  }

  lemma PickRemove(bs: seq<Block>, ys: seq<nat>, k: nat)
    requires k < |ys| && Within(ys, |bs|)
    ensures Within(ys[..k] + ys[k + 1..], |bs|)
    ensures multiset(Pick(bs, ys[..k] + ys[k + 1..])) + multiset{bs[ys[k]]} == multiset(Pick(bs, ys))
  {
    SeqRemove(Pick(bs, ys), k);
    assert Pick(bs, ys)[..k] + Pick(bs, ys)[k + 1..] == Pick(bs, ys[..k] + ys[k + 1..]);
  }

  lemma CancelOne<T>(xs: seq<T>, ys: seq<T>, x: T, xs1: seq<T>, ys1: seq<T>)
    requires multiset(xs) + multiset{x} == multiset(xs1) && multiset(ys) + multiset{x} == multiset(ys1)
    requires multiset(xs1) == multiset(ys1)
    ensures multiset(xs) == multiset(ys)
  {
    assert multiset(xs) == multiset(xs1) - multiset{x};
    assert multiset(ys) == multiset(ys1) - multiset{x};
  }

  lemma FindSame<T>(xs: seq<T>, ys: seq<T>) returns (k: nat)
    requires multiset(xs) == multiset(ys) && xs != []
    ensures k < |ys| && ys[k] == xs[0]
  {
    assert xs[0] in multiset(ys);
    k :| k < |ys| && ys[k] == xs[0];
  }

  lemma {:induction false} PickMultiset(bs: seq<Block>, xs: seq<nat>, ys: seq<nat>)
    requires multiset(xs) == multiset(ys) && Within(xs, |bs|) && Within(ys, |bs|)
    ensures multiset(Pick(bs, xs)) == multiset(Pick(bs, ys))
    decreases |xs|
  {
    if xs == [] {
      assert |multiset(ys)| == 0;
    } else {
      hide Pick, Within;
      var k := FindSame(xs, ys);
      var rest, more := xs[..0] + xs[1..], ys[..k] + ys[k + 1..];
      SeqRemove(xs, 0);
      SeqRemove(ys, k);
      CancelOne(rest, more, xs[0], xs, ys);
      PickRemove(bs, xs, 0);
      PickRemove(bs, ys, k);
      PickMultiset(bs, rest, more);
    }
  }

  /** The best block: every other one is evicted before it. */
  predicate Best(bs: seq<Block>, top: nat) {
    top < |bs| && forall j: nat :: j < |bs| && j != top ==> Worse(bs, j, top)
  }

  /** The safety net is used exactly when even the best block alone is over the budget (or no block is allowed). */
  lemma SafetyNetFiresIff(bs: seq<Block>, kept: seq<nat>, gone: seq<nat>, maxBlocks: nat, budget: int, top: nat)
    requires LargestAffordable(bs, kept, gone, maxBlocks, budget) && Best(bs, top)
    ensures kept == [] <==> maxBlocks == 0 || bs[top].tokens > budget
    ensures kept != [] ==> top in kept
  {
    if kept == [] {
      BestIsLast(bs, gone, top);
      var one: seq<nat> := [top];
      assert gone == gone[..|gone| - 1] + [top];
      assert Ranked(bs, one, gone[..|gone| - 1]);
      assert Pick(bs, one)[1..] == [];
      assert Tokens(Pick(bs, one)) == bs[top].tokens;
    } else {
      if top !in kept {
        assert top in gone;
        var a :| 0 <= a < |gone| && gone[a] == top;
        Asymmetric(bs, gone[a], kept[0]);
        assert false;
      }
      var b :| 0 <= b < |kept| && kept[b] == top;
      assert Pick(bs, kept)[b] == bs[top];
      TokensOfMember(Pick(bs, kept), bs[top]);
    }
  }

  lemma BestIsLast(bs: seq<Block>, gone: seq<nat>, top: nat)
    requires Ranked(bs, [], gone) && Best(bs, top)
    ensures |gone| > 0 && gone[|gone| - 1] == top
  {
    assert top in gone;
    var k :| 0 <= k < |gone| && gone[k] == top;
    if k < |gone| - 1 {
      Asymmetric(bs, gone[k], gone[|gone| - 1]);
    }
  }

  lemma {:induction false} TokensOfMember(bs: seq<Block>, x: Block)
    requires x in bs
    ensures Tokens(bs) >= x.tokens
  {
    if bs[0] != x {
      TokensOfMember(bs[1..], x);
    }
  }

  /** The block that the safety net returns is the highest-priority one exactly when the first block outranks every
      other strictly; and it is always reported as dropped. */
  lemma SafetyNetKeepsBestIff(bs: seq<Block>, gone: seq<nat>)
    requires Ranked(bs, [], gone) && |bs| > 0
    ensures Best(bs, 0) <==> forall j :: 0 < j < |bs| ==> bs[j].priority < bs[0].priority
    ensures |gone| > 0 && (Best(bs, 0) <==> gone[|gone| - 1] == 0)
    ensures bs[0] in Pick(bs, gone)
  {
    assert 0 in gone;
    var k :| 0 <= k < |gone| && gone[k] == 0;
    assert Pick(bs, gone)[k] == bs[0];
    if Best(bs, 0) {
      BestIsLast(bs, gone, 0);
      forall j | 0 < j < |bs| ensures bs[j].priority < bs[0].priority {
        assert Worse(bs, j, 0);
      }
    }
    if forall j :: 0 < j < |bs| ==> bs[j].priority < bs[0].priority {
      assert Best(bs, 0);
    }
    if gone[|gone| - 1] == 0 {
      forall j: nat | j < |bs| && j != 0 ensures Worse(bs, j, 0) {
        assert j in gone;
        var a :| 0 <= a < |gone| && gone[a] == j;
      }
    }
  }

  // ---------- the candidate list ----------

  datatype Snippet = Snippet(score: real, tokens: nat)

  /** What is present in a build request, with token estimates. */
  datatype Input = Input(profile: Option<nat>, turns: Option<nat>, summary: Option<nat>, scratchpad: Option<nat>,
                         evidence: seq<Snippet>, tools: seq<nat>)

  function EvidencePriority(i: nat): int { if 80 - i < 60 then 60 else 80 - i }

  function Fixed(kind: Kind, tokens: Option<nat>, priority: int): seq<Block> {
    if tokens.Some? then [Block(kind, tokens.value, priority)] else []
  }

  function ByScoreDesc(): (Snippet, Snippet) -> bool {
    (a: Snippet, b: Snippet) => a.score >= b.score
  }

  function EvidenceBlocks(sorted: seq<Snippet>): (r: seq<Block>)
    ensures |r| == |sorted|
  {
    seq(|sorted|, i requires 0 <= i < |sorted| => Block(Evidence, sorted[i].tokens, EvidencePriority(i)))
  }

  function ToolBlocks(tools: seq<nat>): (r: seq<Block>)
    ensures |r| == |tools|
  {
    seq(|tools|, i requires 0 <= i < |tools| => Block(ToolResult, tools[i], 70))
  }

  function Head(input: Input): seq<Block> {
    Fixed(UserProfile, input.profile, 100) + Fixed(RecentTurns, input.turns, 90)
    + Fixed(SessionSummary, input.summary, 50) + Fixed(TaskScratchpad, input.scratchpad, 40)
  }

  function Candidates(input: Input): seq<Block> {
    Head(input) + EvidenceBlocks(SortBy(ByScoreDesc(), input.evidence)) + ToolBlocks(input.tools)
  }

  method AddEvidence(blocks0: seq<Block>, sorted: seq<Snippet>) returns (blocks: seq<Block>)
    ensures blocks == blocks0 + EvidenceBlocks(sorted)
  {
    blocks := blocks0;
    for i := 0 to |sorted|
      invariant blocks == blocks0 + EvidenceBlocks(sorted)[..i]
    {
      var priority := 80 - i;
      if priority < 60 {
        priority := 60;
      }
      blocks := blocks + [Block(Evidence, sorted[i].tokens, priority)];
    }
  }

  method AddTools(blocks0: seq<Block>, tools: seq<nat>) returns (blocks: seq<Block>)
    ensures blocks == blocks0 + ToolBlocks(tools)
  {
    blocks := blocks0;
    for i := 0 to |tools|
      invariant blocks == blocks0 + ToolBlocks(tools)[..i]
    {
      blocks := blocks + [Block(ToolResult, tools[i], 70)];
    }
  }

  function Present(part: Option<nat>): nat { if part.Some? then 1 else 0 }

  /** `from` lists the snippets by descending score, equal scores in request order. */
  ghost predicate ByScore(evidence: seq<Snippet>, from: seq<nat>) {
    && |from| == |evidence| && Within(from, |evidence|)
    && forall i, j :: 0 <= i < j < |from| ==>
         || evidence[from[i]].score > evidence[from[j]].score
         || (evidence[from[i]].score == evidence[from[j]].score && from[i] < from[j])
  }

  /** Where the evidence starts. */
  function EvidenceStart(input: Input): nat {
    Present(input.profile) + Present(input.turns) + Present(input.summary) + Present(input.scratchpad)
  }

  /** The fixed parts that are present come first, in this order and with these priorities. */
  ghost predicate FixedParts(input: Input, bs: seq<Block>) {
    var turns := Present(input.profile);
    var summary := turns + Present(input.turns);
    var scratchpad := summary + Present(input.summary);
    && |bs| >= EvidenceStart(input)
    && (input.profile.Some? ==> bs[0] == Block(UserProfile, input.profile.value, 100))
    && (input.turns.Some? ==> bs[turns] == Block(RecentTurns, input.turns.value, 90))
    && (input.summary.Some? ==> bs[summary] == Block(SessionSummary, input.summary.value, 50))
    && (input.scratchpad.Some? ==> bs[scratchpad] == Block(TaskScratchpad, input.scratchpad.value, 40))
  }

  /** After them the best snippet gets priority 80, each following one less, down to 60; tool results get 70. */
  ghost predicate Assembled(input: Input, from: seq<nat>, bs: seq<Block>)
    requires Within(from, |input.evidence|)
  {
    var e := EvidenceStart(input);
    && FixedParts(input, bs) && |bs| == e + |from| + |input.tools|
    && (forall i :: 0 <= i < |from| ==>
          bs[e + i] == Block(Evidence, input.evidence[from[i]].tokens, if i <= 20 then 80 - i else 60))
    && forall i :: 0 <= i < |input.tools| ==> bs[e + |from| + i] == Block(ToolResult, input.tools[i], 70)
  }

  ghost predicate IsCandidateList(input: Input, bs: seq<Block>) {
    exists from: seq<nat> :: ByScore(input.evidence, from) && Assembled(input, from, bs)
  }

  lemma ScoreOrder(evidence: seq<Snippet>) returns (from: seq<nat>)
    ensures ByScore(evidence, from)
    ensures var sorted := SortBy(ByScoreDesc(), evidence);
            |sorted| == |from| && forall i :: 0 <= i < |from| ==> sorted[i] == evidence[from[i]]
  {
    from := SortIsStable(ByScoreDesc(), evidence);
    hide SortBy;
  }

  lemma HeadIsFixed(input: Input, rest: seq<Block>)
    ensures |Head(input)| == EvidenceStart(input) && FixedParts(input, Head(input) + rest)
  {
  }

  lemma PartsAssembled(input: Input, from: seq<nat>, head: seq<Block>, es: seq<Block>, ts: seq<Block>, bs: seq<Block>)
    requires Within(from, |input.evidence|) && bs == head + es + ts && |head| == EvidenceStart(input)
    requires FixedParts(input, bs) && |es| == |from| && |ts| == |input.tools|
    requires forall i :: 0 <= i < |es| ==>
               es[i] == Block(Evidence, input.evidence[from[i]].tokens, if i <= 20 then 80 - i else 60)
    requires forall i :: 0 <= i < |ts| ==> ts[i] == Block(ToolResult, input.tools[i], 70)
    ensures Assembled(input, from, bs)
  {
    hide FixedParts, EvidenceStart;
  }

  lemma CandidatesAssembled(input: Input)
    ensures IsCandidateList(input, Candidates(input))
  {
    var from := ScoreOrder(input.evidence);
    var sorted := SortBy(ByScoreDesc(), input.evidence);
    var head, es, ts := Head(input), EvidenceBlocks(sorted), ToolBlocks(input.tools);
    HeadIsFixed(input, es + ts);
    assert head + es + ts == head + (es + ts);
    hide SortBy, Head, FixedParts, EvidenceStart;
    PartsAssembled(input, from, head, es, ts, Candidates(input));
    hide Assembled, Candidates;
  }

  /** What the eviction order makes of two snippets of which the first has the better place: the other goes first
      exactly when the first is among the twenty best. From there on all priorities are 60, and the better snippet
      goes first. */
  lemma EvidenceEvictionIff(input: Input, from: seq<nat>, bs: seq<Block>, i: nat, j: nat)
    requires ByScore(input.evidence, from) && Assembled(input, from, bs) && i < j < |from|
    ensures var e := |bs| - |input.tools| - |from|;
            && bs[e + i].priority >= bs[e + j].priority
            && input.evidence[from[i]].score >= input.evidence[from[j]].score
            && (Worse(bs, e + j, e + i) <==> i < 20)
            && (Worse(bs, e + i, e + j) <==> i >= 20)
  {
  }

  method CandidateBlocks(input: Input) returns (blocks: seq<Block>)
    ensures blocks == Candidates(input)
    ensures IsCandidateList(input, blocks)
  {
    CandidatesAssembled(input);
    hide EvidenceBlocks, ToolBlocks, SortBy, IsCandidateList;
    blocks := [];
    if input.profile.Some? {
      blocks := blocks + [Block(UserProfile, input.profile.value, 100)];
    }
    if input.turns.Some? {
      blocks := blocks + [Block(RecentTurns, input.turns.value, 90)];
    }
    if input.summary.Some? {
      blocks := blocks + [Block(SessionSummary, input.summary.value, 50)];
    }
    if input.scratchpad.Some? {
      blocks := blocks + [Block(TaskScratchpad, input.scratchpad.value, 40)];
    }
    blocks := AddEvidence(blocks, SortBy(ByScoreDesc(), input.evidence));
    blocks := AddTools(blocks, input.tools);
  }

  /** Without a scorer the first candidate is the best one unless it is a summary or scratchpad ahead of evidence or
      tool results, or the first of several tool results: then the safety net keeps the wrong block. */
  lemma FirstCandidateIsBestIff(input: Input)
    requires |Candidates(input)| > 0
    ensures Best(Candidates(input), 0) <==>
            || input.profile.Some? || input.turns.Some?
            || (if input.summary.Some? || input.scratchpad.Some? then input.evidence == [] && input.tools == []
                else input.evidence != [] || |input.tools| == 1)
  {
    var bs, h := Candidates(input), |Head(input)|;
    CandidatePriorities(input);
    HeadShape(input);
    hide Candidates, Head, EvidencePriority;
    FirstIsBest(bs);
    if input.profile.None? && input.turns.None? {
      if h > 0 && |bs| > h {
        assert bs[h].priority >= 70;
      } else if h == 0 && input.evidence == [] && |bs| > 1 {
        assert bs[1].priority == bs[0].priority;
      }
    }
  }

  /** The first block is the best exactly when every later one has a smaller priority. */
  lemma FirstIsBest(bs: seq<Block>)
    requires bs != []
    ensures Best(bs, 0) <==> forall i :: 0 < i < |bs| ==> bs[i].priority < bs[0].priority
  {
    if Best(bs, 0) {
      forall i | 0 < i < |bs| ensures bs[i].priority < bs[0].priority {
        assert Worse(bs, i, 0);
      }
    }
  }

  /** First the head, then evidence from 80 downwards (or from 60), then tool results at 70. */
  lemma CandidatePriorities(input: Input)
    ensures var (bs, h, e) := (Candidates(input), |Head(input)|, |input.evidence|);
            && |bs| == h + e + |input.tools|
            && (forall i :: 0 <= i < h ==> bs[i] == Head(input)[i])
            && (e > 0 ==> bs[h].priority == 80)
            && (forall i :: h < i < h + e ==> bs[i].priority < 80)
            && (forall i :: h <= i < h + e ==> bs[i].priority <= 80)
            && (forall i :: h + e <= i < |bs| ==> bs[i].priority == 70)
  {
    var bs, h, e := Candidates(input), |Head(input)|, |input.evidence|;
    assert forall i :: h <= i < h + e ==> bs[i].priority == EvidencePriority(i - h);
  }

  lemma HeadShape(input: Input)
    ensures var h := Head(input);
            && (h == [] <==> input.profile.None? && input.turns.None? && input.summary.None? && input.scratchpad.None?)
            && (forall i :: 0 < i < |h| ==> h[i].priority < h[0].priority)
            && (|h| > 0 ==>
                  if input.profile.Some? || input.turns.Some? then h[0].priority >= 90 else h[0].priority <= 50)
            && (forall i :: 0 <= i < |h| ==> h[i].priority <= 100)
  {
  }
}
