/** From search hits to prompt order: rerank, compress, filter for relevance, reorder. The answers of the language model
    come in by block index, as the fan-out delivers them. */
module Pipeline {
  import opened Common
  import opened Fusion
  import FanOut

  const RERANK_MAX_BLOCKS: nat := 15

  predicate Sorted(bs: seq<Block>) {
    forall i, j :: 0 <= i < j < |bs| ==> bs[i].rerankScore >= bs[j].rerankScore
  }

  /** `out` keeps some of the blocks in order: number i is made from block idx[i]; ids and rerank scores stay. */
  predicate Selects(blocks: seq<Block>, out: seq<Block>, idx: seq<nat>) {
    && |idx| == |out|
    && (forall i :: 0 <= i < |idx| ==> idx[i] < |blocks| && out[i].id == blocks[idx[i]].id
                                       && out[i].rerankScore == blocks[idx[i]].rerankScore)
    && (forall i, j :: 0 <= i < j < |idx| ==> idx[i] < idx[j])
  }

  lemma SelectionKeeps(blocks: seq<Block>, out: seq<Block>, idx: seq<nat>)
    requires Selects(blocks, out, idx)
    ensures Sorted(blocks) ==> Sorted(out)
    ensures UniqueIds(blocks) ==> UniqueIds(out)
    ensures forall id :: Lists(out, id) ==> Lists(blocks, id)
  {
  }

  // ---------- rerank ----------

  /** The parsed answer: None for a failed call, a cancelled context or an unreadable number. */
  function ParsedScore(answer: Option<real>): (r: real)
    ensures 0.0 <= r <= 10.0
    ensures answer.Some? && 0.0 <= answer.value <= 10.0 ==> r == answer.value
    ensures answer.None? ==> r == 5.0
    ensures answer.Some? && answer.value < 0.0 ==> r == 0.0
    ensures answer.Some? && answer.value > 10.0 ==> r == 10.0
  {
    match answer
    case None => 5.0
    case Some(x) => if x < 0.0 then 0.0 else if x > 10.0 then 10.0 else x
  }

  datatype Rated = Rated(block: Block, llmScore: real)

  predicate RatedBefore(x: Rated, y: Rated) {
    x.llmScore > y.llmScore || (x.llmScore == y.llmScore && StrLe(x.block.id, y.block.id))
  }

  function RateAll(blocks: seq<Block>, answer: nat -> Option<real>): (r: seq<Rated>)
    ensures |r| == |blocks|
  {
    seq(|blocks|, i requires 0 <= i < |blocks| => Rated(blocks[i], ParsedScore(answer(i))))
  }

  /** Whatever the schedule of the scoring goroutines, the slots that are sorted afterwards hold the rated blocks. */
  lemma AnyScheduleRates(blocks: seq<Block>, answer: nat -> Option<real>, ss: seq<FanOut.State<Rated>>,
                         ls: seq<FanOut.Label<Rated>>)
    requires FanOut.IsRun(|blocks|, ss, ls) && FanOut.AllDone(ss[|ls|])
    requires forall j :: 0 <= j < |ls| && ls[j].Write? ==>
               ls[j].i < |blocks| && ls[j].r == Rated(blocks[ls[j].i], ParsedScore(answer(ls[j].i)))
    ensures |ss[|ls|].slots| == |blocks|
    ensures forall i :: 0 <= i < |blocks| ==> ss[|ls|].slots[i] == Some(RateAll(blocks, answer)[i])
  {
    FanOut.FanOutIsSequentialMap(ss, ls, RateAll(blocks, answer));
  }

  /** `result` is a permutation of the candidates, each with its own score, ordered by score and then by id. */
  ghost predicate Reranked(candidates: seq<Block>, answer: nat -> Option<real>, rated: seq<Rated>, result: seq<Block>) {
    && multiset(rated) == multiset(RateAll(candidates, answer)) && SortedBy(RatedBefore, rated)
    && |result| == |rated|
    && forall i :: 0 <= i < |result| ==> result[i] == rated[i].block.(rerankScore := rated[i].llmScore / 10.0)
  }

  function Candidates(blocks: seq<Block>): (r: seq<Block>)
    ensures r <= blocks && |r| == if |blocks| > 15 then 15 else |blocks|
  {
    if |blocks| > RERANK_MAX_BLOCKS then blocks[..RERANK_MAX_BLOCKS] else blocks
  }

  lemma RatedOrder()
    ensures TotalPreorder(RatedBefore)
  {
    StrLeIsTotalOrder();
  }

  /** `answer` is None when no provider is configured. */
  method Rerank(blocks: seq<Block>, answer: Option<nat -> Option<real>>)
    returns (result: seq<Block>, ghost rated: seq<Rated>)
    ensures blocks == [] || answer.None? ==> result == blocks
    ensures blocks != [] && answer.Some? ==> Reranked(Candidates(blocks), answer.value, rated, result)
  {
    rated := [];
    if |blocks| == 0 || answer.None? {
      return blocks, rated;
    }
    var candidates := blocks;
    if |candidates| > RERANK_MAX_BLOCKS {
      candidates := candidates[..RERANK_MAX_BLOCKS];
    }
    var scored := SortBy(RatedBefore, RateAll(candidates, answer.value));
    RatedOrder();
    SortBySorts(RatedBefore, RateAll(candidates, answer.value));
    rated := scored;
    result := [];
    for i := 0 to |scored|
      invariant |result| == i
      invariant forall j :: 0 <= j < i ==> result[j] == scored[j].block.(rerankScore := scored[j].llmScore / 10.0)
    {
      result := result + [scored[i].block.(rerankScore := scored[i].llmScore / 10.0)];
    }
  }

  /** `r` is a candidate in which nothing but the rerank score is new: a tenth of the parsed answer for that
      candidate. */
  ghost predicate HoldsOwnScore(candidates: seq<Block>, answer: nat -> Option<real>, r: Block) {
    exists k: nat :: k < |candidates| && r == candidates[k].(rerankScore := ParsedScore(answer(k)) / 10.0)
  }

  lemma RatedMembers(candidates: seq<Block>, answer: nat -> Option<real>, rated: seq<Rated>, result: seq<Block>)
    requires Reranked(candidates, answer, rated, result)
    ensures |result| == |candidates| && forall i :: 0 <= i < |rated| ==> 0.0 <= rated[i].llmScore <= 10.0
    ensures forall i :: 0 <= i < |result| ==> HoldsOwnScore(candidates, answer, result[i])
    ensures forall id :: Lists(result, id) <==> Lists(candidates, id)
  {
    var all := RateAll(candidates, answer);
    assert |rated| == |multiset(rated)| == |all|;
    forall i | 0 <= i < |rated|
      ensures 0.0 <= rated[i].llmScore <= 10.0 && Lists(candidates, rated[i].block.id)
      ensures HoldsOwnScore(candidates, answer, result[i])
    {
      assert rated[i] in multiset(rated);
      assert rated[i] in all;
      var k :| 0 <= k < |all| && all[k] == rated[i];
      assert all[k] == Rated(candidates[k], ParsedScore(answer(k)));
    }
    forall id | Lists(candidates, id) ensures Lists(result, id) {
      var k :| 0 <= k < |candidates| && candidates[k].id == id;
      assert all[k] in multiset(all);
      assert all[k] in rated;
      var i :| 0 <= i < |rated| && rated[i] == all[k];
      assert result[i].id == id;
    }
  }

  /** Reranking sorts, scores within [0, 1], and neither adds nor repeats nor loses a candidate. */
  lemma RerankDelivers(candidates: seq<Block>, answer: nat -> Option<real>, rated: seq<Rated>, result: seq<Block>)
    requires Reranked(candidates, answer, rated, result)
    ensures Sorted(result) && |result| == |candidates|
    ensures forall i :: 0 <= i < |result| ==> 0.0 <= result[i].rerankScore <= 1.0
    ensures forall id :: Lists(result, id) <==> Lists(candidates, id)
    ensures UniqueIds(candidates) ==> UniqueIds(result)
    ensures forall i :: 0 <= i < |result| ==> HoldsOwnScore(candidates, answer, result[i])
    ensures forall i, j :: 0 <= i < j < |result| && result[i].rerankScore == result[j].rerankScore ==>
              StrLe(result[i].id, result[j].id)
  {
    RatedMembers(candidates, answer, rated, result);
    hide Lists, StrLe, HoldsOwnScore;
    forall i, j | 0 <= i < j < |result|
      ensures result[i].rerankScore >= result[j].rerankScore
      ensures result[i].rerankScore == result[j].rerankScore ==> StrLe(result[i].id, result[j].id)
    {
      assert RatedBefore(rated[i], rated[j]);
    }
    if UniqueIds(candidates) {
      RatedIdsUnique(RateAll(candidates, answer), rated);
    }
  }

  lemma RatedIdsUnique(xs: seq<Rated>, ys: seq<Rated>)
    requires multiset(xs) == multiset(ys)
    requires forall i, j :: 0 <= i < j < |xs| ==> xs[i].block.id != xs[j].block.id
    ensures forall i, j :: 0 <= i < j < |ys| ==> ys[i].block.id != ys[j].block.id
  {
    DistinctFromMultiset(xs, ys);
    forall i, j | 0 <= i < j < |ys| ensures ys[i].block.id != ys[j].block.id {
      assert ys[i] in multiset(xs) && ys[j] in multiset(xs);
      var a :| 0 <= a < |xs| && xs[a] == ys[i];
      var b :| 0 <= b < |xs| && xs[b] == ys[j];
      assert a != b;
    }
  }

  // ---------- compress ----------

  datatype Extract = CallFailed | Content(text: string, saysIrrelevant: bool)

  /** The trimmed answer replaces the text; a failed call keeps the block, an empty or "irrelevant" answer removes
      it. */
  function CompressOne(b: Block, e: Extract): (r: Option<Block>)
    ensures e.CallFailed? ==> r == Some(b)
    ensures e.Content? ==> (r.None? <==> e.text == "" || e.saysIrrelevant)
    ensures e.Content? && r.Some? ==>
              && r.value.text == e.text && r.value.id == b.id && r.value.chunkId == b.chunkId
              && r.value.score == b.score && r.value.rerankScore == b.rerankScore
  {
    match e
    case CallFailed => Some(b)
    case Content(text, saysIrrelevant) => if text == "" || saysIrrelevant then None else Some(b.(text := text))
  }

  /** Exactly the blocks that their own answer removes are gone, the others are as their answer leaves them. */
  ghost predicate Compressed(blocks: seq<Block>, extract: nat -> Extract, out: seq<Block>, idx: seq<nat>) {
    && Selects(blocks, out, idx)
    && (forall i :: 0 <= i < |out| ==> CompressOne(blocks[idx[i]], extract(idx[i])) == Some(out[i]))
    && (forall k: nat :: k < |blocks| && k !in idx ==> CompressOne(blocks[k], extract(k)) == None)
  }

  method Compress(blocks: seq<Block>, extract: Option<nat -> Extract>) returns (out: seq<Block>, ghost idx: seq<nat>)
    ensures Selects(blocks, out, idx)
    ensures extract.None? ==> out == blocks
    ensures extract.Some? ==> Compressed(blocks, extract.value, out, idx)
  {
    if extract.None? || |blocks| == 0 {
      return blocks, seq(|blocks|, i => i);
    }
    out, idx := [], [];
    for k := 0 to |blocks|
      invariant Selects(blocks, out, idx) && forall i :: 0 <= i < |idx| ==> idx[i] < k
      invariant forall i :: 0 <= i < |out| ==> CompressOne(blocks[idx[i]], extract.value(idx[i])) == Some(out[i])
      invariant forall m: nat :: m < k && m !in idx ==> CompressOne(blocks[m], extract.value(m)) == None
    {
      var r := CompressOne(blocks[k], extract.value(k));
      if r.Some? {
        out := out + [r.value];
        idx := idx + [k];
      }
    }
  }

  function CompressAll(blocks: seq<Block>, extract: nat -> Extract): (r: seq<Option<Block>>)
    ensures |r| == |blocks|
  {
    seq(|blocks|, i requires 0 <= i < |blocks| => CompressOne(blocks[i], extract(i)))
  }

  /** Whatever the schedule of the compressing goroutines, when the wait returns the result is the filled slots, in
      order: slot idx[i] holds block number i of the result, every other slot is empty. */
  lemma AnyScheduleCompresses(blocks: seq<Block>, extract: nat -> Extract, ss: seq<FanOut.State<Option<Block>>>,
                              ls: seq<FanOut.Label<Option<Block>>>, out: seq<Block>, idx: seq<nat>)
    requires FanOut.IsRun(|blocks|, ss, ls) && FanOut.AllDone(ss[|ls|])
    requires forall j :: 0 <= j < |ls| && ls[j].Write? ==>
               ls[j].i < |blocks| && ls[j].r == CompressOne(blocks[ls[j].i], extract(ls[j].i))
    requires Compressed(blocks, extract, out, idx)
    ensures var slots := ss[|ls|].slots;
            && |slots| == |blocks| && |idx| == |out|
            && (forall i :: 0 <= i < |out| ==> idx[i] < |blocks| && slots[idx[i]] == Some(Some(out[i])))
            && (forall k: nat :: k < |blocks| && k !in idx ==> slots[k] == Some(None))
  {
    FanOut.FanOutIsSequentialMap(ss, ls, CompressAll(blocks, extract));
    hide CompressOne;
  }

  // ---------- relevance filter ----------

  datatype Verdict = Relevant | Ambiguous | Irrelevant

  /** `lower` is the trimmed answer in lower case. The exact-match cases agree with the containment rule: an answer is
      irrelevant whenever it says so anywhere, and relevant only if it does not. */
  function ParseVerdict(lower: string): (v: Verdict)
    ensures v == Irrelevant <==> Contains(lower, "irrelevant") || Contains(lower, "not relevant")
    ensures v == Relevant <==>
              Contains(lower, "relevant") && !Contains(lower, "irrelevant") && !Contains(lower, "not relevant")
  {
    LiteralVerdicts();
    if lower == "relevant" then Relevant
    else if lower == "irrelevant" then Irrelevant
    else if lower == "ambiguous" then Ambiguous
    else if Contains(lower, "irrelevant") || Contains(lower, "not relevant") then Irrelevant
    else if Contains(lower, "relevant") then Relevant
    else Ambiguous
  }

  lemma {:induction false} ShortNeverContains(s: string, sub: string)
    requires |s| < |sub|
    ensures !Contains(s, sub)
  {
    if s != [] {
      ShortNeverContains(s[1..], sub);
    }
  }

  lemma LiteralVerdicts()
    ensures Contains("relevant", "relevant") && !Contains("relevant", "irrelevant")
            && !Contains("relevant", "not relevant")
    ensures Contains("irrelevant", "irrelevant")
    ensures !Contains("ambiguous", "relevant") && !Contains("ambiguous", "irrelevant")
            && !Contains("ambiguous", "not relevant")
  {
    ShortNeverContains("relevant", "irrelevant");
    ShortNeverContains("relevant", "not relevant");
    ShortNeverContains("ambiguous", "irrelevant");
    ShortNeverContains("ambiguous", "not relevant");
    var s := "ambiguous";
    assert s[0] == 'a' && s[1..][0] == 'm' && s[1..][1..] == s[2..];
    ShortNeverContains(s[2..], "relevant");
  }

  datatype Classified = Answered(lower: string) | ClassifyFailed | Cancelled

  /** A failed or cancelled call leaves a block ambiguous. */
  function VerdictOf(c: Classified): (v: Verdict)
    ensures !c.Answered? ==> v == Ambiguous
    ensures c.Answered? ==> (v == Irrelevant <==> Contains(c.lower, "irrelevant") || Contains(c.lower, "not relevant"))
  {
    if c.Answered? then ParseVerdict(c.lower) else Ambiguous
  }

  datatype CragStats = CragStats(total: nat, relevant: nat, ambiguous: nat, irrelevant: nat, errors: nat)

  datatype Provider = NoProvider | Placeholder | Model(classify: nat -> Classified)

  function Count(n: nat, p: nat -> bool): nat {
    if n == 0 then 0 else Count(n - 1, p) + (if p(n - 1) then 1 else 0)
  }

  lemma {:induction false} CountIsSize(n: nat, p: nat -> bool)
    ensures Count(n, p) == |set k: nat | k < n && p(k)|
  {
    if n > 0 {
      CountIsSize(n - 1, p);
      var front := set k: nat | k < n - 1 && p(k);
      assert (set k: nat | k < n && p(k)) == if p(n - 1) then front + {n - 1} else front;
    }
  }

  /** An ambiguous block loses half its score and nothing else. */
  function Kept(b: Block, v: Verdict): (r: Option<Block>)
    ensures r.None? <==> v == Irrelevant
    ensures v == Relevant ==> r == Some(b)
    ensures v == Ambiguous ==> r == Some(b.(score := r.value.score)) && r.value.score + r.value.score == b.score
  {
    match v
    case Relevant => Some(b)
    case Ambiguous => Some(b.(score := b.score * 0.5))
    case Irrelevant => None
  }

  function Judges(classify: nat -> Classified, v: Verdict): nat -> bool {
    (k: nat) => VerdictOf(classify(k)) == v
  }

  function Errs(classify: nat -> Classified): nat -> bool {
    (k: nat) => classify(k) == ClassifyFailed
  }

  lemma SizesByName(n: nat, classify: nat -> Classified)
    ensures forall v :: (set k: nat | k < n && Judges(classify, v)(k))
                        == (set k: nat | k < n && VerdictOf(classify(k)) == v)
    ensures (set k: nat | k < n && Errs(classify)(k)) == (set k: nat | k < n && classify(k) == ClassifyFailed)
  {
    hide VerdictOf;
  }

  /** Among the first k blocks exactly the irrelevant ones are gone, and the others are kept as their verdict says. */
  ghost predicate KeptByVerdict(blocks: seq<Block>, classify: nat -> Classified, k: nat, out: seq<Block>,
                                idx: seq<nat>) {
    && Selects(blocks, out, idx) && k <= |blocks| && (forall i :: 0 <= i < |idx| ==> idx[i] < k)
    && (forall i :: 0 <= i < |out| ==> Kept(blocks[idx[i]], VerdictOf(classify(idx[i]))) == Some(out[i]))
    && (forall m: nat :: m < k && m !in idx ==> VerdictOf(classify(m)) == Irrelevant)
  }

  lemma KeepNext(blocks: seq<Block>, classify: nat -> Classified, k: nat, out: seq<Block>, idx: seq<nat>)
    requires KeptByVerdict(blocks, classify, k, out, idx) && k < |blocks|
    ensures var kept := Kept(blocks[k], VerdictOf(classify(k)));
            if kept.Some? then KeptByVerdict(blocks, classify, k + 1, out + [kept.value], idx + [k])
            else KeptByVerdict(blocks, classify, k + 1, out, idx)
  {
    hide ParseVerdict;
    var kept := Kept(blocks[k], VerdictOf(classify(k)));
    assert (idx + [k])[|idx|] == k;
    forall m: nat | m < k + 1 && m !in idx + [k] ensures VerdictOf(classify(m)) == Irrelevant {
      assert m != k && m !in idx;
    }
  }

  predicate CountsOk(classify: nat -> Classified, k: nat, stats: CragStats) {
    && stats.relevant == Count(k, Judges(classify, Relevant))
    && stats.ambiguous == Count(k, Judges(classify, Ambiguous))
    && stats.errors == Count(k, Errs(classify))
    && stats.relevant + stats.ambiguous + stats.irrelevant == k && stats.errors <= stats.ambiguous
  }

  method ApplyVerdicts(blocks: seq<Block>, classify: nat -> Classified)
    returns (out: seq<Block>, stats: CragStats, ghost idx: seq<nat>)
    ensures KeptByVerdict(blocks, classify, |blocks|, out, idx) && CountsOk(classify, |blocks|, stats)
    ensures stats.total == |blocks| && |out| == stats.relevant + stats.ambiguous
  {
    hide ParseVerdict, KeptByVerdict;
    out, idx, stats := [], [], CragStats(|blocks|, 0, 0, 0, 0);
    assert KeptByVerdict(blocks, classify, 0, out, idx) by {
      NothingKept(blocks, classify);
    }
    for k := 0 to |blocks|
      invariant KeptByVerdict(blocks, classify, k, out, idx) && CountsOk(classify, k, stats)
      invariant stats.total == |blocks| && |out| == stats.relevant + stats.ambiguous
    {
      var c := classify(k);
      KeepNext(blocks, classify, k, out, idx);
      if c == ClassifyFailed {
        stats := stats.(errors := stats.errors + 1);
      }
      match VerdictOf(c) {
        case Relevant =>
          stats := stats.(relevant := stats.relevant + 1);
          out, idx := out + [blocks[k]], idx + [k];
        case Ambiguous =>
          stats := stats.(ambiguous := stats.ambiguous + 1);
          out, idx := out + [blocks[k].(score := blocks[k].score * 0.5)], idx + [k];
        case Irrelevant =>
          stats := stats.(irrelevant := stats.irrelevant + 1);
      }
    }
  }

  function ClassifyAll(n: nat, classify: nat -> Classified): (r: seq<Classified>)
    ensures |r| == n
  {
    seq(n, i requires 0 <= i < n => classify(i))
  }

  /** Whatever the schedule of the classifying goroutines, the blocks that are kept are those whose own slot does not
      say irrelevant, each as its slot's verdict says. */
  lemma AnyScheduleClassifies(blocks: seq<Block>, classify: nat -> Classified, ss: seq<FanOut.State<Classified>>,
                              ls: seq<FanOut.Label<Classified>>, out: seq<Block>, idx: seq<nat>)
    requires FanOut.IsRun(|blocks|, ss, ls) && FanOut.AllDone(ss[|ls|])
    requires forall j :: 0 <= j < |ls| && ls[j].Write? ==> ls[j].i < |blocks| && ls[j].r == classify(ls[j].i)
    requires KeptByVerdict(blocks, classify, |blocks|, out, idx)
    ensures var slots := ss[|ls|].slots;
            && |slots| == |blocks| && |idx| == |out| && (forall k :: 0 <= k < |slots| ==> slots[k].Some?)
            && (forall i :: 0 <= i < |out| ==>
                  idx[i] < |blocks| && Kept(blocks[idx[i]], VerdictOf(slots[idx[i]].value)) == Some(out[i]))
            && (forall k: nat :: k < |blocks| && k !in idx ==> VerdictOf(slots[k].value) == Irrelevant)
  {
    FanOut.FanOutIsSequentialMap(ss, ls, ClassifyAll(|blocks|, classify));
    hide VerdictOf, Kept;
  }

  lemma NothingKept(blocks: seq<Block>, classify: nat -> Classified)
    ensures KeptByVerdict(blocks, classify, 0, [], [])
  {
  }

  /** Irrelevant blocks go, ambiguous ones lose half their score; the statistics count what happened. */
  method CragFilter(blocks: seq<Block>, provider: Provider)
    returns (out: seq<Block>, stats: CragStats, ghost idx: seq<nat>)
    ensures Selects(blocks, out, idx)
    ensures !provider.Model? || |blocks| == 0 ==> out == blocks
    ensures provider.NoProvider? || |blocks| == 0 ==> stats == CragStats(0, 0, 0, 0, 0)
    ensures provider.Placeholder? && |blocks| > 0 ==> stats == CragStats(|blocks|, |blocks|, 0, 0, 0)
    ensures provider.Model? && |blocks| > 0 ==> KeptByVerdict(blocks, provider.classify, |blocks|, out, idx)
    ensures provider.Model? && |blocks| > 0 ==>
              && stats.total == |blocks|
              && stats.relevant == |set k: nat | k < |blocks| && VerdictOf(provider.classify(k)) == Relevant|
              && stats.ambiguous == |set k: nat | k < |blocks| && VerdictOf(provider.classify(k)) == Ambiguous|
              && stats.errors == |set k: nat | k < |blocks| && provider.classify(k) == ClassifyFailed|
    ensures stats.relevant + stats.ambiguous + stats.irrelevant == stats.total && stats.errors <= stats.ambiguous
    ensures stats.total > 0 ==> |out| == stats.relevant + stats.ambiguous
  {
    if |blocks| == 0 || provider.NoProvider? {
      return blocks, CragStats(0, 0, 0, 0, 0), seq(|blocks|, i => i);
    }
    if provider.Placeholder? {
      return blocks, CragStats(|blocks|, |blocks|, 0, 0, 0), seq(|blocks|, i => i);
    }
    out, stats, idx := ApplyVerdicts(blocks, provider.classify);
    CountIsSize(|blocks|, Judges(provider.classify, Relevant));
    CountIsSize(|blocks|, Judges(provider.classify, Ambiguous));
    CountIsSize(|blocks|, Errs(provider.classify));
    SizesByName(|blocks|, provider.classify);
  }

  // ---------- lost in the middle ----------

  /** Even ranks from the front, odd ranks from the back. */
  ghost predicate Interleaved<T>(xs: seq<T>, r: seq<T>) {
    && |r| == |xs|
    && (forall k :: 0 <= k && 2 * k < |xs| ==> r[k] == xs[2 * k])
    && (forall k :: 0 <= k && 2 * k + 1 < |xs| ==> r[|xs| - 1 - k] == xs[2 * k + 1])
  }

  method Reorder(blocks: seq<Block>) returns (r: seq<Block>)
    ensures |blocks| <= 2 ==> r == blocks
    ensures |blocks| > 2 ==> Interleaved(blocks, r)
  {
    if |blocks| <= 2 {
      return blocks;
    }
    var result := new Block[|blocks|](_ => blocks[0]);
    var left, right := 0, |blocks| - 1;
    for i := 0 to |blocks|
      invariant left == (i + 1) / 2 && right == |blocks| - 1 - i / 2
      invariant forall k :: 0 <= k && 2 * k < i ==> k < left && result[k] == blocks[2 * k]
      invariant forall k :: 0 <= k && 2 * k + 1 < i ==>
                right < |blocks| - 1 - k && result[|blocks| - 1 - k] == blocks[2 * k + 1]
    {
      if i % 2 == 0 {
        result[left] := blocks[i];
        left := left + 1;
      } else {
        result[right] := blocks[i];
        right := right - 1;
      }
    }
    r := result[..];
  }

  /** The place that block number i moves to. */
  function Place(n: nat, i: nat): nat
    requires i < n
  {
    if i % 2 == 0 then i / 2 else n - 1 - i / 2
  }

  lemma InterleavedPlaces<T>(xs: seq<T>, r: seq<T>, i: nat)
    requires Interleaved(xs, r) && i < |xs|
    ensures Place(|xs|, i) < |xs| && r[Place(|xs|, i)] == xs[i]
  {
    if i % 2 == 0 {
      assert 2 * (i / 2) == i;
    } else {
      assert 2 * (i / 2) + 1 == i;
    }
  }

  /** The block that stands at place p. */
  function From(n: nat, p: nat): (i: nat)
    requires p < n
    ensures i < n && Place(n, i) == p
  {
    if 2 * p < n then 2 * p else 2 * (n - 1 - p) + 1
  }

  ghost predicate Valley(bs: seq<Block>) {
    exists bottom: nat :: ValleyAt(bs, bottom)
  }

  ghost predicate ValleyAt(bs: seq<Block>, bottom: nat) {
    && (forall i, j :: 0 <= i < j < |bs| && j <= bottom ==> bs[i].rerankScore >= bs[j].rerankScore)
    && (forall i, j :: bottom <= i < j < |bs| ==> bs[i].rerankScore <= bs[j].rerankScore)
  }

  lemma PlacesFilled<T>(xs: seq<T>, r: seq<T>)
    requires Interleaved(xs, r)
    ensures |r| == |xs| && forall p :: 0 <= p < |xs| ==> r[p] == xs[From(|xs|, p)]
  {
    forall p | 0 <= p < |xs| ensures r[p] == xs[From(|xs|, p)] {
      InterleavedPlaces(xs, r, From(|xs|, p));
    }
  }

  lemma FromOrder(n: nat)
    ensures forall p, q :: 0 <= p < q < n && q <= n / 2 ==> From(n, p) < From(n, q)
    ensures forall p, q :: n / 2 <= p < q < n ==> From(n, p) > From(n, q)
    ensures forall p, q :: 0 <= p < q < n ==> From(n, p) != From(n, q)
  {
  }

  /** Reordering a sorted list keeps every block and puts the best two at the ends and the worst in the middle. */
  lemma ReorderMakesValley(blocks: seq<Block>, r: seq<Block>)
    requires Sorted(blocks) && Interleaved(blocks, r)
    ensures ValleyAt(r, |blocks| / 2)
    ensures |blocks| > 2 ==> r[0] == blocks[0] && r[|r| - 1] == blocks[1]
  {
    PlacesFilled(blocks, r);
    FromOrder(|blocks|);
    hide Interleaved, From;
    if |blocks| > 2 {
      EndsFrom(|blocks|);
    }
  }

  lemma EndsFrom(n: nat)
    requires n > 2
    ensures From(n, 0) == 0 && From(n, n - 1) == 1
  {
  }

  lemma ReorderKeepsBlocks(blocks: seq<Block>, r: seq<Block>)
    requires Interleaved(blocks, r)
    ensures forall id :: Lists(r, id) <==> Lists(blocks, id)
    ensures UniqueIds(blocks) ==> UniqueIds(r)
  {
    PlacesFilled(blocks, r);
    FromOrder(|blocks|);
    forall id | Lists(blocks, id) ensures Lists(r, id) {
      var i :| 0 <= i < |blocks| && blocks[i].id == id;
      InterleavedPlaces(blocks, r, i);
      assert r[Place(|blocks|, i)].id == id;
    }
    forall p, q | 0 <= p < q < |r| && UniqueIds(blocks) ensures r[p].id != r[q].id {
      var i, j := From(|blocks|, p), From(|blocks|, q);
      assert i < j ==> blocks[i].id != blocks[j].id;
      assert j < i ==> blocks[j].id != blocks[i].id;
    }
  }

  // ---------- the whole pipeline ----------

  /** What the later stages rely on: sorted, without repetitions, and only from `base`. */
  ghost predicate GoodEvidence(base: seq<Block>, bs: seq<Block>) {
    Sorted(bs) && UniqueIds(bs) && |bs| <= |base| && forall id :: Lists(bs, id) ==> Lists(base, id)
  }

  lemma RerankIsGood(base: seq<Block>, answer: nat -> Option<real>, rated: seq<Rated>, result: seq<Block>)
    requires UniqueIds(base) && Reranked(base, answer, rated, result)
    ensures GoodEvidence(base, result)
  {
    hide Reranked, Sorted, Lists, UniqueIds;
    RerankDelivers(base, answer, rated, result);
  }

  lemma SelectionIsGood(base: seq<Block>, blocks: seq<Block>, out: seq<Block>, idx: seq<nat>)
    requires GoodEvidence(base, blocks) && Selects(blocks, out, idx)
    ensures GoodEvidence(base, out)
  {
    SelectionKeeps(blocks, out, idx);
    SelectionShrinks(blocks, out, idx);
    hide Selects, Sorted, Lists, UniqueIds;
  }

  lemma ReorderIsGood(base: seq<Block>, blocks: seq<Block>, r: seq<Block>)
    requires GoodEvidence(base, blocks) && if |blocks| <= 2 then r == blocks else Interleaved(blocks, r)
    ensures Valley(r) && UniqueIds(r) && |r| <= |base| && forall id :: Lists(r, id) ==> Lists(base, id)
  {
    if |blocks| <= 2 {
      ShortIsValley(blocks);
    } else {
      ReorderMakesValley(blocks, r);
      ReorderKeepsBlocks(blocks, r);
    }
    hide Sorted, Lists, UniqueIds, ValleyAt;
  }

  /** The four stages as Handle runs them, with whichever of them are configured. */
  method Process(hits: seq<Block>, rerank: Option<nat -> Option<real>>, extract: Option<nat -> Extract>,
                 provider: Provider)
    returns (evidence: seq<Block>)
    requires UniqueIds(hits) && (rerank.Some? || Sorted(hits))
    ensures Valley(evidence) && UniqueIds(evidence)
    ensures forall id :: Lists(evidence, id) ==> Lists(if rerank.Some? then Candidates(hits) else hits, id)
    ensures rerank.Some? ==> |evidence| <= 15
  {
    var reranked, rated := Rerank(hits, rerank);
    ghost var base := if rerank.Some? then Candidates(hits) else hits;
    if rerank.Some? && hits != [] {
      RerankIsGood(base, rerank.value, rated, reranked);
    }
    assert GoodEvidence(base, reranked);
    hide GoodEvidence, Selects, Interleaved, Valley, Lists, UniqueIds, Reranked, Kept, CountsOk, KeptByVerdict;
    var compressed, idx1 := Compress(reranked, extract);
    SelectionIsGood(base, reranked, compressed, idx1);
    var filtered, stats, idx2 := CragFilter(compressed, provider);
    SelectionIsGood(base, compressed, filtered, idx2);
    evidence := Reorder(filtered);
    ReorderIsGood(base, filtered, evidence);
  }

  lemma ShortIsValley(bs: seq<Block>)
    requires Sorted(bs)
    ensures Valley(bs)
  {
    assert ValleyAt(bs, |bs|);
  }

  lemma SelectionShrinks(blocks: seq<Block>, out: seq<Block>, idx: seq<nat>)
    requires Selects(blocks, out, idx)
    ensures |out| <= |blocks|
  {
    StrictlyBelow(idx, |blocks|);
  }

  lemma {:induction false} StrictlyBelow(idx: seq<nat>, n: nat)
    requires forall i :: 0 <= i < |idx| ==> idx[i] < n
    requires forall i, j :: 0 <= i < j < |idx| ==> idx[i] < idx[j]
    ensures |idx| <= n
  {
    if idx != [] {
      StrictlyBelow(idx[..|idx| - 1], idx[|idx| - 1]);
    }
  }
}
