/** Comparing a candidate report with a baseline. */
module EvalRegression {
  import opened Common
  import opened EvalStore
  import opened EvalReport

  function IdSet(bs: seq<BadCase>): set<string> {
    set b | b in bs :: b.item.evalCaseId
  }

  /** The bad cases of `target` whose eval case is not among those of `reference`. */
  function Diff(reference: seq<BadCase>, target: seq<BadCase>): seq<BadCase> {
    if target == [] then []
    else
      var last, front := target[|target| - 1], Diff(reference, target[..|target| - 1]);
      if last.item.evalCaseId in IdSet(reference) then front else front + [last]
  }

  function Overlap(left: seq<BadCase>, right: seq<BadCase>): nat {
    if right == [] then 0
    else Overlap(left, right[..|right| - 1]) + (if right[|right| - 1].item.evalCaseId in IdSet(left) then 1 else 0)
  }

  method CollectIds(bs: seq<BadCase>) returns (ids: set<string>)
    ensures ids == IdSet(bs)
  {
    ids := {};
    for i := 0 to |bs|
      invariant ids == IdSet(bs[..i])
    {
      assert bs[..i + 1] == bs[..i] + [bs[i]];
      ids := ids + {bs[i].item.evalCaseId};
    }
    assert bs[..|bs|] == bs;
  }

  method DiffBadCases(reference: seq<BadCase>, target: seq<BadCase>) returns (diff: seq<BadCase>)
    ensures diff == Diff(reference, target)
  {
    var refIds := CollectIds(reference);
    diff := [];
    for i := 0 to |target|
      invariant diff == Diff(reference, target[..i])
    {
      assert target[..i + 1][..i] == target[..i];
      if target[i].item.evalCaseId !in refIds {
        diff := diff + [target[i]];
      }
    }
    assert target[..|target|] == target;
  }

  method OverlapEvalBadCases(left: seq<BadCase>, right: seq<BadCase>) returns (count: nat)
    ensures count == Overlap(left, right)
  {
    var leftIds := CollectIds(left);
    count := 0;
    for i := 0 to |right|
      invariant count == Overlap(left, right[..i])
    {
      assert right[..i + 1][..i] == right[..i];
      if right[i].item.evalCaseId in leftIds {
        count := count + 1;
      }
    }
    assert right[..|right|] == right;
  }

  datatype Thresholds = Thresholds(scoreDrop: real, newFailedMax: int)
  datatype Outcome = Regression | Stable | Improvement

  /** How good an outcome is. */
  function Rank(o: Outcome): nat {
    match o case Regression => 0 case Stable => 1 case Improvement => 2
  }

  function Classify(scoreDelta: real, newBad: nat, t: Thresholds): Outcome {
    if (t.scoreDrop > 0.0 && scoreDelta <= -t.scoreDrop) || newBad > t.newFailedMax then Regression
    else if scoreDelta > t.scoreDrop && newBad == 0 then Improvement
    else Stable
  }

  datatype Comparison = Comparison(
    verdict: Outcome, scoreDelta: real, passedDelta: int, failedDelta: int,
    newBad: seq<BadCase>, resolvedBad: seq<BadCase>)

  function Detect(baseline: Report, candidate: Report, t: Thresholds): Comparison {
    var newBad := Diff(baseline.badCases, candidate.badCases);
    var delta := candidate.averageScore - baseline.averageScore;
    Comparison(Classify(delta, |newBad|, t), delta, candidate.passedItems - baseline.passedItems,
               candidate.failedItems - baseline.failedItems, newBad, Diff(candidate.badCases, baseline.badCases))
  }

  // ---------- what a comparison says ----------

  /** `diff` lists, in order, exactly the entries of `target` whose eval case is not among those of `reference`. */
  ghost predicate Unlisted(reference: seq<BadCase>, target: seq<BadCase>, diff: seq<BadCase>) {
    exists at: seq<nat> :: Picks(reference, target, diff, at)
  }

  ghost predicate Picks(reference: seq<BadCase>, target: seq<BadCase>, diff: seq<BadCase>, at: seq<nat>) {
    && |at| == |diff|
    && (forall i :: 0 <= i < |at| ==>
          at[i] < |target| && diff[i] == target[at[i]] && diff[i].item.evalCaseId !in BadIds(reference))
    && (forall i, j :: 0 <= i < j < |at| ==> at[i] < at[j])
    && forall k :: 0 <= k < |target| && target[k].item.evalCaseId !in BadIds(reference) ==>
         exists i :: 0 <= i < |at| && at[i] == k
  }

  /** The comparison of a candidate with a baseline, in terms of the two reports alone. */
  ghost predicate Compares(baseline: Report, candidate: Report, t: Thresholds, c: Comparison) {
    && baseline.averageScore + c.scoreDelta == candidate.averageScore
    && baseline.passedItems + c.passedDelta == candidate.passedItems
    && baseline.failedItems + c.failedDelta == candidate.failedItems
    && Unlisted(baseline.badCases, candidate.badCases, c.newBad)
    && Unlisted(candidate.badCases, baseline.badCases, c.resolvedBad)
    && (c.verdict == Regression <==>
          || (t.scoreDrop > 0.0 && candidate.averageScore + t.scoreDrop <= baseline.averageScore)
          || |c.newBad| > t.newFailedMax)
    && (c.verdict == Improvement <==>
          && c.verdict != Regression && candidate.averageScore > baseline.averageScore + t.scoreDrop && c.newBad == [])
  }

  lemma PicksSnoc(reference: seq<BadCase>, front: seq<BadCase>, b: BadCase, diff: seq<BadCase>, at: seq<nat>)
    requires Picks(reference, front, diff, at)
    ensures b.item.evalCaseId in BadIds(reference) ==> Picks(reference, front + [b], diff, at)
    ensures b.item.evalCaseId !in BadIds(reference) ==> Picks(reference, front + [b], diff + [b], at + [|front|])
  {
    hide BadIds;
    var target := front + [b];
    assert forall k :: 0 <= k < |front| ==> target[k] == front[k];
    if b.item.evalCaseId !in BadIds(reference) {
      var more := at + [|front|];
      forall k | 0 <= k < |target| && target[k].item.evalCaseId !in BadIds(reference)
        ensures exists i :: 0 <= i < |more| && more[i] == k
      {
        if k < |front| {
          var i :| 0 <= i < |at| && at[i] == k;
          assert more[i] == k;
        } else {
          assert more[|at|] == k;
        }
      }
    }
  }

  lemma {:induction false} DiffPicks(reference: seq<BadCase>, target: seq<BadCase>) returns (at: seq<nat>)
    ensures Picks(reference, target, Diff(reference, target), at)
  {
    if target == [] {
      at := [];
    } else {
      var last, front := target[|target| - 1], target[..|target| - 1];
      at := DiffPicks(reference, front);
      SameIds(reference, last.item.evalCaseId);
      PicksSnoc(reference, front, last, Diff(reference, front), at);
      hide IdSet, BadIds, Picks;
      assert target == front + [last];
      if last.item.evalCaseId !in BadIds(reference) {
        at := at + [|front|];
      }
    }
  }

  lemma SameIds(bs: seq<BadCase>, id: string)
    ensures id in IdSet(bs) <==> id in BadIds(bs)
  {
    if id in IdSet(bs) {
      var b :| b in bs && b.item.evalCaseId == id;
      var k :| 0 <= k < |bs| && bs[k] == b;
      assert BadIds(bs)[k] == id;
    }
    if id in BadIds(bs) {
      var k :| 0 <= k < |bs| && BadIds(bs)[k] == id;
      assert bs[k] in bs;
    }
  }

  lemma DetectCompares(baseline: Report, candidate: Report, t: Thresholds)
    ensures Compares(baseline, candidate, t, Detect(baseline, candidate, t))
  {
    var newAt := DiffPicks(baseline.badCases, candidate.badCases);
    var resolvedAt := DiffPicks(candidate.badCases, baseline.badCases);
    hide Picks, Diff;
  }

  /** Against the same baseline, a candidate with no smaller average and no more new bad cases gets no worse verdict. */
  lemma BetterCandidateIsNoWorse(b: Report, c1: Report, c2: Report, t: Thresholds, r1: Comparison, r2: Comparison)
    requires Compares(b, c1, t, r1) && Compares(b, c2, t, r2)
    requires c1.averageScore <= c2.averageScore && |r2.newBad| <= |r1.newBad|
    ensures Rank(r1.verdict) <= Rank(r2.verdict)
  {
    hide Unlisted;
  }

  method DetectRegression(baseline: Report, candidate: Report, t: Thresholds) returns (c: Comparison)
    ensures c == Detect(baseline, candidate, t)
    ensures Compares(baseline, candidate, t, c)
  {
    DetectCompares(baseline, candidate, t);
    hide Unlisted, Diff, Compares;
    var newBad := DiffBadCases(baseline.badCases, candidate.badCases);
    var resolved := DiffBadCases(candidate.badCases, baseline.badCases);
    var scoreDelta := candidate.averageScore - baseline.averageScore;
    var isRegression := false;
    if t.scoreDrop > 0.0 && scoreDelta <= -t.scoreDrop {
      isRegression := true;
    }
    if |newBad| > t.newFailedMax {
      isRegression := true;
    }
    var verdict := Stable;
    if isRegression {
      verdict := Regression;
    } else if scoreDelta > t.scoreDrop && |newBad| == 0 {
      verdict := Improvement;
    }
    c := Comparison(verdict, scoreDelta, candidate.passedItems - baseline.passedItems,
                    candidate.failedItems - baseline.failedItems, newBad, resolved);
  }

  // ---------- counting ----------

  lemma {:induction false} DiffComplementsOverlap(reference: seq<BadCase>, target: seq<BadCase>)
    ensures |Diff(reference, target)| + Overlap(reference, target) == |target|
    ensures forall b :: b in Diff(reference, target) <==> b in target && b.item.evalCaseId !in IdSet(reference)
  {
    if target != [] {
      DiffComplementsOverlap(reference, target[..|target| - 1]);
      assert target == target[..|target| - 1] + [target[|target| - 1]];
    }
  }

  lemma LastIdIsNew(bad: seq<BadCase>)
    requires bad != [] && Distinct(BadIds(bad))
    ensures var n := |bad| - 1;
            && Distinct(BadIds(bad[..n])) && bad[n].item.evalCaseId !in IdSet(bad[..n])
            && IdSet(bad) == IdSet(bad[..n]) + {bad[n].item.evalCaseId}
  {
    var n, front := |bad| - 1, bad[..|bad| - 1];
    assert BadIds(front) == BadIds(bad)[..n] && bad == front + [bad[n]];
    forall b | b in front ensures b.item.evalCaseId != bad[n].item.evalCaseId {
      var k :| 0 <= k < n && front[k] == b;
      assert BadIds(bad)[k] != BadIds(bad)[n];
    }
  }

  lemma OneMore<T>(a: set<T>, b: set<T>, x: T)
    requires x !in b
    ensures |a * (b + {x})| == |a * b| + (if x in a then 1 else 0)
  {
    assert a * (b + {x}) == a * b + (if x in a then {x} else {});
  }

  lemma {:induction false} OverlapIsCommonIds(left: seq<BadCase>, right: seq<BadCase>)
    requires Distinct(BadIds(right))
    ensures Overlap(left, right) == |IdSet(left) * IdSet(right)|
  {
    if right == [] {
      assert IdSet(left) * IdSet(right) == {};
    } else {
      var n, front := |right| - 1, right[..|right| - 1];
      LastIdIsNew(right);
      OverlapIsCommonIds(left, front);
      OneMore(IdSet(left), IdSet(front), right[n].item.evalCaseId);
      hide IdSet, Distinct;
    }
  }

  /** The two overlap counts differ only through repeated ids; without repeats the new cases exceed the resolved
      ones by exactly the growth of the bad-case list. */
  lemma NewMinusResolved(b: Report, c: Report, t: Thresholds)
    ensures var r := Detect(b, c, t);
            && |r.newBad| + Overlap(b.badCases, c.badCases) == |c.badCases|
            && |r.resolvedBad| + Overlap(c.badCases, b.badCases) == |b.badCases|
            && (Distinct(BadIds(b.badCases)) && Distinct(BadIds(c.badCases)) ==>
                  |r.newBad| - |r.resolvedBad| == |c.badCases| - |b.badCases|)
  {
    DiffComplementsOverlap(b.badCases, c.badCases);
    DiffComplementsOverlap(c.badCases, b.badCases);
    if Distinct(BadIds(b.badCases)) && Distinct(BadIds(c.badCases)) {
      OverlapIsCommonIds(b.badCases, c.badCases);
      OverlapIsCommonIds(c.badCases, b.badCases);
      assert IdSet(b.badCases) * IdSet(c.badCases) == IdSet(c.badCases) * IdSet(b.badCases);
    }
  }

  /** End to end: for two finished runs over well-formed memberships the balance always holds. */
  lemma FinishedRunsBalance(d1: Detail, d2: Detail, t: Thresholds)
    requires WellFormedItems(d1.items) && d1.run.itemCount == |d1.items| && Terminal(d1.run.status)
    requires OnePerItem(d1.items, d1.results, if d1.run.status == Succeeded then ItemSucceeded else ItemFailed)
    requires WellFormedItems(d2.items) && d2.run.itemCount == |d2.items| && Terminal(d2.run.status)
    requires OnePerItem(d2.items, d2.results, if d2.run.status == Succeeded then ItemSucceeded else ItemFailed)
    ensures Build(d1).Success? && Build(d2).Success?
    ensures var (b, c) := (Build(d1).value, Build(d2).value);
            var r := Detect(b, c, t);
            && |r.newBad| - |r.resolvedBad| == |c.badCases| - |b.badCases|
            && forall x :: x in r.newBad <==> x in c.badCases && x.item.evalCaseId !in IdSet(b.badCases)
  {
    FinishedRunReports(d1);
    FinishedRunReports(d2);
    NewMinusResolved(Build(d1).value, Build(d2).value, t);
    DiffComplementsOverlap(Build(d1).value.badCases, Build(d2).value.badCases);
  }

  /** With a repeated id the balance fails: one candidate case listed twice is neither new nor resolved. */
  lemma RepeatedIdBreaksBalance(b: BadCase)
    ensures Diff([b], [b, b]) == [] && Diff([b, b], [b]) == []
  {
    assert b in [b] && b in [b, b];
    assert [b, b][..1] == [b] && [b][..0] == [];
    assert Diff([b], [b]) == [] && Diff([b, b], [b]) == [];
  }

  /** The verdict never worsens when the score delta grows and the new cases shrink. */
  lemma VerdictMonotone(d1: real, n1: nat, d2: real, n2: nat, t: Thresholds)
    requires d1 <= d2 && n2 <= n1
    ensures Rank(Classify(d1, n1, t)) <= Rank(Classify(d2, n2, t))
  {
  }

  /** Swapping the reports swaps new and resolved and negates every delta. After an improvement the reverse comparison
      is a regression exactly when the score threshold is positive or the resolved cases exceed the allowed number of
      new ones. */
  lemma ReverseComparison(b: Report, c: Report, t: Thresholds)
    ensures var (r, q) := (Detect(b, c, t), Detect(c, b, t));
            && q.newBad == r.resolvedBad && q.resolvedBad == r.newBad
            && q.scoreDelta == -r.scoreDelta && q.passedDelta == -r.passedDelta && q.failedDelta == -r.failedDelta
            && (r.verdict == Improvement ==>
                  (q.verdict == Regression <==> t.scoreDrop > 0.0 || |r.resolvedBad| > t.newFailedMax))
  {
  }
}
