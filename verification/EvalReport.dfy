/** Aggregating a finished run into a report, and comparing two reports. */
module EvalReport {
  import opened Common
  import opened EvalStore

  /** A consistent read of one run (GetRunDetail). */
  datatype Detail = Detail(run: Run, items: seq<Item>, results: seq<ItemResult>)

  datatype Summary = Summary(total: nat, recorded: nat, succeeded: nat, failed: nat, missing: nat)

  datatype BadCase = BadCase(item: Item, verdict: Verdict, detail: string, score: real)

  datatype Report = Report(
    id: string, runId: string, tenantId: string, datasetId: string, datasetName: string, runStatus: RunStatus,
    totalItems: nat, recordedResults: nat, passedItems: nat, failedItems: nat, missingResults: nat,
    averageScore: real, judgeVersion: string, badCases: seq<BadCase>, createdAt: int, readyAt: int)

  function CountStatus(rs: seq<ItemResult>, st: ItemStatus): nat {
    if rs == [] then 0 else CountStatus(rs[..|rs| - 1], st) + (if rs[|rs| - 1].status == st then 1 else 0)
  }

  lemma {:induction false} StatusCounts(rs: seq<ItemResult>)
    ensures CountStatus(rs, ItemSucceeded) + CountStatus(rs, ItemFailed) == |rs|
    ensures forall st :: (forall i :: 0 <= i < |rs| ==> rs[i].status == st) ==> CountStatus(rs, st) == |rs|
  {
    if rs != [] {
      StatusCounts(rs[..|rs| - 1]);
    }
  }

  /** summarizeRunResultsForTotal: no summary without results. */
  method Summarize(totalItems: nat, results: seq<ItemResult>) returns (r: Option<Summary>)
    ensures r == SummaryOf(totalItems, results)
    ensures r.Some? <==> results != []
    ensures r.Some? ==>
              && r.value.succeeded + r.value.failed == r.value.recorded == |results|
              && (totalItems > 0 ==> r.value.total == totalItems)
              && (r.value.missing > 0 <==> r.value.total > |results|)
              && (r.value.missing > 0 ==> r.value.recorded + r.value.missing == r.value.total)
  {
    StatusCounts(results);
    if |results| == 0 {
      return None;
    }
    var succeeded, failed := 0, 0;
    for i := 0 to |results|
      invariant succeeded == CountStatus(results[..i], ItemSucceeded) && failed == CountStatus(results[..i], ItemFailed)
    {
      assert results[..i + 1][..i] == results[..i];
      if results[i].status == ItemSucceeded {
        succeeded := succeeded + 1;
      } else {
        failed := failed + 1;
      }
    }
    assert results[..|results|] == results;
    var total := if totalItems == 0 then |results| else totalItems;
    var missing := 0;
    if total > |results| {
      missing := total - |results|;
    }
    r := Some(Summary(total, |results|, succeeded, failed, missing));
  }

  function SummaryOf(totalItems: nat, results: seq<ItemResult>): Option<Summary> {
    if results == [] then None
    else
      var total := if totalItems == 0 then |results| else totalItems;
      Some(Summary(total, |results|, CountStatus(results, ItemSucceeded), CountStatus(results, ItemFailed),
                   if total > |results| then total - |results| else 0))
  }

  function TotalScore(rs: seq<ItemResult>): real {
    if rs == [] then 0.0 else TotalScore(rs[..|rs| - 1]) + rs[|rs| - 1].score
  }

  function Least(rs: seq<ItemResult>): (m: real)
    requires rs != []
    ensures exists i :: 0 <= i < |rs| && rs[i].score == m
    ensures forall i :: 0 <= i < |rs| ==> m <= rs[i].score
  {
    if |rs| == 1 then rs[0].score
    else
      var rest := Least(rs[1..]);
      if rs[0].score < rest then rs[0].score else rest
  }

  function Greatest(rs: seq<ItemResult>): (m: real)
    requires rs != []
    ensures exists i :: 0 <= i < |rs| && rs[i].score == m
    ensures forall i :: 0 <= i < |rs| ==> rs[i].score <= m
  {
    if |rs| == 1 then rs[0].score
    else
      var rest := Greatest(rs[1..]);
      if rs[0].score > rest then rs[0].score else rest
  }

  lemma {:induction false} TotalScoreBetween(rs: seq<ItemResult>, lo: real, hi: real)
    requires forall i :: 0 <= i < |rs| ==> lo <= rs[i].score <= hi
    ensures lo * (|rs| as real) <= TotalScore(rs) <= hi * (|rs| as real)
  {
    if rs != [] {
      var front := rs[..|rs| - 1];
      TotalScoreBetween(front, lo, hi);
      assert |rs| as real == |front| as real + 1.0;
    }
  }

  function Mean(total: real, n: nat): real
    requires n > 0
  {
    total / (n as real)
  }

  /** TotalScore is the sum of the scores. */
  lemma TotalScoreIsSum(rs: seq<ItemResult>, x: ItemResult)
    ensures TotalScore([]) == 0.0 && TotalScore(rs + [x]) == TotalScore(rs) + x.score
  {
    assert (rs + [x])[..|rs|] == rs;
  }

  lemma MeanTimes(total: real, n: nat)
    requires n > 0
    ensures Mean(total, n) * (n as real) == total
  {
  }

  lemma MeanBounds(total: real, lo: real, hi: real, n: nat)
    requires n > 0 && lo * (n as real) <= total <= hi * (n as real)
    ensures lo <= Mean(total, n) <= hi
  {
  }

  lemma MeanBetween(rs: seq<ItemResult>)
    requires rs != []
    ensures Least(rs) <= Mean(TotalScore(rs), |rs|) <= Greatest(rs)
  {
    MeanWithin(rs, Least(rs), Greatest(rs));
  }

  lemma MeanWithin(rs: seq<ItemResult>, lo: real, hi: real)
    requires rs != [] && forall i :: 0 <= i < |rs| ==> lo <= rs[i].score <= hi
    ensures lo <= Mean(TotalScore(rs), |rs|) <= hi
  {
    hide Mean, TotalScore;
    TotalScoreBetween(rs, lo, hi);
    MeanBounds(TotalScore(rs), lo, hi, |rs|);
  }

  predicate Bad(r: ItemResult) {
    r.verdict == FailVerdict || r.status == ItemFailed
  }

  /** itemByCaseID: the last item carrying the id. */
  function Lookup(items: seq<Item>, id: string): Option<Item> {
    if items == [] then None
    else if items[|items| - 1].evalCaseId == id then Some(items[|items| - 1])
    else Lookup(items[..|items| - 1], id)
  }

  lemma {:induction false} LookupDistinct(items: seq<Item>, i: nat)
    requires i < |items| && Distinct(CaseIds(items))
    ensures Lookup(items, items[i].evalCaseId) == Some(items[i])
  {
    var last, front := |items| - 1, items[..|items| - 1];
    assert CaseIds(items)[i] == items[i].evalCaseId && CaseIds(items)[last] == items[last].evalCaseId;
    if i < last {
      assert CaseIds(front) == CaseIds(items)[..last];
      LookupDistinct(front, i);
    }
  }

  function BadCases(items: seq<Item>, rs: seq<ItemResult>): seq<BadCase> {
    if rs == [] then []
    else
      var r, front := rs[|rs| - 1], BadCases(items, rs[..|rs| - 1]);
      match Lookup(items, r.evalCaseId)
      case None => front
      case Some(item) => if Bad(r) then front + [BadCase(item, r.verdict, r.detail, r.score)] else front
  }

  function JudgeVersions(rs: seq<ItemResult>): seq<string> {
    if rs == [] then []
    else
      var v, front := rs[|rs| - 1].judgeVersion, JudgeVersions(rs[..|rs| - 1]);
      if v == "" || v in front then front else front + [v]
  }

  function CollapseSingle(values: seq<string>): string {
    if |values| == 1 then values[0] else ""
  }

  function ReportOf(d: Detail, s: Summary): Report {
    Report("eval-report-" + d.run.id, d.run.id, d.run.tenantId, d.run.datasetId, d.run.datasetName, d.run.status,
           s.total, s.recorded, s.succeeded, s.failed, s.missing,
           if s.recorded > 0 then Mean(TotalScore(d.results), s.recorded) else 0.0,
           CollapseSingle(JudgeVersions(d.results)), BadCases(d.items, d.results),
           d.run.createdAt, if d.run.finishedAt == 0 then d.run.updatedAt else d.run.finishedAt)
  }

  predicate Terminal(st: RunStatus) { st == Succeeded || st == Failed }

  function Build(d: Detail): Result<Report, Error> {
    match SummaryOf(d.run.itemCount, d.results)
    case None => Failure(Invalid)
    case Some(s) => if Terminal(d.run.status) then Success(ReportOf(d, s)) else Failure(Invalid)
  }

  /** What a report says of its run, and the mean as the number that the scores add up to. */
  predicate ReportsOn(d: Detail, r: Report) {
    && r.runId == d.run.id && r.tenantId == d.run.tenantId && r.runStatus == d.run.status
    && r.datasetId == d.run.datasetId && r.datasetName == d.run.datasetName
    && r.createdAt == d.run.createdAt
    && r.readyAt == (if d.run.finishedAt != 0 then d.run.finishedAt else d.run.updatedAt)
    && r.recordedResults == |d.results| && r.averageScore * (|d.results| as real) == TotalScore(d.results)
  }

  lemma BuildReports(d: Detail)
    ensures Build(d).Success? <==> d.results != [] && d.run.status in {Succeeded, Failed}
    ensures Build(d).Success? ==> ReportsOn(d, Build(d).value)
  {
    hide Mean;
    if d.results != [] {
      MeanTimes(TotalScore(d.results), |d.results|);
    }
  }

  method BuildEvalReport(d: Detail) returns (r: Result<Report, Error>)
    ensures r == Build(d)
    ensures r.Success? <==> d.results != [] && d.run.status in {Succeeded, Failed}
    ensures r.Success? ==> ReportsOn(d, r.value)
  {
    BuildReports(d);
    hide ReportsOn;
    if d.run.status != Succeeded && d.run.status != Failed {
      return Failure(Invalid);
    }
    var summary := Summarize(d.run.itemCount, d.results);
    if summary.None? {
      return Failure(Invalid);
    }
    var s := summary.value;
    var byCase: map<string, Item> := map[];
    assert d.items[..0] == [];
    for i := 0 to |d.items|
      invariant forall id :: Lookup(d.items[..i], id) == if id in byCase then Some(byCase[id]) else None
    {
      assert d.items[..i + 1][..i] == d.items[..i];
      byCase := byCase[d.items[i].evalCaseId := d.items[i]];
    }
    assert d.items[..|d.items|] == d.items;
    var badCases: seq<BadCase>, versions: seq<string>, total := [], [], 0.0;
    for k := 0 to |d.results|
      invariant badCases == BadCases(d.items, d.results[..k])
      invariant versions == JudgeVersions(d.results[..k]) && total == TotalScore(d.results[..k])
    {
      assert d.results[..k + 1][..k] == d.results[..k];
      var x := d.results[k];
      total := total + x.score;
      if x.judgeVersion != "" && x.judgeVersion !in versions {
        versions := versions + [x.judgeVersion];
      }
      if x.evalCaseId in byCase {
        if x.verdict == FailVerdict || x.status == ItemFailed {
          badCases := badCases + [BadCase(byCase[x.evalCaseId], x.verdict, x.detail, x.score)];
        }
      }
    }
    assert d.results[..|d.results|] == d.results;
    var average := 0.0;
    if s.recorded > 0 {
      average := total / (s.recorded as real);
    }
    var readyAt := d.run.finishedAt;
    if readyAt == 0 {
      readyAt := d.run.updatedAt;
    }
    r := Success(Report("eval-report-" + d.run.id, d.run.id, d.run.tenantId, d.run.datasetId, d.run.datasetName,
                        d.run.status, s.total, s.recorded, s.succeeded, s.failed, s.missing, average,
                        if |versions| == 1 then versions[0] else "", badCases, d.run.createdAt, readyAt));
  }

  // ---------- what a report says about a run ----------

  function BadIndices(rs: seq<ItemResult>): seq<nat> {
    if rs == [] then []
    else BadIndices(rs[..|rs| - 1]) + (if Bad(rs[|rs| - 1]) then [|rs| - 1] else [])
  }

  lemma {:induction false} BadIndicesExact(rs: seq<ItemResult>)
    ensures forall k :: 0 <= k < |BadIndices(rs)| ==> BadIndices(rs)[k] < |rs| && Bad(rs[BadIndices(rs)[k]])
    ensures forall i, j :: 0 <= i < j < |BadIndices(rs)| ==> BadIndices(rs)[i] < BadIndices(rs)[j]
    ensures forall i: nat :: i < |rs| && Bad(rs[i]) ==> i in BadIndices(rs)
  {
    if rs != [] {
      var n, front := |rs| - 1, rs[..|rs| - 1];
      BadIndicesExact(front);
      var at := BadIndices(front);
      assert forall k :: 0 <= k < |at| ==> front[at[k]] == rs[at[k]];
      forall i: nat | i < |rs| && Bad(rs[i]) ensures i in BadIndices(rs) {
        if i < n {
          assert front[i] == rs[i] && i in at;
        } else {
          assert BadIndices(rs) == at + [n];
        }
      }
    }
  }

  /** The bad cases are the bad items, in item order, with the item's own lineage and the result's verdict,
      detail and score. */
  ghost predicate ListsBadItems(items: seq<Item>, rs: seq<ItemResult>, bad: seq<BadCase>) {
    var at := BadIndices(rs);
    && |bad| == |at|
    && forall k :: 0 <= k < |at| ==>
         && at[k] < |rs| && at[k] < |items|
         && bad[k] == BadCase(items[at[k]], rs[at[k]].verdict, rs[at[k]].detail, rs[at[k]].score)
  }

  lemma {:induction false} BadCasesListed(items: seq<Item>, rs: seq<ItemResult>)
    requires Distinct(CaseIds(items)) && |rs| <= |items|
    requires forall i :: 0 <= i < |rs| ==> rs[i].evalCaseId == items[i].evalCaseId
    ensures ListsBadItems(items, rs, BadCases(items, rs))
  {
    if rs != [] {
      var n, front := |rs| - 1, rs[..|rs| - 1];
      BadCasesListed(items, front);
      LookupDistinct(items, n);
      assert forall k :: 0 <= k < |BadIndices(front)| ==> front[BadIndices(front)[k]] == rs[BadIndices(front)[k]];
    }
  }

  function BadIds(bs: seq<BadCase>): (r: seq<string>)
    ensures |r| == |bs| && forall i :: 0 <= i < |bs| ==> r[i] == bs[i].item.evalCaseId
  {
    seq(|bs|, i requires 0 <= i < |bs| => bs[i].item.evalCaseId)
  }

  lemma BadIdsDistinct(items: seq<Item>, rs: seq<ItemResult>, bad: seq<BadCase>)
    requires Distinct(CaseIds(items)) && ListsBadItems(items, rs, bad)
    ensures Distinct(BadIds(bad))
  {
    var at := BadIndices(rs);
    BadIndicesExact(rs);
    forall i, j | 0 <= i < j < |bad| ensures BadIds(bad)[i] != BadIds(bad)[j] {
      assert CaseIds(items)[at[i]] != CaseIds(items)[at[j]];
    }
  }

  /** The report `r` is a complete account of the items of its run and their results `rs`. */
  ghost predicate ReportOk(r: Report, items: seq<Item>, rs: seq<ItemResult>) {
    && Terminal(r.runStatus)
    && OnePerItem(items, rs, if r.runStatus == Succeeded then ItemSucceeded else ItemFailed)
    && r.passedItems + r.failedItems == r.recordedResults == r.totalItems == |items|
    && r.missingResults == 0
    && r.passedItems == (if r.runStatus == Succeeded then |items| else 0)
    && ListsBadItems(items, rs, r.badCases)
    && rs != [] && Least(rs) <= r.averageScore <= Greatest(rs)
  }

  /** A finished run over a well-formed membership always yields a report, and the report is complete: every item is
      counted once, nothing is missing, the mean lies within the scores of the run's results, and the bad cases are
      exactly the items with a bad result. */
  lemma FinishedRunReports(d: Detail)
    requires WellFormedItems(d.items) && d.run.itemCount == |d.items| && Terminal(d.run.status)
    requires OnePerItem(d.items, d.results, if d.run.status == Succeeded then ItemSucceeded else ItemFailed)
    ensures Build(d).Success? && ReportOk(Build(d).value, d.items, d.results)
    ensures Distinct(BadIds(Build(d).value.badCases))
    ensures Build(d).value.runId == d.run.id && Build(d).value.runStatus == d.run.status
  {
    var rs := d.results;
    StatusCounts(rs);
    var r := Build(d).value;
    BadCasesListed(d.items, rs);
    BadIdsDistinct(d.items, rs, r.badCases);
    MeanBetween(rs);
  }

  /** Without results, or before the end, no report is built. */
  lemma ReportNeedsResults(d: Detail)
    ensures Build(d).Failure? <==> d.results == [] || !Terminal(d.run.status)
  {
  }

  lemma {:induction false} JudgeVersionsAre(rs: seq<ItemResult>)
    ensures Distinct(JudgeVersions(rs))
    ensures forall v :: v in JudgeVersions(rs) <==> v != "" && exists i :: 0 <= i < |rs| && rs[i].judgeVersion == v
  {
    if rs != [] {
      var front := rs[..|rs| - 1];
      JudgeVersionsAre(front);
      assert forall i :: 0 <= i < |front| ==> front[i] == rs[i];
      forall v | v in JudgeVersions(rs) ensures v != "" && exists i :: 0 <= i < |rs| && rs[i].judgeVersion == v {
        if v in JudgeVersions(front) {
          var i :| 0 <= i < |front| && front[i].judgeVersion == v;
          assert rs[i].judgeVersion == v;
        } else {
          assert rs[|rs| - 1].judgeVersion == v;
        }
      }
    }
  }

  lemma SingleValue(vs: seq<string>, v: string)
    requires Distinct(vs) && v in vs && forall u :: u in vs ==> u == v
    ensures vs == [v]
  {
    assert 0 == |vs| - 1 || vs[0] != vs[|vs| - 1];
    assert vs[0] in vs && vs[|vs| - 1] in vs;
  }

  /** A report names a judge version exactly when one non-empty version judged the run. */
  lemma ReportNamesOneJudge(d: Detail, v: string)
    requires Build(d).Success? && v != ""
    ensures Build(d).value.judgeVersion == v <==>
              && (exists i :: 0 <= i < |d.results| && d.results[i].judgeVersion == v)
              && (forall i :: 0 <= i < |d.results| ==> d.results[i].judgeVersion in {"", v})
  {
    var vs := JudgeVersions(d.results);
    JudgeVersionsAre(d.results);
    if |vs| == 1 && vs[0] == v {
      assert v in vs;
      forall i | 0 <= i < |d.results| ensures d.results[i].judgeVersion in {"", v} {
        var u := d.results[i].judgeVersion;
        assert u != "" ==> u in vs;
      }
    }
    if (exists i :: 0 <= i < |d.results| && d.results[i].judgeVersion == v)
       && forall i :: 0 <= i < |d.results| ==> d.results[i].judgeVersion in {"", v} {
      assert v in vs;
      SingleValue(vs, v);
    }
  }
}
