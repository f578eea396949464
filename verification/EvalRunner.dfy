/** The in-memory eval store as an object, the dataset and run services over it, and the worker batch. */
module EvalRunner {
  import opened Common
  import opened EvalStore
  import opened EvalReport
  import opened EvalEngine

  class MemoryStore {
    var datasets: map<string, Dataset>
    var runs: map<string, Run>
    var items: map<string, seq<Item>>
    var results: map<string, seq<ItemResult>>
    var events: map<string, seq<RunEvent>>
    var nextEvent: nat
    var reports: map<string, Report>

    function State(): EvalState
      reads this
    {
      EvalState(datasets, runs, items, results, events, nextEvent)
    }

    constructor ()
      ensures State() == EMPTY && reports == map[]
    {
      datasets, runs, items, results, events, nextEvent, reports := map[], map[], map[], map[], map[], 0, map[];
    }

    method WriteRun(run: Run, action: Action, actor: string, detail: string, at: int)
      modifies this`runs, this`events, this`nextEvent
      ensures State() == PutRun(old(State()), run, action, actor, detail, at)
    {
      runs := runs[run.id := run];
      nextEvent := nextEvent + 1;
      var log := if run.id in events then events[run.id] else [];
      events := events[run.id := log + [RunEvent(nextEvent, run.id, action, actor, detail, at)]];
    }

    method CreateRun(run: Run, members: seq<Item>)
      modifies this
      ensures State() == EvalStore.CreateRun(old(State()), run, members) && reports == old(reports)
      ensures runs == old(runs)[run.id := run] && items == old(items)[run.id := members]
      ensures OneEvent(old(State()), State(), run.id, ActCreated, run.createdBy, StatusName(run.status), run.createdAt)
    {
      WriteRun(run, ActCreated, run.createdBy, StatusName(run.status), run.createdAt);
      items := items[run.id := members];
    }

    method GetRunDetail(id: string) returns (r: Result<Detail, Error>)
      ensures r == if id in runs then Success(DetailOf(State(), id)) else Failure(NotFound)
    {
      if id !in runs {
        return Failure(NotFound);
      }
      r := Success(Detail(runs[id], if id in items then items[id] else [], if id in results then results[id] else []));
    }

    method RetryRun(id: string, at: int) returns (r: Result<Run, Error>)
      requires KeyedById(State())
      modifies this
      ensures var x := Retry(old(State()), id, at);
              && State() == OrSame(old(State()), x) && reports == old(reports)
              && r == if x.Success? then Success(x.value.runs[id]) else Failure(x.error)
      ensures r.Failure? ==> r.error == (if id in old(runs) then InvalidState else NotFound) && State() == old(State())
      ensures r.Success? <==> id in old(runs) && old(runs)[id].status == Failed
      ensures r.Success? ==>
                && r.value == old(runs)[id].(status := Queued, errorReason := "", updatedAt := at, startedAt := 0,
                                             finishedAt := 0)
                && runs == old(runs)[id := r.value] && results == old(results) - {id}
                && OneEvent(old(State()), State(), id, ActRetried, "operator", "queued", at)
    {
      if id !in runs {
        return Failure(NotFound);
      }
      var run := runs[id];
      if run.status != Failed {
        return Failure(InvalidState);
      }
      run := run.(status := Queued, errorReason := "", updatedAt := at, startedAt := 0, finishedAt := 0);
      results := results - {id};
      WriteRun(run, ActRetried, "operator", StatusName(run.status), at);
      r := Success(run);
    }

    /** MarkRunSucceeded and MarkRunFailed. */
    method MarkRun(id: string, how: Ending, at: int, rs: seq<ItemResult>) returns (r: Result<Run, Error>)
      requires KeyedById(State())
      modifies this
      ensures var x := Mark(old(State()), id, how, at, rs);
              && State() == OrSame(old(State()), x) && reports == old(reports)
              && r == if x.Success? then Success(x.value.runs[id]) else Failure(x.error)
      ensures r.Failure? ==> r.error == (if id in old(runs) then InvalidState else NotFound) && State() == old(State())
      ensures r.Success? <==> id in old(runs) && old(runs)[id].status == Running
      ensures r.Success? ==> runs == old(runs)[id := r.value] && results == old(results)[id := rs]
      ensures r.Success? ==>
                var was := old(runs)[id];
                match how
                case EndSucceeded =>
                  && r.value == was.(status := Succeeded, errorReason := "", updatedAt := at, finishedAt := at)
                  && OneEvent(old(State()), State(), id, ActSucceeded, "worker", "succeeded", at)
                case EndFailed(reason) =>
                  && r.value == was.(status := Failed, errorReason := reason, updatedAt := at, finishedAt := at)
                  && OneEvent(old(State()), State(), id, ActFailed, "worker", reason, at)
    {
      if id !in runs {
        return Failure(NotFound);
      }
      var run := runs[id];
      if run.status != Running {
        return Failure(InvalidState);
      }
      run := run.(status := how.Status(), errorReason := how.Reason(), updatedAt := at, finishedAt := at);
      results := results[id := rs];
      WriteRun(run, how.Act(), "worker", how.Detail(), at);
      r := Success(run);
    }

    method QueuedRuns() returns (queued: seq<Run>)
      requires KeyedById(State())
      ensures Distinct(queued)
      ensures forall t :: t in queued <==> t.id in runs && runs[t.id] == t && t.status == Queued
    {
      queued := [];
      var rest := runs.Keys;
      while rest != {}
        invariant rest <= runs.Keys
        invariant Distinct(queued)
        invariant forall t :: t in queued <==> t.id in runs && t.id !in rest && runs[t.id] == t && t.status == Queued
        decreases rest
      {
        var id :| id in rest;
        rest := rest - {id};
        if runs[id].status == Queued {
          queued := queued + [runs[id]];
        }
      }
    }

    method MarkOne(row: Run, now: int) returns (run: Run)
      requires row.id in runs && runs[row.id] == row
      modifies this`runs, this`events, this`nextEvent
      ensures State() == ClaimOne(old(State()), row.id, now) && run == ClaimedRun(row, now)
    {
      run := row.(status := Running, errorReason := "", updatedAt := now);
      if run.startedAt == 0 {
        run := run.(startedAt := now);
      }
      WriteRun(run, ActClaimed, "worker", StatusName(run.status), now);
    }

    method MarkClaimed(batch: seq<Run>, now: int) returns (claimed: seq<Run>)
      requires KeyedById(State()) && Distinct(RunIds(batch))
      requires forall t :: t in batch ==> t.id in runs && runs[t.id] == t
      requires forall id :: id in RunIds(batch) ==> id in runs
      modifies this`runs, this`events, this`nextEvent
      ensures State() == ClaimAll(old(State()), RunIds(batch), now)
      ensures |claimed| == |batch| && forall k :: 0 <= k < |batch| ==> claimed[k] == ClaimedRun(batch[k], now)
    {
      claimed := [];
      ghost var s0 := State();
      NoneClaimed(s0, batch, now);
      hide ClaimedUpTo, ClaimAll, ClaimOne, KeyedById, ClaimedRun, Distinct, RunIds;
      for i := 0 to |batch|
        invariant ClaimedUpTo(s0, batch, i, now, State())
        invariant |claimed| == i
        invariant forall k :: 0 <= k < i ==> claimed[k] == ClaimedRun(batch[k], now)
      {
        ClaimNextRow(s0, batch, i, now, State());
        var row := MarkOne(batch[i], now);
        claimed := claimed + [row];
      }
      AllClaimed(s0, batch, now, State());
    }

    method ClaimQueuedRuns(limit: nat, now: int) returns (claimed: seq<Run>)
      requires KeyedById(State())
      modifies this`runs, this`events, this`nextEvent
      ensures ClaimBatch(old(State()), limit, RunIds(claimed))
      ensures State() == ClaimAll(old(State()), RunIds(claimed), now)
      ensures forall k :: 0 <= k < |claimed| ==> claimed[k] == ClaimedRun(old(runs)[claimed[k].id], now)
    {
      var queued := QueuedRuns();
      var batch := SortBy(ClaimsBefore, queued);
      SortedQueue(queued, batch);
      CutIsBatch(State(), limit, batch);
      var n := limit;
      if n > |batch| {
        n := |batch|;
      }
      claimed := MarkClaimed(batch[..n], now);
      assert RunIds(claimed) == RunIds(batch[..n]);
      assert forall k :: 0 <= k < n ==> batch[..n][k] in batch[..n];
    }

    method SaveEvalReport(report: Report)
      modifies this`reports
      ensures reports == old(reports)[report.runId := report]
    {
      reports := reports[report.runId := report];
    }

    method AddDatasetItem(datasetId: string, item: Item, at: int) returns (r: Result<Dataset, Error>)
      modifies this`datasets
      ensures var x := AddItem(old(State()), datasetId, item, at);
              && State() == OrSame(old(State()), x)
              && r == if x.Success? then Success(x.value.datasets[datasetId]) else Failure(x.error)
      ensures r.Failure? <==> datasetId !in old(datasets)
      ensures r.Success? ==>
                var d := old(datasets)[datasetId];
                if exists i :: 0 <= i < |d.items| && d.items[i].evalCaseId == item.evalCaseId
                then r.value == d && datasets == old(datasets)
                else r.value == d.(items := d.items + [item], updatedAt := at)
                     && datasets == old(datasets)[datasetId := r.value]
    {
      if datasetId !in datasets {
        return Failure(NotFound);
      }
      var dataset := datasets[datasetId];
      for i := 0 to |dataset.items|
        invariant item.evalCaseId !in CaseIds(dataset.items)[..i]
      {
        if dataset.items[i].evalCaseId == item.evalCaseId {
          assert CaseIds(dataset.items)[i] == item.evalCaseId;
          return Success(dataset);
        }
      }
      assert CaseIds(dataset.items)[..|dataset.items|] == CaseIds(dataset.items);
      dataset := dataset.(items := dataset.items + [item], updatedAt := at);
      datasets := datasets[datasetId := dataset];
      r := Success(dataset);
    }
  }

  function RunIds(rs: seq<Run>): (r: seq<string>)
    ensures |r| == |rs| && forall i :: 0 <= i < |rs| ==> r[i] == rs[i].id
  {
    seq(|rs|, i requires 0 <= i < |rs| => rs[i].id)
  }

  lemma ClaimNext(s: EvalState, ids: seq<string>, i: nat, now: int)
    requires KeyedById(s) && Distinct(ids) && i < |ids|
    requires forall id :: id in ids ==> id in s.runs
    ensures ClaimAll(s, ids[..i], now).runs.Keys == s.runs.Keys
    ensures ClaimAll(s, ids[..i], now).runs[ids[i]] == s.runs[ids[i]]
    ensures ClaimAll(s, ids[..i + 1], now) == ClaimOne(ClaimAll(s, ids[..i], now), ids[i], now)
  {
    assert ids[..i + 1][..i] == ids[..i] && ids[i] !in ids[..i];
    ClaimAllRows(s, ids[..i], now);
  }

  /** The first i rows of the batch are claimed. */
  ghost predicate ClaimedUpTo(s: EvalState, batch: seq<Run>, i: nat, now: int, after: EvalState) {
    && KeyedById(s) && Distinct(RunIds(batch)) && i <= |batch|
    && (forall k :: 0 <= k < |batch| ==> batch[k].id in s.runs && s.runs[batch[k].id] == batch[k])
    && (forall id :: id in RunIds(batch)[..i] ==> id in s.runs)
    && after == ClaimAll(s, RunIds(batch)[..i], now)
  }

  lemma NoneClaimed(s: EvalState, batch: seq<Run>, now: int)
    requires KeyedById(s) && Distinct(RunIds(batch))
    requires forall t :: t in batch ==> t.id in s.runs && s.runs[t.id] == t
    ensures ClaimedUpTo(s, batch, 0, now, s)
  {
    forall k | 0 <= k < |batch| ensures batch[k].id in s.runs && s.runs[batch[k].id] == batch[k] {
      assert batch[k] in batch;
    }
  }

  lemma BatchIds(s: EvalState, batch: seq<Run>)
    requires forall k :: 0 <= k < |batch| ==> batch[k].id in s.runs && s.runs[batch[k].id] == batch[k]
    ensures forall id :: id in RunIds(batch) ==> id in s.runs
  {
  }

  /** The next row is still as it was selected. */
  lemma ClaimNextRow(s: EvalState, batch: seq<Run>, i: nat, now: int, after: EvalState)
    requires ClaimedUpTo(s, batch, i, now, after) && i < |batch|
    ensures batch[i].id in after.runs && after.runs[batch[i].id] == batch[i]
    ensures ClaimedUpTo(s, batch, i + 1, now, ClaimOne(after, batch[i].id, now))
  {
    BatchIds(s, batch);
    ClaimNext(s, RunIds(batch), i, now);
    hide ClaimAll, ClaimOne, KeyedById, Distinct;
  }

  lemma AllClaimed(s: EvalState, batch: seq<Run>, now: int, after: EvalState)
    requires ClaimedUpTo(s, batch, |batch|, now, after)
    ensures forall id :: id in RunIds(batch) ==> id in s.runs
    ensures after == ClaimAll(s, RunIds(batch), now)
  {
    BatchIds(s, batch);
    assert RunIds(batch)[..|batch|] == RunIds(batch);
  }

  lemma SortedQueue(queued: seq<Run>, batch: seq<Run>)
    requires batch == SortBy(ClaimsBefore, queued) && Distinct(queued)
    ensures Distinct(batch) && SortedBy(ClaimsBefore, batch)
    ensures forall t :: t in batch <==> t in queued
  {
    assert forall t :: t in batch <==> t in multiset(batch);
    DistinctFromMultiset(queued, batch);
    ClaimsBeforeIsTotal();
    SortBySorts(ClaimsBefore, queued);
  }

  lemma CutIsBatch(s: EvalState, limit: nat, all: seq<Run>)
    requires KeyedById(s) && Distinct(all) && SortedBy(ClaimsBefore, all)
    requires forall t :: t in all <==> t.id in s.runs && s.runs[t.id] == t && t.status == Queued
    ensures var batch := all[..if limit > |all| then |all| else limit];
            && ClaimBatch(s, limit, RunIds(batch))
            && (forall t :: t in batch ==> t.id in s.runs && s.runs[t.id] == t)
            && (forall id :: id in RunIds(batch) ==> id in s.runs)
  {
    var n := if limit > |all| then |all| else limit;
    var ids := RunIds(all[..n]);
    assert forall i :: 0 <= i < n ==> all[i] in all && ids[i] == all[i].id;
    forall id | id in s.runs && s.runs[id].status == Queued && id !in ids
      ensures n == limit && forall c :: c in ids ==> ClaimsBefore(s.runs[c], s.runs[id])
    {
      var k :| 0 <= k < |all| && all[k] == s.runs[id];
      assert k >= n;
    }
  }

  // ---------- datasets ----------

  datatype EvalCase = EvalCase(tenantId: string, item: Item)

  /** CreateDataset's validation loop. `cases` answers GetEvalCase; `trim` is strings.TrimSpace. */
  method SelectItems(tenantId: string, ids: seq<string>, cases: map<string, EvalCase>, trim: string -> string)
    returns (r: Result<seq<Item>, Error>)
    requires forall id :: id in cases ==> cases[id].item.evalCaseId == id
    ensures r.Success? ==> WellFormedItems(r.value) && |r.value| == |ids|
                           && forall i :: 0 <= i < |ids| ==>
                              trim(ids[i]) in cases && r.value[i] == cases[trim(ids[i])].item
    ensures r.Success? <==>
              && ids != [] && trim(tenantId) != ""
              && (forall i :: 0 <= i < |ids| ==>
                  trim(ids[i]) != "" && trim(ids[i]) in cases && cases[trim(ids[i])].tenantId == tenantId)
              && (forall i, j :: 0 <= i < j < |ids| ==> trim(ids[i]) != trim(ids[j]))
  {
    if trim(tenantId) == "" || |ids| == 0 {
      return Failure(Invalid);
    }
    var items: seq<Item>, seen: set<string> := [], {};
    for k := 0 to |ids|
      invariant |items| == k
      invariant forall i :: 0 <= i < k ==>
                  && trim(ids[i]) != "" && trim(ids[i]) in cases && cases[trim(ids[i])].tenantId == tenantId
                  && trim(ids[i]) in seen && items[i] == cases[trim(ids[i])].item
      invariant forall x :: x in seen ==> exists i :: 0 <= i < k && trim(ids[i]) == x
      invariant forall i, j :: 0 <= i < j < k ==> trim(ids[i]) != trim(ids[j])
    {
      var id := trim(ids[k]);
      if id == "" || id in seen {
        return Failure(Invalid);
      }
      seen := seen + {id};
      if id !in cases {
        return Failure(NotFound);
      }
      if cases[id].tenantId != tenantId {
        return Failure(Invalid);
      }
      items := items + [cases[id].item];
      assert trim(ids[k]) == id;
    }
    r := Success(items);
  }

  // ---------- the worker ----------

  /** Whether the judge answers for every item of a run that ends in this way. */
  predicate Judges(j: Judge, items: seq<Item>, status: ItemStatus, detail: string) {
    forall i :: 0 <= i < |items| ==> j.decide(items[i], status, detail).Success?
  }

  lemma PlaceholderJudges(items: seq<Item>, status: ItemStatus, text: string)
    ensures Judges(PLACEHOLDER, items, status, text)
  {
  }

  /** The built-in judge fails every item of a failed run with score zero. */
  lemma PlaceholderFails(items: seq<Item>, reason: string, at: int, rs: seq<ItemResult>)
    requires JudgedBy(PLACEHOLDER, items, ItemFailed, reason, at, rs)
    ensures FailedByBuiltIn(items, reason, at, rs)
  {
  }

  /** Every item failed, with score zero, for the given reason, under the built-in judge's name. */
  ghost predicate FailedByBuiltIn(items: seq<Item>, reason: string, at: int, rs: seq<ItemResult>) {
    && |rs| == |items|
    && forall k :: 0 <= k < |rs| ==>
         rs[k] == ItemResult(items[k].evalCaseId, ItemFailed, FailVerdict, reason, 0.0, "placeholder-v1", at)
  }

  lemma FinishedHasReport(s: EvalState, id: string)
    requires StoreInv(s) && id in s.runs
    ensures Build(DetailOf(s, id)).Success? <==> Terminal(s.runs[id].status)
  {
    assert RunOk(s, id);
    ReportNeedsResults(DetailOf(s, id));
  }

  class Runner {
    const store: MemoryStore
    const judge: Judge

    constructor (store: MemoryStore, judge: Judge)
      ensures this.store == store && this.judge == judge
    {
      this.store := store;
      this.judge := judge;
    }

    /** MarkRunSucceeded, MarkRunFailed and MarkRunFailedWithFallback of the run service: read, judge, mark. */
    method FinishRun(id: string, j: Judge, how: Ending, text: string, at: int) returns (r: Result<Run, Error>)
      requires StoreInv(store.State()) && at != 0
      modifies store
      ensures StoreInv(store.State()) && store.reports == old(store.reports) && store.items == old(store.items)
      ensures r.Failure? ==> store.State() == old(store.State())
      ensures id in old(store.runs) && old(store.runs)[id].status == Running ==>
                (r.Success? <==> Judges(j, ItemsOf(old(store.State()), id), how.Item(), text))
      ensures r.Success? ==>
                && id in store.runs && store.runs[id].status == how.Status()
                && store.runs[id].errorReason == how.Reason() && store.runs[id].finishedAt == at
                && JudgedBy(j, ItemsOf(old(store.State()), id), how.Item(), text, at, ResultsOf(store.State(), id))
      ensures SameBut(old(store.State()), old(store.reports), store.State(), store.reports, id)
    {
      hide StoreInv, RunOk, OnePerItem;
      KeyedByInv(store.State());
      var got := store.GetRunDetail(id);
      if got.Failure? {
        return Failure(got.error);
      }
      var rs := BuildItemResults(j, got.value.items, how.Item(), text, at);
      if rs.Failure? {
        return Failure(rs.error);
      }
      MarkKeepsInv(store.State(), id, how, at, rs.value);
      MarkKeepsRows(store.State(), id, how, at, rs.value);
      r := store.MarkRun(id, how, at, rs.value);
    }

    method MaterializeRunReport(id: string) returns (r: Result<Report, Error>)
      requires StoreInv(store.State())
      modifies store`reports
      ensures store.State() == old(store.State())
      ensures r.Failure? ==> store.reports == old(store.reports)
      ensures r.Success? <==> id in store.runs && Terminal(store.runs[id].status)
      ensures r.Success? ==>
                && store.reports == old(store.reports)[id := r.value]
                && r == Build(DetailOf(store.State(), id)) && r.value.runStatus == store.runs[id].status
                && ReportOk(r.value, ItemsOf(store.State(), id), ResultsOf(store.State(), id))
    {
      var got := store.GetRunDetail(id);
      if got.Failure? {
        return Failure(got.error);
      }
      hide StoreInv, RunOk, ReportOk, Build;
      FinishedHasReport(store.State(), id);
      r := BuildEvalReport(got.value);
      if r.Success? {
        DetailReports(store.State(), id);
        store.SaveEvalReport(r.value);
      }
    }

    /** One claimed run, from execution to stored report. `word` words a failure of the judge. */
    method ProcessRun(id: string, execError: Option<string>, word: string -> string, at: int)
      returns (r: Result<Run, Error>)
      requires StoreInv(store.State()) && at != 0
      requires id in store.runs && store.runs[id].status == Running
      modifies store
      ensures StoreInv(store.State()) && r.Success?
      ensures Settled(store.State(), store.reports, id, ItemsOf(old(store.State()), id),
                      Attempt(judge, execError, word, at))
      ensures SameBut(old(store.State()), old(store.reports), store.State(), store.reports, id)
    {
      hide StoreInv, ReportOk, Judges, JudgedBy, FailedByBuiltIn, Build;
      ghost var members := ItemsOf(store.State(), id);
      if execError.Some? {
        r := FinishRun(id, judge, EndFailed(execError.value), execError.value, at);
        if r.Failure? {
          var reason := word(execError.value);
          PlaceholderJudges(members, ItemFailed, reason);
          r := FinishRun(id, PLACEHOLDER, EndFailed(reason), reason, at);
          PlaceholderFails(members, reason, at, ResultsOf(store.State(), id));
        }
      } else {
        r := FinishRun(id, judge, EndSucceeded, PASSED, at);
        if r.Failure? {
          var reason := word(NOT_JUDGED);
          PlaceholderJudges(members, ItemFailed, reason);
          r := FinishRun(id, PLACEHOLDER, EndFailed(reason), reason, at);
          PlaceholderFails(members, reason, at, ResultsOf(store.State(), id));
        }
      }
      var report := MaterializeRunReport(id);
    }

    /** The batch always completes, and leaves every claimed run finished with a stored, complete report of the same
        status: succeeded exactly when the run executed and the judge answered for every item. */
    method ProcessNextBatch(limit: int, now: int, exec: string -> Option<string>, word: string -> string,
                            clock: string -> int)
      returns (claimed: seq<Run>)
      requires StoreInv(store.State()) && now != 0 && forall id :: clock(id) != 0
      modifies store
      ensures StoreInv(store.State())
      ensures ClaimBatch(old(store.State()), if limit <= 0 then 10 else limit, RunIds(claimed))
      ensures forall id :: id in RunIds(claimed) ==>
                Settled(store.State(), store.reports, id, ItemsOf(old(store.State()), id),
                        Attempt(judge, exec(id), word, clock(id)))
      ensures store.runs.Keys == old(store.runs).Keys
      ensures forall id :: id in old(store.runs) && id !in RunIds(claimed) ==> store.runs[id] == old(store.runs)[id]
    {
      hide StoreInv, Settled, ClaimBatch;
      var n := limit;
      if n <= 0 {
        n := 10;
      }
      ghost var s0 := store.State();
      KeyedByInv(s0);
      claimed := store.ClaimQueuedRuns(n, now);
      BatchIsRunning(s0, n, RunIds(claimed), now);
      ghost var s1 := store.State();
      ProcessAll(claimed, exec, word, clock);
      assert forall id :: ItemsOf(s1, id) == ItemsOf(s0, id);
    }

    /** The loop over the claimed runs. */
    method ProcessAll(claimed: seq<Run>, exec: string -> Option<string>, word: string -> string, clock: string -> int)
      requires StoreInv(store.State()) && forall id :: clock(id) != 0
      requires Distinct(RunIds(claimed))
      requires forall k :: 0 <= k < |claimed| ==>
                claimed[k].id in store.runs && store.runs[claimed[k].id].status == Running
      modifies store
      ensures StoreInv(store.State())
      ensures forall id :: id in RunIds(claimed) ==>
                Settled(store.State(), store.reports, id, ItemsOf(old(store.State()), id),
                        Attempt(judge, exec(id), word, clock(id)))
      ensures store.runs.Keys == old(store.runs).Keys
      ensures forall id :: id in old(store.runs) && id !in RunIds(claimed) ==> store.runs[id] == old(store.runs)[id]
    {
      hide StoreInv, Settled, SameBut;
      ghost var ids, s0, s := RunIds(claimed), store.State(), store.State();
      for i := 0 to |claimed|
        invariant StoreInv(s) && s == store.State()
        invariant s.runs.Keys == s0.runs.Keys && s.items == s0.items
        invariant forall k :: i <= k < |ids| ==> ids[k] in s.runs && s.runs[ids[k]].status == Running
        invariant forall k :: 0 <= k < i ==>
                    Settled(s, store.reports, ids[k], ItemsOf(s0, ids[k]),
                            Attempt(judge, exec(ids[k]), word, clock(ids[k])))
        invariant forall id :: id in s0.runs && id !in ids ==> id in s.runs && s.runs[id] == s0.runs[id]
      {
        ghost var reports0 := store.reports;
        var r := ProcessRun(claimed[i].id, exec(claimed[i].id), word, clock(claimed[i].id));
        ghost var s' := store.State();
        OthersKept(s, reports0, s', store.reports, ids[i]);
        forall k | 0 <= k < i
          ensures Settled(s', store.reports, ids[k], ItemsOf(s0, ids[k]),
                          Attempt(judge, exec(ids[k]), word, clock(ids[k])))
        {
          SettledKept(s, reports0, s', store.reports, ids[i], ids[k], ItemsOf(s0, ids[k]),
                      Attempt(judge, exec(ids[k]), word, clock(ids[k])));
        }
        assert ItemsOf(s, ids[i]) == ItemsOf(s0, ids[i]);
        s := s';
      }
    }
  }

  const PASSED := "placeholder eval passed"

  const NOT_JUDGED := "eval judge failed after successful execution"

  /** One processing of a run: the configured judge, what the execution answered, the wording of a judge failure and
      the time of the end. */
  datatype Attempt = Attempt(judge: Judge, execError: Option<string>, word: string -> string, at: int) {
    /** The run executed and the judge answers for every item. */
    predicate Passes(items: seq<Item>) {
      execError.None? && Judges(judge, items, ItemSucceeded, PASSED)
    }

    /** The execution failed and the judge answers for every item. */
    predicate FailsJudged(items: seq<Item>) {
      execError.Some? && Judges(judge, items, ItemFailed, execError.value)
    }
  }

  /** How the run ended and whose decisions its results are. The configured judge decides whenever it answers for every
      item; only otherwise is every item failed by the built-in judge with score zero. */
  ghost predicate Ended(run: Run, rs: seq<ItemResult>, items: seq<Item>, a: Attempt) {
    && run.finishedAt == a.at
    && (a.Passes(items) ==>
          && run.status == Succeeded && run.errorReason == ""
          && JudgedBy(a.judge, items, ItemSucceeded, PASSED, a.at, rs))
    && (a.FailsJudged(items) ==>
          && run.status == Failed && run.errorReason == a.execError.value
          && JudgedBy(a.judge, items, ItemFailed, a.execError.value, a.at, rs))
    && (!a.Passes(items) && !a.FailsJudged(items) ==>
          && run.status == Failed
          && run.errorReason == a.word(if a.execError.Some? then a.execError.value else NOT_JUDGED)
          && FailedByBuiltIn(items, run.errorReason, a.at, rs))
  }

  /** The run is finished, as it should be and judged by whom it should be, and the stored report is that of its stored
      results, completely. */
  ghost predicate Settled(s: EvalState, reports: map<string, Report>, id: string, items: seq<Item>, a: Attempt) {
    && id in s.runs && Ended(s.runs[id], ResultsOf(s, id), items, a)
    && id in reports && Build(DetailOf(s, id)) == Success(reports[id]) && reports[id].runStatus == s.runs[id].status
    && ReportOk(reports[id], ItemsOf(s, id), ResultsOf(s, id))
  }

  /** Nothing but run `id`, its results and its report differs. */
  ghost predicate SameBut(s: EvalState, reports: map<string, Report>, s': EvalState, reports': map<string, Report>,
                          id: string) {
    && s'.items == s.items && s'.runs.Keys == s.runs.Keys
    && s'.runs - {id} == s.runs - {id} && s'.results - {id} == s.results - {id} && reports' - {id} == reports - {id}
  }

  lemma OthersKept(s: EvalState, reports: map<string, Report>, s': EvalState, reports': map<string, Report>, id: string)
    requires SameBut(s, reports, s', reports', id)
    ensures s'.items == s.items && s'.runs.Keys == s.runs.Keys
    ensures forall x :: x in s.runs && x != id ==> s'.runs[x] == s.runs[x]
  {
    forall x | x in s.runs && x != id ensures s'.runs[x] == s.runs[x] {
      SameElsewhere(s.runs, s'.runs, id, x);
    }
  }

  lemma SettledKept(s: EvalState, reports: map<string, Report>, s': EvalState, reports': map<string, Report>,
                    id: string, other: string, items: seq<Item>, a: Attempt)
    requires SameBut(s, reports, s', reports', id) && other != id && Settled(s, reports, other, items, a)
    ensures Settled(s', reports', other, items, a)
  {
    hide ReportOk, Build, Ended;
    SameElsewhere(s.runs, s'.runs, id, other);
    SameElsewhere(s.results, s'.results, id, other);
    SameElsewhere(reports, reports', id, other);
  }

  lemma BatchIsRunning(s: EvalState, limit: nat, ids: seq<string>, now: int)
    requires StoreInv(s) && KeyedById(s) && ClaimBatch(s, limit, ids) && now != 0
    ensures Distinct(ids) && forall id :: id in ids ==> id in s.runs
    ensures var r := ClaimAll(s, ids, now);
            && StoreInv(r) && r.runs.Keys == s.runs.Keys && r.items == s.items
            && (forall k :: 0 <= k < |ids| ==> ids[k] in r.runs && r.runs[ids[k]].status == Running)
            && (forall id :: id in s.runs && id !in ids ==> r.runs[id] == s.runs[id])
  {
    hide StoreInv, ClaimsBefore;
    ClaimAllRows(s, ids, now);
    ClaimKeepsInv(s, ids, now);
    assert forall k :: 0 <= k < |ids| ==> ids[k] in ids;
  }
}
