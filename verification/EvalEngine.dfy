/** Workers, operators and dataset editors interleaving on one eval store. */
module EvalEngine {
  import opened Common
  import opened EvalStore
  import opened EvalReport

  /** A service call between its locked read and its locked write; it holds what it read. */
  datatype Call =
    | Finalizing(runId: string, items: seq<Item>)
    | Launching(dataset: Dataset)
    | Reporting(report: Report)
    | Adding(datasetId: string, item: Item)

  datatype World = World(store: EvalState, calls: map<nat, Call>, reports: map<string, Report>)

  const INIT := World(EMPTY, map[], map[])

  datatype Label =
    | CreateDataset(dataset: Dataset)
    | BeginAdd(call: nat, datasetId: string, item: Item)
    | EndAdd(call: nat, now: int)
    | PublishDataset(datasetId: string, actor: string, now: int)
    | BeginRun(call: nat, datasetId: string)
    | EndRun(call: nat, runId: string, actor: string, now: int)
    | Claim(ids: seq<string>, limit: nat, now: int)
    | BeginFinish(call: nat, runId: string)
    | EndFinish(call: nat, how: Ending, results: seq<ItemResult>, now: int)
    | RetryRun(runId: string, now: int)
    | BeginReport(call: nat, runId: string)
    | EndReport(call: nat)

  /** The clock never shows the zero time. What a call's judge answers is arbitrary, one result per item it read. */
  ghost predicate Enabled(w: World, l: Label) {
    match l
    case CreateDataset(d) => WellFormedItems(d.items) && d.status == Draft
    case BeginAdd(c, id, _) => c !in w.calls && id in w.store.datasets && w.store.datasets[id].status == Draft
    case EndAdd(c, _) => c in w.calls && w.calls[c].Adding?
    case PublishDataset(_, _, _) => true
    case BeginRun(c, id) => c !in w.calls && id in w.store.datasets && w.store.datasets[id].status == Published
    case EndRun(c, runId, _, now) => c in w.calls && w.calls[c].Launching? && runId !in w.store.runs && now != 0
    case Claim(ids, limit, now) => ClaimBatch(w.store, limit, ids) && now != 0
    case BeginFinish(c, id) => c !in w.calls && id in w.store.runs
    case EndFinish(c, how, rs, now) =>
      c in w.calls && w.calls[c].Finalizing? && OnePerItem(w.calls[c].items, rs, how.Item()) && now != 0
    case RetryRun(_, _) => true
    case BeginReport(c, id) => c !in w.calls && id in w.store.runs && Build(DetailOf(w.store, id)).Success?
    case EndReport(c) => c in w.calls && w.calls[c].Reporting?
  }

  /** GetRunDetail. */
  function DetailOf(s: EvalState, id: string): Detail
    requires id in s.runs
  {
    Detail(s.runs[id], ItemsOf(s, id), ResultsOf(s, id))
  }

  function OrSame(s: EvalState, r: Result<EvalState, Error>): EvalState {
    if r.Success? then r.value else s
  }

  ghost function Apply(w: World, l: Label): World
    requires Enabled(w, l)
  {
    match l
    case CreateDataset(d) => w.(store := w.store.(datasets := w.store.datasets[d.id := d]))
    case BeginAdd(c, id, item) => w.(calls := w.calls[c := Adding(id, item)])
    case EndAdd(c, now) =>
      w.(store := OrSame(w.store, AddItem(w.store, w.calls[c].datasetId, w.calls[c].item, now)), calls := w.calls - {c})
    case PublishDataset(id, actor, now) => w.(store := OrSame(w.store, Publish(w.store, id, actor, now)))
    case BeginRun(c, id) => w.(calls := w.calls[c := Launching(w.store.datasets[id])])
    case EndRun(c, runId, actor, now) =>
      var d := w.calls[c].dataset;
      w.(store := CreateRun(w.store, NewRun(runId, d, actor, now), d.items), calls := w.calls - {c})
    case Claim(ids, _, now) => w.(store := ClaimAll(w.store, ids, now))
    case BeginFinish(c, id) => w.(calls := w.calls[c := Finalizing(id, ItemsOf(w.store, id))])
    case EndFinish(c, how, rs, now) =>
      w.(store := OrSame(w.store, Mark(w.store, w.calls[c].runId, how, now, rs)), calls := w.calls - {c})
    case RetryRun(id, now) => w.(store := OrSame(w.store, Retry(w.store, id, now)))
    case BeginReport(c, id) => w.(calls := w.calls[c := Reporting(Build(DetailOf(w.store, id)).value)])
    case EndReport(c) =>
      w.(reports := w.reports[w.calls[c].report.runId := w.calls[c].report], calls := w.calls - {c})
  }

  ghost predicate IsRun(ws: seq<World>, ls: seq<Label>) {
    && |ws| == |ls| + 1 && ws[0] == INIT
    && forall i :: 0 <= i < |ls| ==> Enabled(ws[i], ls[i]) && ws[i + 1] == Apply(ws[i], ls[i])
  }

  // ---------- the run automaton ----------

  datatype Phase = Start | At(status: RunStatus) | Rejected

  function Delta(p: Phase, a: Action): Phase {
    match (p, a)
    case (Start, ActCreated) => At(Queued)
    case (At(Queued), ActClaimed) => At(Running)
    case (At(Running), ActSucceeded) => At(Succeeded)
    case (At(Running), ActFailed) => At(Failed)
    case (At(Failed), ActRetried) => At(Queued)
    case _ => Rejected
  }

  function Replay(log: seq<RunEvent>): Phase {
    if log == [] then Start else Delta(Replay(log[..|log| - 1]), log[|log| - 1].action)
  }

  ghost predicate LogOk(log: seq<RunEvent>, id: string, limit: nat, st: RunStatus) {
    && Replay(log) == At(st)
    && (forall i, j :: 0 <= i < j < |log| ==> log[i].id < log[j].id)
    && (forall k :: 0 <= k < |log| ==> log[k].runId == id && log[k].id <= limit)
  }

  /** Which clock fields are set is fixed by the status. */
  predicate ClockOk(r: Run) {
    match r.status
    case Queued => r.startedAt == 0 && r.finishedAt == 0
    case Running => r.startedAt != 0 && r.finishedAt == 0
    case Succeeded => r.startedAt != 0 && r.finishedAt != 0
    case Failed => r.startedAt != 0 && r.finishedAt != 0
  }

  /** Queued and running runs have no results; a finished run has one per snapshotted item, in order, all with the
      status the run ended in. */
  ghost predicate ResultsOk(r: Run, items: seq<Item>, hasResults: bool, rs: seq<ItemResult>) {
    if Terminal(r.status)
    then hasResults && OnePerItem(items, rs, if r.status == Succeeded then ItemSucceeded else ItemFailed)
    else !hasResults
  }

  ghost predicate RunOk(s: EvalState, id: string)
    requires id in s.runs
  {
    var r := s.runs[id];
    && r.id == id
    && id in s.items && WellFormedItems(s.items[id]) && r.itemCount == |s.items[id]|
    && ResultsOk(r, s.items[id], id in s.results, ResultsOf(s, id))
    && ClockOk(r)
    && LogOk(EventsOf(s, id), id, s.nextEvent, r.status)
  }

  ghost predicate StoreInv(s: EvalState) {
    && (forall id :: id in s.runs ==> RunOk(s, id))
    && (forall id :: id in s.events || id in s.results ==> id in s.runs)
    && (forall id :: id in s.datasets ==> WellFormedItems(s.datasets[id].items))
  }

  ghost predicate CallOk(s: EvalState, c: Call) {
    match c
    case Finalizing(id, items) => id in s.runs && items == ItemsOf(s, id)
    case Launching(d) => WellFormedItems(d.items)
    case Reporting(r) => r.runId in s.runs
    case Adding(_, _) => true
  }

  ghost predicate Inv(w: World) {
    && StoreInv(w.store)
    && (forall c :: c in w.calls ==> CallOk(w.store, w.calls[c]))
    && (forall id :: id in w.reports ==> id in w.store.runs && w.reports[id].runId == id)
  }

  // ---------- one write ----------

  lemma LogOkSnoc(log: seq<RunEvent>, id: string, limit: nat, e: RunEvent, st: RunStatus)
    requires forall i, j :: 0 <= i < j < |log| ==> log[i].id < log[j].id
    requires forall k :: 0 <= k < |log| ==> log[k].runId == id && log[k].id <= limit
    requires e.runId == id && e.id == limit + 1 && Delta(Replay(log), e.action) == At(st)
    ensures LogOk(log + [e], id, limit + 1, st)
  {
    assert (log + [e])[..|log|] == log;
  }

  lemma LogOkLater(log: seq<RunEvent>, id: string, limit: nat, st: RunStatus)
    requires LogOk(log, id, limit, st)
    ensures LogOk(log, id, limit + 1, st)
  {
  }

  /** A locked write that follows the automaton, and whose row fits its results and clock, keeps the invariant. */
  lemma WriteKeepsInv(s: EvalState, s': EvalState, run: Run, a: Action, actor: string, detail: string, at: int)
    requires StoreInv(s)
    requires s' == PutRun(s, run, a, actor, detail, at).(items := s'.items, results := s'.results)
    requires s'.items - {run.id} == s.items - {run.id} && s'.results - {run.id} == s.results - {run.id}
    requires Delta(Replay(EventsOf(s, run.id)), a) == At(run.status)
    requires run.id in s'.items && WellFormedItems(s'.items[run.id]) && run.itemCount == |s'.items[run.id]|
    requires ResultsOk(run, s'.items[run.id], run.id in s'.results, ResultsOf(s', run.id)) && ClockOk(run)
    ensures StoreInv(s')
  {
    hide LogOk, Replay, WellFormedItems, ResultsOk, OnePerItem;
    var e := RunEvent(s.nextEvent + 1, run.id, a, actor, detail, at);
    EventsOrdered(s, run.id);
    LogOkSnoc(EventsOf(s, run.id), run.id, s.nextEvent, e, run.status);
    forall id | id in s'.runs ensures RunOk(s', id) {
      if id != run.id {
        assert RunOk(s, id);
        assert EventsOf(s', id) == EventsOf(s, id);
        LogOkLater(EventsOf(s, id), id, s.nextEvent, s.runs[id].status);
        SameElsewhere(s.items, s'.items, run.id, id);
        SameElsewhere(s.results, s'.results, run.id, id);
      }
    }
    forall id | id in s'.results ensures id in s'.runs {
      if id != run.id {
        SameElsewhere(s.results, s'.results, run.id, id);
      }
    }
  }

  lemma EventsOrdered(s: EvalState, id: string)
    requires StoreInv(s)
    ensures var log := EventsOf(s, id);
            && (forall i, j :: 0 <= i < j < |log| ==> log[i].id < log[j].id)
            && (forall k :: 0 <= k < |log| ==> log[k].runId == id && log[k].id <= s.nextEvent)
  {
    if id in s.runs {
      assert RunOk(s, id);
    }
  }

  lemma SameElsewhere<V>(m: map<string, V>, m': map<string, V>, changed: string, id: string)
    requires m - {changed} == m' - {changed} && id != changed
    ensures id in m <==> id in m'
    ensures id in m ==> m[id] == m'[id]
  {
    assert id in m <==> id in m - {changed};
    assert id in m' <==> id in m' - {changed};
    if id in m {
      assert (m - {changed})[id] == (m' - {changed})[id];
    }
  }

  lemma CreateKeepsInv(s: EvalState, d: Dataset, id: string, actor: string, now: int)
    requires StoreInv(s) && WellFormedItems(d.items) && id !in s.runs
    ensures StoreInv(CreateRun(s, NewRun(id, d, actor, now), d.items))
  {
    var run := NewRun(id, d, actor, now);
    WriteKeepsInv(s, CreateRun(s, run, d.items), run, ActCreated, run.createdBy, StatusName(run.status), run.createdAt);
  }

  lemma {:induction false} ClaimKeepsInv(s: EvalState, ids: seq<string>, now: int)
    requires StoreInv(s) && KeyedById(s) && Distinct(ids) && now != 0
    requires forall id :: id in ids ==> id in s.runs && s.runs[id].status == Queued
    ensures StoreInv(ClaimAll(s, ids, now))
  {
    if ids != [] {
      hide StoreInv, KeyedById, ClaimOne;
      var last, front := ids[|ids| - 1], ids[..|ids| - 1];
      assert ids == front + [last] && last !in front;
      ClaimKeepsInv(s, front, now);
      ClaimAllRows(s, front, now);
      ClaimOneKeepsInv(ClaimAll(s, front, now), last, now);
    }
  }

  lemma ClaimShape(s: EvalState, id: string, now: int)
    requires id in s.runs && RunOk(s, id) && s.runs[id].status == Queued && now != 0
    ensures var run, s' := ClaimedRun(s.runs[id], now), ClaimOne(s, id, now);
            && s' == PutRun(s, run, ActClaimed, "worker", StatusName(Running), now).(items := s'.items,
                                                                                     results := s'.results)
            && s'.items == s.items && s'.results == s.results && run.id == id
            && Delta(Replay(EventsOf(s, id)), ActClaimed) == At(run.status)
            && id in s.items && WellFormedItems(s.items[id]) && run.itemCount == |s.items[id]|
            && ResultsOk(run, s.items[id], id in s'.results, ResultsOf(s', id)) && ClockOk(run)
  {
    hide OnePerItem, WellFormedItems, Replay;
  }

  lemma ClaimOneKeepsInv(s: EvalState, id: string, now: int)
    requires StoreInv(s) && id in s.runs && s.runs[id].status == Queued && now != 0
    ensures StoreInv(ClaimOne(s, id, now))
  {
    assert RunOk(s, id);
    ClaimShape(s, id, now);
    hide WellFormedItems, Replay, LogOk, ResultsOk, ClockOk, StoreInv, RunOk, ClaimOne, PutRun, ClaimedRun;
    WriteKeepsInv(s, ClaimOne(s, id, now), ClaimedRun(s.runs[id], now), ActClaimed, "worker", StatusName(Running), now);
  }

  lemma MarkedRow(s: EvalState, id: string, how: Ending, at: int, rs: seq<ItemResult>)
    requires id in s.runs && RunOk(s, id) && s.runs[id].status == Running
    requires at != 0 && OnePerItem(ItemsOf(s, id), rs, how.Item())
    ensures var run := s.runs[id].(status := how.Status(), errorReason := how.Reason(), updatedAt := at,
                                   finishedAt := at);
            && Delta(Replay(EventsOf(s, id)), how.Act()) == At(run.status) && run.id == id
            && id in s.items && WellFormedItems(s.items[id]) && run.itemCount == |s.items[id]|
            && ResultsOk(run, s.items[id], true, rs) && ClockOk(run)
  {
    hide OnePerItem, WellFormedItems, Replay;
  }

  lemma MarkShape(s: EvalState, id: string, how: Ending, at: int, rs: seq<ItemResult>)
    requires Mark(s, id, how, at, rs).Success?
    ensures id in s.runs && s.runs[id].status == Running
    ensures var run := s.runs[id].(status := how.Status(), errorReason := how.Reason(), updatedAt := at,
                                   finishedAt := at);
            var s' := Mark(s, id, how, at, rs).value;
            && s' == PutRun(s, run, how.Act(), "worker", how.Detail(), at).(items := s'.items, results := s'.results)
            && s'.items == s.items && s'.results - {id} == s.results - {id} && id in s'.results
            && ResultsOf(s', id) == rs
  {
  }

  lemma MarkKeepsInv(s: EvalState, id: string, how: Ending, at: int, rs: seq<ItemResult>)
    requires StoreInv(s) && at != 0 && OnePerItem(ItemsOf(s, id), rs, how.Item())
    ensures Mark(s, id, how, at, rs).Success? ==> StoreInv(Mark(s, id, how, at, rs).value)
  {
    if Mark(s, id, how, at, rs).Success? {
      MarkShape(s, id, how, at, rs);
      assert RunOk(s, id);
      MarkedRow(s, id, how, at, rs);
      hide OnePerItem, WellFormedItems, Replay, LogOk, ResultsOk, ClockOk, StoreInv, RunOk, Mark, PutRun;
      var run := s.runs[id].(status := how.Status(), errorReason := how.Reason(), updatedAt := at, finishedAt := at);
      WriteKeepsInv(s, Mark(s, id, how, at, rs).value, run, how.Act(), "worker", how.Detail(), at);
    }
  }

  lemma RetriedRow(s: EvalState, id: string, at: int)
    requires id in s.runs && RunOk(s, id) && s.runs[id].status == Failed
    ensures var run := s.runs[id].(status := Queued, errorReason := "", updatedAt := at, startedAt := 0,
                                   finishedAt := 0);
            && Delta(Replay(EventsOf(s, id)), ActRetried) == At(run.status) && run.id == id
            && id in s.items && WellFormedItems(s.items[id]) && run.itemCount == |s.items[id]|
            && ResultsOk(run, s.items[id], false, []) && ClockOk(run)
  {
    hide OnePerItem, WellFormedItems, Replay;
  }

  lemma RetryShape(s: EvalState, id: string, at: int)
    requires Retry(s, id, at).Success?
    ensures id in s.runs && s.runs[id].status == Failed
    ensures var run := s.runs[id].(status := Queued, errorReason := "", updatedAt := at, startedAt := 0,
                                   finishedAt := 0);
            var s' := Retry(s, id, at).value;
            && s' == PutRun(s, run, ActRetried, "operator", StatusName(Queued), at).(items := s'.items,
                                                                                     results := s'.results)
            && s'.items == s.items && s'.results - {id} == s.results - {id} && id !in s'.results
            && ResultsOf(s', id) == []
  {
  }

  lemma RetryKeepsInv(s: EvalState, id: string, at: int)
    requires StoreInv(s)
    ensures Retry(s, id, at).Success? ==> StoreInv(Retry(s, id, at).value)
  {
    if Retry(s, id, at).Success? {
      RetryShape(s, id, at);
      assert RunOk(s, id);
      RetriedRow(s, id, at);
      hide WellFormedItems, Replay, LogOk, ResultsOk, ClockOk, StoreInv, RunOk, Retry, PutRun;
      var run := s.runs[id].(status := Queued, errorReason := "", updatedAt := at, startedAt := 0, finishedAt := 0);
      WriteKeepsInv(s, Retry(s, id, at).value, run, ActRetried, "operator", StatusName(Queued), at);
    }
  }

  lemma KeyedByInv(s: EvalState)
    requires StoreInv(s)
    ensures KeyedById(s)
  {
    forall id | id in s.runs ensures s.runs[id].id == id {
      assert RunOk(s, id);
    }
  }

  // ---------- one step ----------

  /** No step removes a run or touches the items of an existing run. */
  lemma StepKeepsSnapshots(w: World, l: Label)
    requires KeyedById(w.store) && Enabled(w, l)
    ensures forall id :: id in w.store.runs ==>
              id in Apply(w, l).store.runs && ItemsOf(Apply(w, l).store, id) == ItemsOf(w.store, id)
  {
    if l.Claim? {
      ClaimAllRows(w.store, l.ids, l.now);
    } else if l.EndRun? {
    } else if l.EndFinish? {
      MarkKeepsRows(w.store, w.calls[l.call].runId, l.how, l.now, l.results);
    } else {
    }
  }

  lemma MarkKeepsRows(s: EvalState, id: string, how: Ending, at: int, rs: seq<ItemResult>)
    requires KeyedById(s)
    ensures var s' := OrSame(s, Mark(s, id, how, at, rs));
            s'.runs.Keys == s.runs.Keys && s'.items == s.items
  {
  }

  lemma DatasetsOnly(s: EvalState, s': EvalState)
    requires StoreInv(s) && s' == s.(datasets := s'.datasets)
    requires forall id :: id in s'.datasets ==> WellFormedItems(s'.datasets[id].items)
    ensures StoreInv(s')
  {
    forall id | id in s'.runs ensures RunOk(s', id) {
      assert RunOk(s, id);
      assert EventsOf(s', id) == EventsOf(s, id) && ResultsOf(s', id) == ResultsOf(s, id);
    }
  }

  lemma AddKeepsWellFormed(items: seq<Item>, item: Item)
    requires WellFormedItems(items) && item.evalCaseId !in CaseIds(items)
    ensures WellFormedItems(items + [item])
  {
    assert CaseIds(items + [item]) == CaseIds(items) + [item.evalCaseId];
  }

  lemma StoreStepKeepsInv(w: World, l: Label)
    requires Inv(w) && Enabled(w, l)
    ensures StoreInv(Apply(w, l).store)
  {
    var s, s' := w.store, Apply(w, l).store;
    match l
    case CreateDataset(_) => DatasetsOnly(s, s');
    case EndAdd(c, _) =>
      var id, item := w.calls[c].datasetId, w.calls[c].item;
      if id in s.datasets && item.evalCaseId !in CaseIds(s.datasets[id].items) {
        AddKeepsWellFormed(s.datasets[id].items, item);
      }
      DatasetsOnly(s, s');
    case PublishDataset(_, _, _) => DatasetsOnly(s, s');
    case EndRun(c, runId, actor, now) =>
      assert CallOk(s, w.calls[c]);
      CreateKeepsInv(s, w.calls[c].dataset, runId, actor, now);
    case Claim(ids, _, now) =>
      KeyedByInv(s);
      ClaimKeepsInv(s, ids, now);
    case EndFinish(c, how, rs, now) =>
      assert CallOk(s, w.calls[c]);
      MarkKeepsInv(s, w.calls[c].runId, how, now, rs);
    case RetryRun(id, now) => RetryKeepsInv(s, id, now);
    case _ =>
  }

  lemma DetailReports(s: EvalState, id: string)
    requires id in s.runs && RunOk(s, id) && Build(DetailOf(s, id)).Success?
    ensures Terminal(s.runs[id].status)
    ensures Build(DetailOf(s, id)).value.runId == id
    ensures ReportOk(Build(DetailOf(s, id)).value, ItemsOf(s, id), ResultsOf(s, id))
    ensures Build(DetailOf(s, id)).value.runStatus == s.runs[id].status
  {
    ReportNeedsResults(DetailOf(s, id));
    FinishedRunReports(DetailOf(s, id));
  }

  lemma CallsStayOk(w: World, l: Label)
    requires Inv(w) && Enabled(w, l)
    ensures forall c :: c in Apply(w, l).calls ==> CallOk(Apply(w, l).store, Apply(w, l).calls[c])
  {
    KeyedByInv(w.store);
    forall c | c in Apply(w, l).calls ensures CallOk(Apply(w, l).store, Apply(w, l).calls[c]) {
      hide StoreInv, CallOk, Apply;
      if (l.BeginAdd? || l.BeginRun? || l.BeginFinish? || l.BeginReport?) && l.call == c {
        StartedCallOk(w, l);
      } else {
        NewCallOk(w, l, c);
      }
    }
  }

  lemma ReportsStayKeyed(w: World, l: Label)
    requires Inv(w) && Enabled(w, l)
    ensures var w' := Apply(w, l);
            forall id :: id in w'.reports ==> id in w'.store.runs && w'.reports[id].runId == id
  {
    KeyedByInv(w.store);
    StepKeepsSnapshots(w, l);
    if l.EndReport? {
      assert CallOk(w.store, w.calls[l.call]);
    }
    hide StoreInv, CallOk, KeyedById;
  }

  lemma StepKeepsInv(w: World, l: Label)
    requires Inv(w) && Enabled(w, l)
    ensures Inv(Apply(w, l))
  {
    StoreStepKeepsInv(w, l);
    CallsStayOk(w, l);
    ReportsStayKeyed(w, l);
    hide *;
  }

  lemma BeginShape(w: World, l: Label)
    requires Enabled(w, l) && (l.BeginAdd? || l.BeginRun? || l.BeginFinish? || l.BeginReport?)
    ensures Apply(w, l).store == w.store
    ensures Apply(w, l).calls[l.call] ==
              match l
              case BeginAdd(_, id, item) => Adding(id, item)
              case BeginRun(_, id) => Launching(w.store.datasets[id])
              case BeginFinish(_, id) => Finalizing(id, ItemsOf(w.store, id))
              case BeginReport(_, id) => Reporting(Build(DetailOf(w.store, id)).value)
  {
  }

  /** A call that a step starts is in order. */
  lemma StartedCallOk(w: World, l: Label)
    requires StoreInv(w.store) && Enabled(w, l) && (l.BeginAdd? || l.BeginRun? || l.BeginFinish? || l.BeginReport?)
    ensures CallOk(Apply(w, l).store, Apply(w, l).calls[l.call])
  {
    BeginShape(w, l);
    if l.BeginReport? {
      assert RunOk(w.store, l.runId);
      assert Build(DetailOf(w.store, l.runId)).value.runId == l.runId;
    }
    hide RunOk, WellFormedItems, Build, Apply;
  }

  lemma KeptCallOk(s: EvalState, s': EvalState, c: Call)
    requires CallOk(s, c) && forall id :: id in s.runs ==> id in s'.runs && ItemsOf(s', id) == ItemsOf(s, id)
    ensures CallOk(s', c)
  {
    hide WellFormedItems, ItemsOf;
  }

  lemma NewCallOk(w: World, l: Label, c: nat)
    requires KeyedById(w.store) && Enabled(w, l) && c in Apply(w, l).calls
    requires !((l.BeginAdd? || l.BeginRun? || l.BeginFinish? || l.BeginReport?) && l.call == c)
    requires c in w.calls ==> CallOk(w.store, w.calls[c])
    ensures CallOk(Apply(w, l).store, Apply(w, l).calls[c])
  {
    OldCall(w, l, c);
    StepKeepsSnapshots(w, l);
    hide Apply, CallOk, KeyedById, Enabled;
    KeptCallOk(w.store, Apply(w, l).store, w.calls[c]);
  }

  lemma OldCall(w: World, l: Label, c: nat)
    requires Enabled(w, l) && c in Apply(w, l).calls
    requires !((l.BeginAdd? || l.BeginRun? || l.BeginFinish? || l.BeginReport?) && l.call == c)
    ensures c in w.calls && Apply(w, l).calls[c] == w.calls[c]
  {
  }

  // ---------- whole runs ----------

  /** In every state of every run: queued and running runs hold no results, finished runs exactly one per
      snapshotted item in item order, the log replays to the status with increasing ids, and the clock fields fit the
      status. */
  lemma {:induction false} RunKeepsInv(ws: seq<World>, ls: seq<Label>, i: nat)
    requires IsRun(ws, ls) && i < |ws|
    ensures Inv(ws[i])
  {
    if i > 0 {
      RunKeepsInv(ws, ls, i - 1);
      StepKeepsInv(ws[i - 1], ls[i - 1]);
    }
  }

  lemma KeyedFromInv(w: World)
    requires Inv(w)
    ensures KeyedById(w.store)
  {
    KeyedByInv(w.store);
  }

  /** The items of a run are those of the dataset as it was read at launch, whatever happens to the dataset later. */
  lemma {:induction false} SnapshotsNeverChange(ws: seq<World>, ls: seq<Label>, i: nat, j: nat, id: string)
    requires IsRun(ws, ls) && i <= j < |ws| && id in ws[i].store.runs
    ensures id in ws[j].store.runs && ItemsOf(ws[j].store, id) == ItemsOf(ws[i].store, id)
  {
    hide Inv, Apply, Enabled, StoreInv;
    if i < j {
      SnapshotsNeverChange(ws, ls, i, j - 1, id);
      RunKeepsInv(ws, ls, j - 1);
      KeyedFromInv(ws[j - 1]);
      StepKeepsSnapshots(ws[j - 1], ls[j - 1]);
    }
  }

  // ---------- reports ----------

  /** `r` is the report of what the store holds about its run. */
  ghost predicate BuiltFrom(s: EvalState, r: Report) {
    r.runId in s.runs && Build(DetailOf(s, r.runId)) == Success(r)
  }

  ghost predicate BuiltBefore(ws: seq<World>, i: nat, r: Report)
    requires i < |ws|
  {
    exists j :: 0 <= j <= i && BuiltFrom(ws[j].store, r)
  }

  /** A report in hand or stored after a step was so before it, or is what the store then held. */
  lemma NewReports(w: World, l: Label)
    requires KeyedById(w.store) && Enabled(w, l)
    ensures var w' := Apply(w, l);
            && (forall c :: c in w'.calls && w'.calls[c].Reporting? ==>
                  (c in w.calls && w.calls[c] == w'.calls[c]) || BuiltFrom(w'.store, w'.calls[c].report))
            && (forall id :: id in w'.reports ==>
                  || (id in w.reports && w.reports[id] == w'.reports[id])
                  || (l.EndReport? && l.call in w.calls && w.calls[l.call] == Reporting(w'.reports[id])))
  {
    hide Mark, Retry, AddItem, Publish, ClaimAll, CreateRun, SummaryOf, ReportOf;
    if l.BeginReport? {
      ReportNamesRun(w.store, l.runId);
    }
  }

  lemma ReportNamesRun(s: EvalState, id: string)
    requires KeyedById(s) && id in s.runs && Build(DetailOf(s, id)).Success?
    ensures Build(DetailOf(s, id)).value.runId == id
  {
  }

  lemma StillBuilt(ws: seq<World>, i: nat, r: Report)
    requires i + 1 < |ws| && (BuiltBefore(ws, i, r) || BuiltFrom(ws[i + 1].store, r))
    ensures BuiltBefore(ws, i + 1, r)
  {
    hide BuiltFrom;
  }

  lemma {:induction false} ReportsWereBuilt(ws: seq<World>, ls: seq<Label>, i: nat)
    requires IsRun(ws, ls) && i < |ws|
    ensures forall c :: c in ws[i].calls && ws[i].calls[c].Reporting? ==> BuiltBefore(ws, i, ws[i].calls[c].report)
    ensures forall id :: id in ws[i].reports ==> BuiltBefore(ws, i, ws[i].reports[id])
  {
    if i > 0 {
      hide Inv, Apply, Enabled, BuiltFrom, BuiltBefore, KeyedById;
      ReportsWereBuilt(ws, ls, i - 1);
      RunKeepsInv(ws, ls, i - 1);
      KeyedFromInv(ws[i - 1]);
      var w, w', l := ws[i - 1], ws[i], ls[i - 1];
      NewReports(w, l);
      EndingCall(w, l);
      forall c | c in w'.calls && w'.calls[c].Reporting? ensures BuiltBefore(ws, i, w'.calls[c].report) {
        StillBuilt(ws, i - 1, w'.calls[c].report);
      }
      forall id | id in w'.reports ensures BuiltBefore(ws, i, w'.reports[id]) {
        StillBuilt(ws, i - 1, w'.reports[id]);
      }
    }
  }

  lemma EndingCall(w: World, l: Label)
    requires Enabled(w, l)
    ensures l.EndReport? ==> l.call in w.calls && w.calls[l.call].Reporting?
  {
  }

  /** Every stored report, however late it was stored and whatever was retried since, is the report of what the store
      held about its run at some earlier moment: a complete account of the run's items and of the results it had
      then. */
  lemma StoredReportsAreComplete(ws: seq<World>, ls: seq<Label>, i: nat, id: string)
    requires IsRun(ws, ls) && i < |ws| && id in ws[i].reports
    ensures ws[i].reports[id].runId == id && id in ws[i].store.runs
    ensures exists j :: 0 <= j <= i && id in ws[j].store.runs
                        && Build(DetailOf(ws[j].store, id)) == Success(ws[i].reports[id])
                        && ReportOk(ws[i].reports[id], ItemsOf(ws[i].store, id), ResultsOf(ws[j].store, id))
  {
    RunKeepsInv(ws, ls, i);
    ReportsWereBuilt(ws, ls, i);
    var r := ws[i].reports[id];
    var j :| 0 <= j <= i && BuiltFrom(ws[j].store, r);
    RunKeepsInv(ws, ls, j);
    assert RunOk(ws[j].store, id);
    DetailReports(ws[j].store, id);
    SnapshotsNeverChange(ws, ls, j, i, id);
    hide Inv, ReportOk, RunOk, Build, StoreInv;
  }

  /** A worker's late finalization of a run that is no longer running changes nothing. */
  lemma LateFinishIsRejected(w: World, l: Label)
    requires Enabled(w, l) && l.EndFinish?
    ensures var id := w.calls[l.call].runId;
            (id !in w.store.runs || w.store.runs[id].status != Running) <==> Apply(w, l).store == w.store
  {
    var id := w.calls[l.call].runId;
    if id in w.store.runs && w.store.runs[id].status == Running {
      assert Apply(w, l).store.nextEvent == w.store.nextEvent + 1;
    }
  }

  // ---------- datasets ----------

  /** Edits are meant for drafts only, but the status is checked before the lock: an edit changes a published dataset
      exactly when it was published after the check and does not hold the case yet. */
  lemma LateEditReachesPublishedIff(w: World, l: Label)
    requires Enabled(w, l) && l.EndAdd? && w.calls[l.call].datasetId in w.store.datasets
    ensures var id := w.calls[l.call].datasetId;
            var d := w.store.datasets[id];
            (d.status == Published && Apply(w, l).store.datasets[id].items != d.items) <==>
              (d.status == Published && w.calls[l.call].item.evalCaseId !in CaseIds(d.items))
  {
    var d := w.store.datasets[w.calls[l.call].datasetId];
    assert |d.items + [w.calls[l.call].item]| == |d.items| + 1;
  }

  /** Such an edit happens: check, publish, write. */
  lemma PublishedDatasetGrows(a: Item, b: Item)
    requires a.evalCaseId != b.evalCaseId
    ensures exists ws: seq<World>, ls: seq<Label> ::
              && IsRun(ws, ls) && |ws| == 5 && "d" in ws[3].store.datasets && "d" in ws[4].store.datasets
              && ws[3].store.datasets["d"].status == Published && ws[4].store.datasets["d"].status == Published
              && ws[3].store.datasets["d"].items == [a] && ws[4].store.datasets["d"].items == [a, b]
  {
    var d := Dataset("d", "acme", "seed", Draft, [a], "", 0, 1);
    var l0 := CreateDataset(d);
    var w1 := Apply(INIT, l0);
    var l1 := BeginAdd(0, "d", b);
    var w2 := Apply(w1, l1);
    var l2 := PublishDataset("d", "ops", 2);
    var w3 := Apply(w2, l2);
    var l3 := EndAdd(0, 3);
    assert CaseIds([a]) == [a.evalCaseId] && [a] + [b] == [a, b];
    var w4 := Apply(w3, l3);
    var ws, ls := [INIT, w1, w2, w3, w4], [l0, l1, l2, l3];
    assert IsRun(ws, ls);
  }
}
