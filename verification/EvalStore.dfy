/** The eval store: datasets, runs with their snapshotted items, results and lifecycle events. */
module EvalStore {
  import opened Common

  datatype Item = Item(
    evalCaseId: string, title: string, sourceCaseId: string, sourceTaskId: string,
    sourceReportId: string, traceId: string, versionId: string)

  datatype DatasetStatus = Draft | Published
  datatype Dataset = Dataset(
    id: string, tenantId: string, name: string, status: DatasetStatus, items: seq<Item>,
    publishedBy: string, publishedAt: int, updatedAt: int)

  datatype RunStatus = Queued | Running | Succeeded | Failed

  /** Times are integers and 0 is the zero time. */
  datatype Run = Run(
    id: string, tenantId: string, datasetId: string, datasetName: string, itemCount: nat,
    status: RunStatus, createdBy: string, errorReason: string,
    createdAt: int, updatedAt: int, startedAt: int, finishedAt: int)

  datatype Verdict = Pass | FailVerdict
  datatype ItemStatus = ItemSucceeded | ItemFailed
  datatype ItemResult = ItemResult(
    evalCaseId: string, status: ItemStatus, verdict: Verdict, detail: string, score: real,
    judgeVersion: string, updatedAt: int)

  datatype Action = ActCreated | ActClaimed | ActSucceeded | ActFailed | ActRetried
  datatype RunEvent = RunEvent(id: nat, runId: string, action: Action, actor: string, detail: string, createdAt: int)

  datatype Error = NotFound | InvalidState | Invalid | External(message: string)

  datatype EvalState = EvalState(
    datasets: map<string, Dataset>, runs: map<string, Run>, items: map<string, seq<Item>>,
    results: map<string, seq<ItemResult>>, events: map<string, seq<RunEvent>>, nextEvent: nat)

  const EMPTY := EvalState(map[], map[], map[], map[], map[], 0)

  function StatusName(s: RunStatus): string {
    match s
    case Queued => "queued"
    case Running => "running"
    case Succeeded => "succeeded"
    case Failed => "failed"
  }

  function ItemsOf(s: EvalState, id: string): seq<Item> { if id in s.items then s.items[id] else [] }
  function ResultsOf(s: EvalState, id: string): seq<ItemResult> { if id in s.results then s.results[id] else [] }
  function EventsOf(s: EvalState, id: string): seq<RunEvent> { if id in s.events then s.events[id] else [] }

  function CaseIds(items: seq<Item>): (r: seq<string>)
    ensures |r| == |items| && forall i :: 0 <= i < |items| ==> r[i] == items[i].evalCaseId
  {
    seq(|items|, i requires 0 <= i < |items| => items[i].evalCaseId)
  }

  /** A usable membership list: not empty, no eval case twice. */
  ghost predicate WellFormedItems(items: seq<Item>) {
    items != [] && Distinct(CaseIds(items))
  }

  /** The row write and the event append of one locked store step. */
  function PutRun(s: EvalState, run: Run, action: Action, actor: string, detail: string, at: int): EvalState {
    s.(runs := s.runs[run.id := run],
       events := s.events[run.id := EventsOf(s, run.id)
                          + [RunEvent(s.nextEvent + 1, run.id, action, actor, detail, at)]],
       nextEvent := s.nextEvent + 1)
  }

  /** One event is appended to the log of run `id`, under the next event id. */
  ghost predicate OneEvent(s: EvalState, s': EvalState, id: string, action: Action, actor: string, detail: string,
                           at: int) {
    && s'.nextEvent == s.nextEvent + 1
    && s'.events == s.events[id := EventsOf(s, id) + [RunEvent(s'.nextEvent, id, action, actor, detail, at)]]
  }

  function CreateRun(s: EvalState, run: Run, items: seq<Item>): EvalState {
    PutRun(s, run, ActCreated, run.createdBy, StatusName(run.status), run.createdAt)
    .(items := s.items[run.id := items])
  }

  function NewRun(id: string, d: Dataset, createdBy: string, now: int): Run {
    Run(id, d.tenantId, d.id, d.name, |d.items|, Queued, createdBy, "", now, now, 0, 0)
  }

  function ClaimedRun(run: Run, startedAt: int): Run {
    run.(status := Running, errorReason := "", updatedAt := startedAt,
         startedAt := if run.startedAt == 0 then startedAt else run.startedAt)
  }

  function ClaimOne(s: EvalState, id: string, startedAt: int): EvalState
    requires id in s.runs
  {
    PutRun(s, ClaimedRun(s.runs[id], startedAt), ActClaimed, "worker", StatusName(Running), startedAt)
  }

  ghost predicate KeyedById(s: EvalState) {
    forall id :: id in s.runs ==> s.runs[id].id == id
  }

  function ClaimAll(s: EvalState, ids: seq<string>, startedAt: int): (r: EvalState)
    requires forall id :: id in ids ==> id in s.runs
    ensures s.runs.Keys <= r.runs.Keys
  {
    if ids == [] then s
    else ClaimOne(ClaimAll(s, ids[..|ids| - 1], startedAt), ids[|ids| - 1], startedAt)
  }

  lemma {:induction false} ClaimAllRows(s: EvalState, ids: seq<string>, startedAt: int)
    requires KeyedById(s) && Distinct(ids)
    requires forall id :: id in ids ==> id in s.runs
    ensures var r := ClaimAll(s, ids, startedAt);
            && KeyedById(r) && r.runs.Keys == s.runs.Keys
            && r.items == s.items && r.results == s.results && r.datasets == s.datasets
            && forall id :: id in s.runs ==>
               var run := s.runs[id];
               r.runs[id] == if id in ids
                             then run.(status := Running, errorReason := "", updatedAt := startedAt,
                                       startedAt := if run.startedAt == 0 then startedAt else run.startedAt)
                             else run
  {
    if ids != [] {
      assert ids == ids[..|ids| - 1] + [ids[|ids| - 1]];
      ClaimAllRows(s, ids[..|ids| - 1], startedAt);
    }
  }

  /** Oldest first, ids breaking ties. */
  predicate ClaimsBefore(a: Run, b: Run) {
    a.createdAt < b.createdAt || (a.createdAt == b.createdAt && StrLe(a.id, b.id))
  }

  lemma ClaimsBeforeIsTotal()
    ensures TotalPreorder(ClaimsBefore)
  {
    StrLeIsTotalOrder();
  }

  /** The batch a claim takes: the `limit` first queued runs in claim order. */
  ghost predicate ClaimBatch(s: EvalState, limit: nat, ids: seq<string>) {
    && Distinct(ids)
    && (forall id :: id in ids ==> id in s.runs && s.runs[id].status == Queued)
    && (forall i, j :: 0 <= i < j < |ids| ==> ClaimsBefore(s.runs[ids[i]], s.runs[ids[j]]))
    && (forall id, c :: id in s.runs && s.runs[id].status == Queued && id !in ids && c in ids
                        ==> ClaimsBefore(s.runs[c], s.runs[id]))
    && |ids| <= limit
    && ((exists id :: id in s.runs && s.runs[id].status == Queued && id !in ids) ==> |ids| == limit)
  }

  /** No claimed run overtakes a queued one: older runs go first, among equally old ones the smaller id, and a run is
      left behind only if the batch is full. */
  lemma ClaimIsFifo(s: EvalState, limit: nat, ids: seq<string>)
    requires KeyedById(s) && ClaimBatch(s, limit, ids)
    ensures forall i, j :: 0 <= i < j < |ids| ==>
              var (a, b) := (s.runs[ids[i]], s.runs[ids[j]]);
              a.createdAt < b.createdAt || (a.createdAt == b.createdAt && StrLt(a.id, b.id))
    ensures forall id, c :: id in s.runs && s.runs[id].status == Queued && id !in ids && c in ids ==>
              && |ids| == limit
              && (s.runs[c].createdAt < s.runs[id].createdAt
                  || (s.runs[c].createdAt == s.runs[id].createdAt && StrLt(c, id)))
  {
    hide StrLe;
  }

  /** RetryRun, MarkRunSucceeded and MarkRunFailed check the status under the lock. */
  function Retry(s: EvalState, id: string, at: int): Result<EvalState, Error> {
    if id !in s.runs then Failure(NotFound)
    else if s.runs[id].status != Failed then Failure(InvalidState)
    else
      var run := s.runs[id].(status := Queued, errorReason := "", updatedAt := at, startedAt := 0, finishedAt := 0);
      Success(PutRun(s, run, ActRetried, "operator", StatusName(Queued), at).(results := s.results - {id}))
  }

  datatype Ending = EndSucceeded | EndFailed(reason: string) {
    function Status(): RunStatus { if EndSucceeded? then Succeeded else Failed }
    function Item(): ItemStatus { if EndSucceeded? then ItemSucceeded else ItemFailed }
    function Act(): Action { if EndSucceeded? then ActSucceeded else ActFailed }
    function Reason(): string { if EndSucceeded? then "" else reason }
    function Detail(): string { if EndSucceeded? then "succeeded" else reason }
  }

  function Mark(s: EvalState, id: string, how: Ending, at: int, results: seq<ItemResult>): Result<EvalState, Error> {
    if id !in s.runs then Failure(NotFound)
    else if s.runs[id].status != Running then Failure(InvalidState)
    else
      var run := s.runs[id].(status := how.Status(), errorReason := how.Reason(), updatedAt := at, finishedAt := at);
      Success(PutRun(s, run, how.Act(), "worker", how.Detail(), at).(results := s.results[id := results]))
  }

  /** AddDatasetItem at the store: the membership test is under the lock, the status test is not. */
  function AddItem(s: EvalState, datasetId: string, item: Item, at: int): Result<EvalState, Error> {
    if datasetId !in s.datasets then Failure(NotFound)
    else
      var d := s.datasets[datasetId];
      if item.evalCaseId in CaseIds(d.items) then Success(s)
      else Success(s.(datasets := s.datasets[datasetId := d.(items := d.items + [item], updatedAt := at)]))
  }

  function Publish(s: EvalState, datasetId: string, actor: string, at: int): Result<EvalState, Error> {
    if datasetId !in s.datasets then Failure(NotFound)
    else
      var d := s.datasets[datasetId];
      if d.status != Draft then Failure(InvalidState)
      else Success(s.(datasets := s.datasets[datasetId :=
                        d.(status := Published, publishedBy := actor, publishedAt := at, updatedAt := at)]))
  }

  // ---------- the judge ----------

  datatype Decision = Decision(verdict: Verdict, score: real, rationale: string)
  datatype Judge = Judge(version: string, decide: (Item, ItemStatus, string) -> Result<Decision, string>)

  const PLACEHOLDER := Judge("placeholder-v1", (item: Item, status: ItemStatus, detail: string) =>
                               Success(if status == ItemSucceeded then Decision(Pass, 1.0, detail)
                                       else Decision(FailVerdict, 0.0, detail)))

  /** `results` has one entry per item, in item order, all with the given status. */
  ghost predicate OnePerItem(items: seq<Item>, results: seq<ItemResult>, status: ItemStatus) {
    && |results| == |items|
    && forall i :: 0 <= i < |items| ==> results[i].evalCaseId == items[i].evalCaseId && results[i].status == status
  }

  /** One result per item, in item order, each carrying what the judge decided on its item. */
  ghost predicate JudgedBy(j: Judge, items: seq<Item>, status: ItemStatus, detail: string, at: int,
                           rs: seq<ItemResult>) {
    && |rs| == |items|
    && forall i :: 0 <= i < |items| ==>
         var d := j.decide(items[i], status, detail);
         && d.Success?
         && rs[i].evalCaseId == items[i].evalCaseId && rs[i].status == status && rs[i].judgeVersion == j.version
         && rs[i].verdict == d.value.verdict && rs[i].score == d.value.score && rs[i].detail == d.value.rationale
         && rs[i].updatedAt == at
  }

  /** BuildItemResults: judges the items one by one and gives up at the first error. */
  method BuildItemResults(j: Judge, items: seq<Item>, status: ItemStatus, detail: string, at: int)
    returns (r: Result<seq<ItemResult>, Error>)
    ensures r.Success? <==> forall i :: 0 <= i < |items| ==> j.decide(items[i], status, detail).Success?
    ensures r.Success? ==> OnePerItem(items, r.value, status)
    ensures r.Success? ==> JudgedBy(j, items, status, detail, at, r.value)
  {
    var results: seq<ItemResult> := [];
    for k := 0 to |items|
      invariant |results| == k
      invariant forall i :: 0 <= i < k ==> j.decide(items[i], status, detail).Success?
      invariant JudgedBy(j, items[..k], status, detail, at, results)
    {
      var d := j.decide(items[k], status, detail);
      if d.Failure? {
        return Failure(External(d.error));
      }
      results := results + [ItemResult(items[k].evalCaseId, status, d.value.verdict, d.value.rationale, d.value.score,
                                       j.version, at)];
    }
    assert items[..|items|] == items;
    r := Success(results);
  }
}
