/** Promotion, approval, retry and the worker batch, over the in-memory store. */
module WorkflowService {
  import opened Common
  import opened WorkflowStore
  import opened WorkflowAudit

  // ---------- the service's writes ----------

  function PromotedTask(id: string, req: PromoteRequest, versionId: string, now: int): Task {
    Task(id, req, versionId, if req.requiresApproval then WaitingApproval else Queued, "", "", now, now)
  }

  function Create(s: StoreState, task: Task): StoreState {
    Put(s, task, AuditEvent(0, task.id, ActCreated, "api", StatusName(task.status), task.createdAt))
  }

  predicate StartsOnPromote(task: Task) {
    task.request.taskType == ApprovedToolExecution && task.request.requiresApproval
  }

  function StartFailed(t: Task, err: string, now: int): Task {
    t.(status := Failed, errorReason := err, auditRef := "temporal:start_failed", updatedAt := now)
  }

  function RecordStartFailure(s: StoreState, t: Task, err: string, now: int): StoreState {
    Put(s, StartFailed(t, err, now), AuditEvent(0, t.id, ActFailed, "api", err, now))
  }

  datatype Resume = Approval | Retrial {
    function From(): Status { if Approval? then WaitingApproval else Failed }
    function Act(): Action { if Approval? then ActApproved else ActRetried }
    function Ref(): string { if Approval? then "approval:" else "retry:" }
  }

  function Resumed(t: Task, how: Resume, actor: string, now: int): Task {
    t.(status := Queued, errorReason := "", auditRef := how.Ref() + actor, updatedAt := now)
  }

  /** The write half of ApproveTask and RetryTask, from the row `t` that the call read. */
  function RecordResume(s: StoreState, t: Task, how: Resume, actor: string, now: int): StoreState {
    Put(s, Resumed(t, how, actor, now), AuditEvent(0, t.id, how.Act(), actor, StatusName(Queued), now))
  }

  // ---------- the worker's settlement of one claimed task ----------

  /** What the collaborators answer while one task is processed. `version` is the version source,
      if one is configured; `classify` words a failure. */
  datatype Recorder = NoRecorder | Plain(failure: Option<string>) | Atomic(failure: Option<string>)
  datatype Outcome = Outcome(
    execError: Option<string>, auditRef: string, detail: string,
    version: Option<Result<string, string>>, recorder: Recorder, reportVersion: string,
    classify: string -> string, at: int)

  function Fallback(value: string, fallback: string): string {
    if value != "" then value else fallback
  }

  function Fail(t: Task, err: string, o: Outcome): Task {
    t.(status := Failed, errorReason := err,
       auditRef := Fallback(o.auditRef, "worker:placeholder_failed"), updatedAt := o.at)
  }

  predicate RecordsReport(t: Task, o: Outcome) {
    o.execError.None? && t.request.taskType == ReportGeneration && !o.recorder.NoRecorder?
  }

  predicate VersionLookupFails(t: Task, o: Outcome) {
    t.versionId == "" && o.version.Some? && o.version.value.Failure?
  }

  /** The atomic finalizer succeeds although the version lookup has already failed the task. */
  predicate FinalizesFailedTask(t: Task, o: Outcome) {
    RecordsReport(t, o) && VersionLookupFails(t, o) && o.recorder == Atomic(None)
  }

  /** The task and the action the worker hands to the store. A task succeeds exactly when its
      execution, the version lookup it needs and its report write all do, whatever the recorder;
      only the outcome columns change; and the action agrees with the written status in the status
      automaton except when the atomic finalizer accepts a task already failed by the lookup. */
  function Settle(t: Task, o: Outcome): (r: (Task, Action))
    ensures r.0 == t.(status := r.0.status, errorReason := r.0.errorReason, auditRef := r.0.auditRef,
                      updatedAt := o.at, versionId := r.0.versionId)
    ensures r.0.status == Succeeded || r.0.status == Failed
    ensures r.0.status == Succeeded <==>
              o.execError.None?
              && (t.request.taskType == ReportGeneration && !o.recorder.NoRecorder? ==>
                    o.recorder.failure.None?
                    && (t.versionId == "" && o.version.Some? ==> o.version.value.Success?))
    ensures r.0.status == Succeeded ==> r.0.errorReason == ""
    ensures o.execError.Some? ==> r.0.errorReason == o.execError.value
    ensures RecordsReport(t, o) && o.recorder.failure.Some? ==> r.0.errorReason == o.recorder.failure.value
    ensures RecordsReport(t, o) && o.recorder.failure.None? && VersionLookupFails(t, o) ==>
              r.0.errorReason == o.version.value.error
    ensures r.0.auditRef == (if o.auditRef != "" then o.auditRef
                             else if r.0.status == Succeeded then "worker:placeholder_succeeded"
                             else "worker:placeholder_failed")
    ensures !RecordsReport(t, o) || t.versionId != "" ==> r.0.versionId == t.versionId
    ensures RecordsReport(t, o) && t.versionId == "" ==>
              var found := if o.version.Some? && o.version.value.Success? then o.version.value.value else "";
              r.0.versionId == if found == "" && o.recorder == Atomic(None) then o.reportVersion else found
    ensures forall gated :: Delta(gated, At(Running), r.1) == At(r.0.status) <==> !FinalizesFailedTask(t, o)
  {
    if o.execError.Some? then (Fail(t, o.execError.value, o), ActFailed)
    else
      var done := t.(status := Succeeded, errorReason := "",
                     auditRef := Fallback(o.auditRef, "worker:placeholder_succeeded"), updatedAt := o.at);
      if !RecordsReport(t, o) then (done, ActSucceeded)
      else
        var (t1, a1) :=
          if t.versionId == "" && o.version.Some? then
            match o.version.value
            case Failure(e) => (Fail(done, e, o), ActFailed)
            case Success(v) => (done.(versionId := v), ActSucceeded)
          else (done, ActSucceeded);
        match o.recorder
        case Plain(None) => (t1, a1)
        case Plain(Some(e)) => (Fail(t1, e, o), ActFailed)
        case Atomic(None) => (if t1.versionId == "" then t1.(versionId := o.reportVersion) else t1, ActSucceeded)
        case Atomic(Some(e)) => (Fail(t1, e, o), ActFailed)
        case NoRecorder => (t1, a1)
  }

  function SettledDetail(t: Task, a: Action, o: Outcome): string {
    if a == ActSucceeded then Fallback(o.detail, StatusName(t.status))
    else Fallback(o.classify(t.errorReason), StatusName(t.status))
  }

  function RecordSettlement(s: StoreState, t: Task, o: Outcome): StoreState {
    var (t', a) := Settle(t, o);
    Put(s, t', AuditEvent(0, t.id, a, "worker", SettledDetail(t', a, o), o.at))
  }

  /** Settling a claimed batch in order; `o(t)` is what the collaborators answer for task `t`. */
  function SettleAll(s: StoreState, ts: seq<Task>, o: Task -> Outcome): StoreState {
    if ts == [] then s
    else RecordSettlement(SettleAll(s, ts[..|ts| - 1], o), ts[|ts| - 1], o(ts[|ts| - 1]))
  }

  lemma SettleOne(s: StoreState, t: Task, o: Outcome)
    ensures RecordSettlement(s, t, o).tasks == s.tasks[t.id := Settle(t, o).0]
  {
  }

  lemma FrontIds(ts: seq<Task>)
    requires ts != [] && Distinct(Ids(ts))
    ensures var last, front := ts[|ts| - 1], ts[..|ts| - 1];
            && Distinct(Ids(front)) && (forall t :: t in front ==> t.id != last.id)
            && (forall id :: id in Ids(ts) <==> id in Ids(front) || id == last.id)
  {
    var last, front := ts[|ts| - 1], ts[..|ts| - 1];
    assert ts == front + [last] && Ids(front) == Ids(ts)[..|front|];
    forall t | t in front ensures t.id != last.id {
      var k :| 0 <= k < |front| && front[k] == t;
      assert Ids(ts)[k] == t.id && Ids(ts)[|front|] == last.id;
    }
  }

  lemma {:induction false} SettleAllRows(s: StoreState, ts: seq<Task>, o: Task -> Outcome)
    requires Distinct(Ids(ts)) && forall k :: 0 <= k < |ts| ==> ts[k].id in s.tasks
    ensures SettleAll(s, ts, o).tasks.Keys == s.tasks.Keys
    ensures forall k :: 0 <= k < |ts| ==> SettleAll(s, ts, o).tasks[ts[k].id] == Settle(ts[k], o(ts[k])).0
    ensures forall id :: id in s.tasks && id !in Ids(ts) ==> SettleAll(s, ts, o).tasks[id] == s.tasks[id]
  {
    if ts != [] {
      var last, front := ts[|ts| - 1], ts[..|ts| - 1];
      FrontIds(ts);
      SettleAllRows(s, front, o);
      SettleOne(SettleAll(s, front, o), last, o(last));
      hide Settle, RecordSettlement, Distinct, Ids;
      forall k | 0 <= k < |ts| ensures SettleAll(s, ts, o).tasks[ts[k].id] == Settle(ts[k], o(ts[k])).0 {
        if k < |front| {
          assert front[k] == ts[k] && front[k] in front;
        }
      }
    }
  }

  /** One more task of a batch, still as it was claimed. */
  lemma SettleNext(s: StoreState, ts: seq<Task>, i: nat, o: Task -> Outcome)
    requires Distinct(Ids(ts)) && i < |ts| && forall t :: t in ts ==> t.id in s.tasks && s.tasks[t.id] == t
    ensures SettleAll(s, ts[..0], o) == s
    ensures ts[i].id in SettleAll(s, ts[..i], o).tasks && SettleAll(s, ts[..i], o).tasks[ts[i].id] == ts[i]
    ensures SettleAll(s, ts[..i + 1], o) == RecordSettlement(SettleAll(s, ts[..i], o), ts[i], o(ts[i]))
  {
    assert ts[..i + 1][..i] == ts[..i] && Ids(ts[..i]) == Ids(ts)[..i] && ts[i] in ts;
    hide Settle, RecordSettlement;
    SettleAllRows(s, ts[..i], o);
    assert Ids(ts)[i] !in Ids(ts)[..i];
  }

  /** Whatever FIFO batch a claim takes, settling it leaves every claimed task terminal, every other
      task as it was, and nothing queued is overtaken. */
  lemma BatchEndsTerminal(s: StoreState, limit: int, now: int, claimed: seq<Task>, s1: StoreState, o: Task -> Outcome)
    requires KeyedById(s) && ClaimStep(s, limit, now, claimed, s1)
    ensures var s2 := SettleAll(s1, claimed, o);
            && s2.tasks.Keys == s.tasks.Keys
            && forall id :: id in s.tasks ==>
                 if id in Ids(claimed)
                 then s.tasks[id].status == Queued && s2.tasks[id].status in {Succeeded, Failed}
                 else s2.tasks[id] == s.tasks[id]
  {
    var ids := Ids(claimed);
    if limit > 0 {
      ClaimAllRows(s, ids, now);
    }
    assert forall t :: t in claimed ==> t.id in ids by {
      forall t | t in claimed ensures t.id in ids {
        var k :| 0 <= k < |claimed| && claimed[k] == t;
        assert ids[k] == t.id;
      }
    }
    SettleAllRows(s1, claimed, o);
    forall id | id in s.tasks && id in ids
      ensures SettleAll(s1, claimed, o).tasks[id].status in {Succeeded, Failed}
    {
      var k :| 0 <= k < |ids| && ids[k] == id;
      assert claimed[k] in claimed;
    }
  }

  // ---------- the service and the runner ----------

  class Service {
    const store: MemoryStore
    const hasStarter: bool

    constructor (store: MemoryStore, hasStarter: bool)
      ensures this.store == store && this.hasStarter == hasStarter
    {
      this.store := store;
      this.hasStarter := hasStarter;
    }

    /** `id` is the fresh task id, `version` the version source's answer if one is configured,
        `startError` what the workflow starter answers if it is called. */
    method Promote(id: string, req: PromoteRequest, now: int, version: Option<Result<string, string>>,
                   startError: Option<string>, failedAt: int)
      returns (r: Result<Task, Error>)
      modifies store
      ensures version.Some? && version.value.Failure? ==>
                r == Failure(External(version.value.error)) && store.State() == old(store.State())
      ensures !(version.Some? && version.value.Failure?) ==>
                var t := PromotedTask(id, req, if version.Some? then version.value.value else "", now);
                var s := Create(old(store.State()), t);
                if StartsOnPromote(t) && hasStarter && startError.Some?
                then r == Success(StartFailed(t, startError.value, failedAt))
                     && store.State() == RecordStartFailure(s, t, startError.value, failedAt)
                else r == Success(t) && store.State() == s
      ensures r.Success? ==>
                && r.value.id == id && r.value.request == req && r.value.createdAt == now
                && r.value.versionId == (if version.Some? then version.value.value else "")
                && (if req.taskType == ApprovedToolExecution && req.requiresApproval && hasStarter && startError.Some?
                    then r.value.status == Failed && r.value.errorReason == startError.value
                    else r.value.status == (if req.requiresApproval then WaitingApproval else Queued)
                         && r.value.errorReason == "")
                && store.State().tasks == old(store.State()).tasks[id := r.value]
    {
      var versionId := "";
      if version.Some? {
        if version.value.Failure? {
          return Failure(External(version.value.error));
        }
        versionId := version.value.value;
      }
      var task := Task(id, req, versionId, Queued, "", "", now, now);
      if req.requiresApproval {
        task := task.(status := WaitingApproval);
      }
      var created := store.CreateTaskWithEvent(
        task, AuditEvent(0, task.id, ActCreated, "api", StatusName(task.status), now));
      if StartsOnPromote(created) && hasStarter && startError.Some? {
        created := created.(status := Failed, errorReason := startError.value,
                            auditRef := "temporal:start_failed", updatedAt := failedAt);
        r := store.UpdateTaskWithEvent(
          created, AuditEvent(0, created.id, ActFailed, "api", created.errorReason, created.updatedAt));
        return;
      }
      r := Success(created);
    }

    /** ApproveTask and RetryTask: read the row, check its status, write it back queued. */
    method ResumeTask(id: string, how: Resume, actor: string, now: int) returns (r: Result<Task, Error>)
      requires KeyedById(store.State())
      modifies store
      ensures id !in old(store.tasks) ==> r == Failure(TaskNotFound(id))
      ensures id in old(store.tasks) && old(store.tasks)[id].status != how.From() ==>
                r == Failure(InvalidTransition(old(store.tasks)[id].status))
      ensures r.Failure? ==> store.State() == old(store.State())
      ensures r.Success? ==>
                && r.value == Resumed(old(store.tasks)[id], how, actor, now)
                && store.State() == RecordResume(old(store.State()), old(store.tasks)[id], how, actor, now)
      ensures r.Success? <==> id in old(store.tasks) && old(store.tasks)[id].status == how.From()
      ensures r.Success? ==>
                && old(store.tasks)[id].status == (if how.Approval? then WaitingApproval else Failed)
                && r.value.status == Queued && r.value.errorReason == ""
                && store.State().tasks == old(store.State()).tasks[id := r.value]
    {
      var got := store.GetTask(id);
      if got.Failure? {
        return Failure(got.error);
      }
      var task := got.value;
      if task.status != how.From() {
        return Failure(InvalidTransition(task.status));
      }
      task := task.(status := Queued, errorReason := "", auditRef := how.Ref() + actor, updatedAt := now);
      r := store.UpdateTaskWithEvent(
        task, AuditEvent(0, task.id, how.Act(), actor, StatusName(task.status), task.updatedAt));
    }
  }

  class Runner {
    const service: Service

    constructor (service: Service)
      ensures this.service == service
    {
      this.service := service;
    }

    /** The body of the worker loop for one claimed task. */
    method ProcessTask(task0: Task, o: Outcome) returns (r: Result<Task, Error>)
      modifies service.store
      ensures task0.id !in old(service.store.tasks) ==>
                r.Failure? && service.store.State() == old(service.store.State())
      ensures task0.id in old(service.store.tasks) ==>
                r.Success? && service.store.State() == RecordSettlement(old(service.store.State()), task0, o)
      ensures r.Success? ==>
                var log := Log(service.store.State(), task0.id);
                && log != []
                && var e := log[|log| - 1];
                   && e.actor == "worker" && e.createdAt == o.at
                   && (e.action == ActSucceeded ==>
                         e.detail == if o.detail != "" then o.detail else StatusName(r.value.status))
                   && (e.action != ActSucceeded ==>
                         var why := o.classify(r.value.errorReason);
                         e.detail == if why != "" then why else StatusName(r.value.status))
    {
      var task := task0;
      var action := ActSucceeded;
      if o.execError.Some? {
        task := Fail(task, o.execError.value, o);
      } else {
        task := task.(status := Succeeded, errorReason := "",
                      auditRef := Fallback(o.auditRef, "worker:placeholder_succeeded"), updatedAt := o.at);
      }
      if o.execError.None? && task.request.taskType == ReportGeneration && !o.recorder.NoRecorder? {
        if task.versionId == "" && o.version.Some? {
          if o.version.value.Failure? {
            task := Fail(task, o.version.value.error, o);
            action := ActFailed;
          } else {
            task := task.(versionId := o.version.value.value);
          }
        }
        if o.recorder.failure.Some? {
          task := Fail(task, o.recorder.failure.value, o);
          action := ActFailed;
        } else if o.recorder.Atomic? {
          if task.versionId == "" {
            task := task.(versionId := o.reportVersion);
          }
          r := service.store.UpdateTaskWithEvent(
            task, AuditEvent(0, task.id, ActSucceeded, "worker", SettledDetail(task, ActSucceeded, o), o.at));
          return;
        }
      } else if o.execError.Some? {
        action := ActFailed;
      }
      r := service.store.UpdateTaskWithEvent(
        task, AuditEvent(0, task.id, action, "worker", SettledDetail(task, action, o), task.updatedAt));
    }

    /** One worker batch with no other writer in between. */
    method ProcessNextBatch(limit: int, now: int, o: Task -> Outcome)
      returns (r: Result<nat, Error>, claimed: seq<Task>)
      requires KeyedById(service.store.State())
      modifies service.store
      ensures r == Success(|claimed|)
      ensures exists s1 :: ClaimStep(old(service.store.State()), limit, now, claimed, s1)
                           && service.store.State() == SettleAll(s1, claimed, o)
      ensures service.store.tasks.Keys == old(service.store.tasks).Keys
      ensures forall id :: id in old(service.store.tasks) ==>
                if id in Ids(claimed)
                then old(service.store.tasks)[id].status == Queued
                    && service.store.tasks[id].status in {Succeeded, Failed}
                else service.store.tasks[id] == old(service.store.tasks)[id]
    {
      ghost var s := service.store.State();
      claimed := service.store.ClaimQueuedTasks(limit, now);
      ghost var s1 := service.store.State();
      ClaimedAreStored(s, limit, now, claimed, s1);
      assert claimed[..0] == [] && SettleAll(s1, claimed[..0], o) == s1;
      hide SettleAll, RecordSettlement, ClaimStep, KeyedById, Distinct;
      for i := 0 to |claimed|
        invariant service.store.State() == SettleAll(s1, claimed[..i], o)
      {
        SettleNext(s1, claimed, i, o);
        var one := ProcessTask(claimed[i], o(claimed[i]));
        match one {
          case Success(_) =>
          case Failure(e) => return Failure(e), claimed;
        }
      }
      assert claimed[..|claimed|] == claimed;
      BatchEndsTerminal(s, limit, now, claimed, s1, o);
      r := Success(|claimed|);
    }
  }

  lemma ClaimedAreStored(s: StoreState, limit: int, now: int, claimed: seq<Task>, s1: StoreState)
    requires KeyedById(s) && ClaimStep(s, limit, now, claimed, s1)
    ensures s1.tasks.Keys == s.tasks.Keys
    ensures Distinct(Ids(claimed)) && forall t :: t in claimed ==>
              t.id in s1.tasks && s1.tasks[t.id] == t && t.status == Running
  {
    if limit > 0 {
      ClaimAllRows(s, Ids(claimed), now);
      forall t | t in claimed ensures t.id in s1.tasks && s1.tasks[t.id] == t {
        var k :| 0 <= k < |claimed| && claimed[k] == t;
        assert Ids(claimed)[k] in Ids(claimed);
      }
    }
  }
}
