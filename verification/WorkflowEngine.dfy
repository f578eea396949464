/** Any number of workers and API calls interleaving on one task store. */
module WorkflowEngine {
  import opened Common
  import opened WorkflowStore
  import opened WorkflowAudit
  import opened WorkflowService

  /** An API call between its read (or create) and its blind write; it holds the row it read. */
  datatype Call = Starting(task: Task) | Resuming(task: Task, how: Resume)

  /** `workers[w]` are the claimed tasks that worker `w` still holds, in order. */
  datatype Engine = Engine(store: StoreState, workers: map<nat, seq<Task>>, calls: map<nat, Call>)

  const INIT := Engine(EMPTY, map[], map[])

  datatype Label =
    | PromoteCreate(call: nat, id: string, req: PromoteRequest, versionId: string, now: int)
    | StartReturn(call: nat, error: Option<string>, now: int)
    | ReadRow(call: nat, id: string, how: Resume)
    | WriteRow(call: nat, actor: string, now: int)
    | Claim(worker: nat, limit: int, now: int, claimed: seq<Task>)
    | Finish(worker: nat, outcome: Outcome)
    | Abandon(worker: nat)

  function Pending(e: Engine, w: nat): seq<Task> {
    if w in e.workers then e.workers[w] else []
  }

  ghost predicate Holds(e: Engine, w: nat, id: string) {
    id in Ids(Pending(e, w))
  }

  ghost predicate Enabled(e: Engine, l: Label) {
    match l
    case PromoteCreate(c, id, _, _, _) => c !in e.calls && id !in e.store.tasks
    case StartReturn(c, _, _) => c in e.calls && e.calls[c].Starting?
    case ReadRow(c, id, how) => c !in e.calls && id in e.store.tasks && e.store.tasks[id].status == how.From()
    case WriteRow(c, _, _) => c in e.calls && e.calls[c].Resuming? && e.calls[c].task.id in e.store.tasks
    case Claim(w, limit, now, claimed) =>
      && Pending(e, w) == []
      && (forall id :: id in Ids(claimed) ==> id in e.store.tasks)
      && ClaimStep(e.store, limit, now, claimed, ClaimAll(e.store, Ids(claimed), now))
    case Finish(w, _) => Pending(e, w) != []
    case Abandon(w) => Pending(e, w) != []
  }

  ghost function Apply(e: Engine, l: Label): Engine
    requires Enabled(e, l)
  {
    match l
    case PromoteCreate(c, id, req, versionId, now) =>
      var t := PromotedTask(id, req, versionId, now);
      e.(store := Create(e.store, t), calls := if StartsOnPromote(t) then e.calls[c := Starting(t)] else e.calls)
    case StartReturn(c, error, now) =>
      e.(store := if error.Some? then RecordStartFailure(e.store, e.calls[c].task, error.value, now) else e.store,
         calls := e.calls - {c})
    case ReadRow(c, id, how) => e.(calls := e.calls[c := Resuming(e.store.tasks[id], how)])
    case WriteRow(c, actor, now) =>
      e.(store := RecordResume(e.store, e.calls[c].task, e.calls[c].how, actor, now), calls := e.calls - {c})
    case Claim(w, limit, now, claimed) =>
      e.(store := ClaimAll(e.store, Ids(claimed), now), workers := e.workers[w := claimed])
    case Finish(w, o) =>
      e.(store := RecordSettlement(e.store, Pending(e, w)[0], o), workers := e.workers[w := Pending(e, w)[1..]])
    case Abandon(w) => e.(workers := e.workers[w := []])
  }

  /** What the code does not check itself, and needs. An approval or retry is written while the row still has
      the status it is legal from. A failed start is written while the row still waits, or is running with
      no worker holding it; a strict run is one in which it does not meet a waiting row. The atomic
      finalizer is not handed a task that the version lookup has failed. */
  ghost predicate Guarded(e: Engine, l: Label, strict: bool)
    requires Enabled(e, l)
  {
    match l
    case StartReturn(c, error, _) =>
      var id := e.calls[c].task.id;
      error.Some? && id in e.store.tasks ==>
        || (e.store.tasks[id].status == WaitingApproval && !strict)
        || (e.store.tasks[id].status == Running && forall w :: !Holds(e, w, id))
    case WriteRow(c, _, _) => e.store.tasks[e.calls[c].task.id].status == e.calls[c].how.From()
    case Finish(w, o) => !FinalizesFailedTask(Pending(e, w)[0], o)
    case _ => true
  }

  /** `es` are the states of the run that performs the steps `ls`. */
  ghost predicate IsRun(es: seq<Engine>, ls: seq<Label>) {
    && |es| == |ls| + 1
    && es[0] == INIT
    && forall i :: 0 <= i < |ls| ==> Enabled(es[i], ls[i]) && es[i + 1] == Apply(es[i], ls[i])
  }

  ghost predicate IsGuardedRun(es: seq<Engine>, ls: seq<Label>, strict: bool) {
    IsRun(es, ls) && forall i :: 0 <= i < |ls| ==> Guarded(es[i], ls[i], strict)
  }

  // ---------- the store invariant ----------

  ghost predicate Gated(t: Task) { t.request.requiresApproval }

  ghost predicate LogOk(log: seq<AuditEvent>, id: string, limit: nat) {
    Ordered(log) && forall k :: 0 <= k < |log| ==> log[k].taskId == id && 0 < log[k].id <= limit
  }

  /** The row's log is ordered, its own, and replays to the row's status; in a strict run a gated
      task leaves its waiting state by approval. */
  ghost predicate RowOk(t: Task, log: seq<AuditEvent>, id: string, limit: nat, strict: bool) {
    && t.id == id
    && LogOk(log, id, limit)
    && Replay(Gated(t), log) == At(t.status)
    && (strict && Gated(t) && |log| >= 2 ==> log[1].action == ActApproved)
  }

  ghost predicate StoreInv(s: StoreState, strict: bool) {
    && s.tasks.Keys == s.events.Keys
    && forall id :: id in s.tasks ==> RowOk(s.tasks[id], Log(s, id), id, s.nextEventID, strict)
  }

  lemma RowOkAfter(t: Task, log: seq<AuditEvent>, e: AuditEvent, limit: nat, strict: bool)
    requires LogOk(log, t.id, limit) && e.taskId == t.id && e.id == limit + 1
    requires strict && Gated(t) && |log| >= 2 ==> log[1].action == ActApproved
    requires Delta(Gated(t), Replay(Gated(t), log), e.action) == At(t.status)
    requires strict && e.action == ActFailed ==> Replay(Gated(t), log) != At(WaitingApproval)
    ensures RowOk(t, log + [e], t.id, limit + 1, strict)
  {
    ReplaySnoc(Gated(t), log, e);
    if Gated(t) {
      GatedLogShape(log);
    }
  }

  lemma OldRow(s: StoreState, id: string, strict: bool)
    requires StoreInv(s, strict)
    ensures LogOk(Log(s, id), id, s.nextEventID)
    ensures id in s.tasks ==> s.tasks[id].id == id && RowOk(s.tasks[id], Log(s, id), id, s.nextEventID + 1, strict)
    ensures id in s.tasks && strict && Gated(s.tasks[id]) && |Log(s, id)| >= 2 ==> Log(s, id)[1].action == ActApproved
    ensures id !in s.tasks ==> Log(s, id) == []
  {
    if id in s.tasks {
      assert RowOk(s.tasks[id], Log(s, id), id, s.nextEventID, strict);
    }
  }

  /** The one fact behind every step: a write that follows the automaton keeps the invariant. */
  lemma PutKeepsInv(s: StoreState, t: Task, e: AuditEvent, strict: bool)
    requires StoreInv(s, strict) && e.taskId == t.id
    requires t.id in s.tasks ==> Gated(s.tasks[t.id]) == Gated(t)
    requires Delta(Gated(t), Replay(Gated(t), Log(s, t.id)), e.action) == At(t.status)
    requires strict && e.action == ActFailed ==> Replay(Gated(t), Log(s, t.id)) != At(WaitingApproval)
    ensures StoreInv(Put(s, t, e), strict)
  {
    hide Replay, LogOk, RowOk;
    var s', limit := Put(s, t, e), s.nextEventID;
    OldRow(s, t.id, strict);
    RowOkAfter(t, Log(s, t.id), e.(id := limit + 1), limit, strict);
    forall id | id in s'.tasks ensures RowOk(s'.tasks[id], Log(s', id), id, limit + 1, strict) {
      if id != t.id {
        OldRow(s, id, strict);
      }
    }
  }

  lemma {:induction false} ClaimKeepsInv(s: StoreState, ids: seq<string>, now: int, strict: bool)
    requires StoreInv(s, strict) && KeyedById(s) && Distinct(ids)
    requires forall id :: id in ids ==> id in s.tasks && s.tasks[id].status == Queued
    ensures StoreInv(ClaimAll(s, ids, now), strict)
  {
    if ids != [] {
      var last, front := ids[|ids| - 1], ids[..|ids| - 1];
      assert ids == front + [last] && last !in front;
      ClaimKeepsInv(s, front, now, strict);
      ClaimAllRows(s, front, now);
      ClaimOneKeepsInv(ClaimAll(s, front, now), last, now, strict);
    }
  }

  lemma ClaimOneKeepsInv(s: StoreState, id: string, now: int, strict: bool)
    requires StoreInv(s, strict) && id in s.tasks && s.tasks[id].status == Queued
    ensures StoreInv(ClaimOne(s, id, now), strict)
  {
    var t := ClaimedTask(s.tasks[id], now);
    assert RowOk(s.tasks[id], Log(s, id), id, s.nextEventID, strict);
    PutKeepsInv(s, t, AuditEvent(0, t.id, ActClaimed, "worker", StatusName(Running), now), strict);
  }

  lemma InvIsKeyed(s: StoreState, strict: bool)
    requires StoreInv(s, strict)
    ensures KeyedById(s)
  {
    forall id | id in s.tasks ensures s.tasks[id].id == id {
      assert RowOk(s.tasks[id], Log(s, id), id, s.nextEventID, strict);
    }
  }

  // ---------- ownership ----------

  /** A running task is held by at most one worker, once, and the stored row is that worker's copy. */
  ghost predicate OwnInv(e: Engine) {
    && (forall w :: Distinct(Ids(Pending(e, w))))
    && (forall w, k :: 0 <= k < |Pending(e, w)| ==>
          var t := Pending(e, w)[k];
          t.id in e.store.tasks && e.store.tasks[t.id] == t && t.status == Running)
    && (forall w, v, id :: Holds(e, w, id) && Holds(e, v, id) ==> w == v)
  }

  /** The request of a stored task never changes, so a call's copy agrees with the row on it. */
  ghost predicate Known(s: StoreState, t: Task) {
    t.id in s.tasks && s.tasks[t.id].request == t.request
  }

  ghost predicate CallsInv(e: Engine) {
    forall c :: c in e.calls ==>
      && Known(e.store, e.calls[c].task)
      && match e.calls[c]
         case Starting(t) => t.status == WaitingApproval && Gated(t)
         case Resuming(t, how) => t.status == how.From()
  }

  ghost predicate Inv(e: Engine, strict: bool) {
    StoreInv(e.store, strict) && OwnInv(e) && CallsInv(e)
  }

  // ---------- one step ----------

  lemma HeldRow(e: Engine, w: nat, id: string)
    requires OwnInv(e) && Holds(e, w, id)
    ensures id in e.store.tasks && e.store.tasks[id].status == Running && e.store.tasks[id] in Pending(e, w)
  {
    var k :| 0 <= k < |Pending(e, w)| && Ids(Pending(e, w))[k] == id;
    assert Pending(e, w)[k].id == id;
  }

  lemma HeldMeansRunning(e: Engine, id: string)
    requires OwnInv(e) && (id in e.store.tasks ==> e.store.tasks[id].status != Running)
    ensures forall w :: !Holds(e, w, id)
  {
    forall w ensures !Holds(e, w, id) {
      if Holds(e, w, id) {
        HeldRow(e, w, id);
      }
    }
  }

  /** A write to a row that no worker holds leaves every worker's copies exact. */
  lemma WriteBesideWorkers(e: Engine, t: Task, ev: AuditEvent, calls: map<nat, Call>)
    requires OwnInv(e) && forall w :: !Holds(e, w, t.id)
    ensures OwnInv(e.(store := Put(e.store, t, ev), calls := calls))
  {
    var e' := e.(store := Put(e.store, t, ev), calls := calls);
    assert forall w :: Pending(e', w) == Pending(e, w);
    forall w, k | 0 <= k < |Pending(e, w)| ensures Pending(e, w)[k].id != t.id {
      assert Ids(Pending(e, w))[k] == Pending(e, w)[k].id;
      assert !Holds(e, w, t.id);
    }
    assert forall w, id :: Holds(e', w, id) <==> Holds(e, w, id);
  }

  lemma RowReplays(s: StoreState, id: string, strict: bool)
    requires StoreInv(s, strict) && id in s.tasks
    ensures s.tasks[id].id == id && Replay(Gated(s.tasks[id]), Log(s, id)) == At(s.tasks[id].status)
  {
    assert RowOk(s.tasks[id], Log(s, id), id, s.nextEventID, strict);
  }

  lemma PutKeepsCalls(e: Engine, t: Task, ev: AuditEvent, calls: map<nat, Call>)
    requires CallsInv(e) && (t.id in e.store.tasks ==> Known(e.store, t))
    requires forall c :: c in calls ==> c in e.calls && calls[c] == e.calls[c]
    ensures CallsInv(e.(store := Put(e.store, t, ev), calls := calls))
  {
  }

  lemma CreateShape(e: Engine, l: Label)
    requires l.PromoteCreate? && Enabled(e, l)
    ensures var t := PromotedTask(l.id, l.req, l.versionId, l.now);
            var ev := AuditEvent(0, t.id, ActCreated, "api", StatusName(t.status), t.createdAt);
            && Apply(e, l) == e.(store := Put(e.store, t, ev), calls := Apply(e, l).calls)
            && t.id == l.id && l.id !in e.store.tasks
            && Delta(Gated(t), Start, ActCreated) == At(t.status)
            && (CallsInv(e) ==> CallsInv(Apply(e, l)))
  {
  }

  lemma CreateKeepsInv(e: Engine, l: Label, strict: bool)
    requires Inv(e, strict) && l.PromoteCreate? && Enabled(e, l)
    ensures Inv(Apply(e, l), strict)
  {
    CreateShape(e, l);
    OldRow(e.store, l.id, strict);
    assert Replay(l.req.requiresApproval, Log(e.store, l.id)) == Start;
    HeldMeansRunning(e, l.id);
    hide Replay, StoreInv, OwnInv, CallsInv, Apply, Put, Delta;
    var t := PromotedTask(l.id, l.req, l.versionId, l.now);
    var ev := AuditEvent(0, t.id, ActCreated, "api", StatusName(t.status), t.createdAt);
    PutKeepsInv(e.store, t, ev, strict);
    WriteBesideWorkers(e, t, ev, Apply(e, l).calls);
  }

  lemma SameWorkers(e: Engine, e': Engine)
    requires OwnInv(e) && e'.store == e.store && e'.workers == e.workers
    ensures OwnInv(e')
  {
    assert forall w :: Pending(e', w) == Pending(e, w);
    assert forall w, id :: Holds(e', w, id) <==> Holds(e, w, id);
  }

  /** A call's write over a stored row keeps the invariant exactly when its event is legal after the row's log
      (and, in a strict run, does not fail a waiting task) and no worker holds the row. */
  lemma CallWriteIff(e: Engine, c: nat, t: Task, ev: AuditEvent, strict: bool)
    requires Inv(e, strict) && c in e.calls && ev.taskId == t.id && Known(e.store, t) && t.status != Running
    ensures var row := e.store.tasks[t.id];
            Inv(e.(store := Put(e.store, t, ev), calls := e.calls - {c}), strict) <==>
              && Delta(Gated(row), At(row.status), ev.action) == At(t.status)
              && (strict && Gated(row) && ev.action == ActFailed ==> row.status != WaitingApproval)
              && forall w :: !Holds(e, w, t.id)
  {
    hide Inv, Put, Holds, Delta;
    var row := e.store.tasks[t.id];
    if Delta(Gated(row), At(row.status), ev.action) != At(t.status) {
      IllegalWrite(e, t, ev, e.calls - {c}, strict);
    } else if strict && Gated(row) && ev.action == ActFailed && row.status == WaitingApproval {
      WaitingWrite(e, t, ev, e.calls - {c});
    } else if w :| Holds(e, w, t.id) {
      HeldWrite(e, w, t, ev, e.calls - {c}, strict);
    } else {
      FreeWrite(e, c, t, ev, strict);
    }
  }

  lemma FreeWrite(e: Engine, c: nat, t: Task, ev: AuditEvent, strict: bool)
    requires Inv(e, strict) && ev.taskId == t.id && Known(e.store, t)
    requires Delta(Gated(t), At(e.store.tasks[t.id].status), ev.action) == At(t.status)
    requires strict && Gated(t) && ev.action == ActFailed ==> e.store.tasks[t.id].status != WaitingApproval
    requires forall w :: !Holds(e, w, t.id)
    ensures Inv(e.(store := Put(e.store, t, ev), calls := e.calls - {c}), strict)
  {
    RowReplays(e.store, t.id, strict);
    PutKeepsCalls(e, t, ev, e.calls - {c});
    PutKeepsInv(e.store, t, ev, strict);
    WriteBesideWorkers(e, t, ev, e.calls - {c});
  }

  lemma HeldWrite(e: Engine, w: nat, t: Task, ev: AuditEvent, calls: map<nat, Call>, strict: bool)
    requires Inv(e, strict) && Holds(e, w, t.id) && t.status != Running
    ensures !Inv(e.(store := Put(e.store, t, ev), calls := calls), strict)
  {
    var e' := e.(store := Put(e.store, t, ev), calls := calls);
    assert Pending(e', w) == Pending(e, w);
    if OwnInv(e') {
      HeldRow(e', w, t.id);
    }
  }

  lemma IllegalWrite(e: Engine, t: Task, ev: AuditEvent, calls: map<nat, Call>, strict: bool)
    requires Inv(e, strict) && ev.taskId == t.id && Known(e.store, t)
    requires Delta(Gated(t), At(e.store.tasks[t.id].status), ev.action) != At(t.status)
    ensures !Inv(e.(store := Put(e.store, t, ev), calls := calls), strict)
  {
    IllegalPut(e.store, t, ev, strict);
  }

  lemma WaitingWrite(e: Engine, t: Task, ev: AuditEvent, calls: map<nat, Call>)
    requires Inv(e, true) && ev.taskId == t.id && Known(e.store, t) && Gated(t)
    requires e.store.tasks[t.id].status == WaitingApproval && ev.action == ActFailed
    ensures !Inv(e.(store := Put(e.store, t, ev), calls := calls), true)
  {
    FailedWaiting(e.store, t, ev);
  }

  lemma IllegalPut(s: StoreState, t: Task, ev: AuditEvent, strict: bool)
    requires StoreInv(s, strict) && ev.taskId == t.id && Known(s, t)
    requires Delta(Gated(t), At(s.tasks[t.id].status), ev.action) != At(t.status)
    ensures !StoreInv(Put(s, t, ev), strict)
  {
    var s' := Put(s, t, ev);
    RowReplays(s, t.id, strict);
    ReplaySnoc(Gated(t), Log(s, t.id), ev.(id := s.nextEventID + 1));
    if StoreInv(s', strict) {
      RowReplays(s', t.id, strict);
    }
  }

  lemma FailedWaiting(s: StoreState, t: Task, ev: AuditEvent)
    requires StoreInv(s, true) && ev.taskId == t.id && Known(s, t) && Gated(t)
    requires s.tasks[t.id].status == WaitingApproval && ev.action == ActFailed
    ensures !StoreInv(Put(s, t, ev), true)
  {
    var log := Log(s, t.id);
    RowReplays(s, t.id, true);
    GatedLogShape(log);
    assert |log| == 1;
    assert Log(Put(s, t, ev), t.id)[1].action == ActFailed;
    assert !RowOk(t, Log(Put(s, t, ev), t.id), t.id, s.nextEventID + 1, true);
  }

  /** An approval or retry keeps the invariant exactly when the stored row still has the status that it is
      legal from; which row the call read does not matter. */
  lemma ResumeKeepsInvIff(e: Engine, l: Label, strict: bool)
    requires Inv(e, strict) && l.WriteRow? && Enabled(e, l)
    ensures var c := e.calls[l.call];
            Inv(Apply(e, l), strict) <==> e.store.tasks[c.task.id].status == c.how.From()
  {
    hide Inv, Put, Holds;
    ResumingCall(e, l.call, strict);
    var t, how := e.calls[l.call].task, e.calls[l.call].how;
    var ev := AuditEvent(0, t.id, how.Act(), l.actor, StatusName(Queued), l.now);
    CallWriteIff(e, l.call, Resumed(t, how, l.actor, l.now), ev, strict);
    if e.store.tasks[t.id].status == how.From() {
      WaitingIsFree(e, t.id, strict);
    }
  }

  lemma ResumingCall(e: Engine, c: nat, strict: bool)
    requires Inv(e, strict) && c in e.calls && e.calls[c].Resuming?
    ensures Known(e.store, e.calls[c].task) && e.calls[c].task.status == e.calls[c].how.From()
  {
  }

  lemma StartingCall(e: Engine, c: nat, strict: bool)
    requires Inv(e, strict) && c in e.calls && e.calls[c].Starting?
    ensures Known(e.store, e.calls[c].task) && e.calls[c].task.status == WaitingApproval && Gated(e.calls[c].task)
  {
  }

  lemma WaitingIsFree(e: Engine, id: string, strict: bool)
    requires Inv(e, strict) && id in e.store.tasks && e.store.tasks[id].status != Running
    ensures forall w :: !Holds(e, w, id)
  {
    HeldMeansRunning(e, id);
  }

  /** A failed workflow start keeps the invariant exactly when the row still waits (which a strict run rules
      out), or is running and no worker holds it. */
  lemma FailedStartKeepsInvIff(e: Engine, l: Label, strict: bool)
    requires Inv(e, strict) && l.StartReturn? && Enabled(e, l) && l.error.Some?
    ensures var id := e.calls[l.call].task.id;
            && id in e.store.tasks
            && (Inv(Apply(e, l), strict) <==>
                  || (e.store.tasks[id].status == WaitingApproval && !strict)
                  || (e.store.tasks[id].status == Running && forall w :: !Holds(e, w, id)))
  {
    hide Inv, Put, Holds;
    StartingCall(e, l.call, strict);
    var t := e.calls[l.call].task;
    var ev := AuditEvent(0, t.id, ActFailed, "api", l.error.value, l.now);
    CallWriteIff(e, l.call, StartFailed(t, l.error.value, l.now), ev, strict);
    if e.store.tasks[t.id].status == WaitingApproval {
      WaitingIsFree(e, t.id, strict);
    }
  }

  lemma TakeOver(e: Engine, w0: nat, mine: seq<Task>, store: StoreState)
    requires OwnInv(e) && Distinct(Ids(mine))
    requires forall t :: t in mine ==> t.id in store.tasks && store.tasks[t.id] == t && t.status == Running
    requires forall w, id :: id in Ids(mine) ==> !Holds(e, w, id)
    requires forall w, id :: Holds(e, w, id) ==> id in store.tasks && store.tasks[id] == e.store.tasks[id]
    ensures OwnInv(e.(store := store, workers := e.workers[w0 := mine]))
  {
    var e' := e.(store := store, workers := e.workers[w0 := mine]);
    assert forall w :: Pending(e', w) == if w == w0 then mine else Pending(e, w);
    forall w, k | 0 <= k < |Pending(e', w)|
      ensures var t := Pending(e', w)[k]; t.id in store.tasks && store.tasks[t.id] == t && t.status == Running
    {
      if w == w0 {
        assert mine[k] in mine;
      } else {
        assert Ids(Pending(e, w))[k] == Pending(e, w)[k].id;
        assert Holds(e, w, Pending(e, w)[k].id);
      }
    }
    assert forall w, id :: Holds(e', w, id) ==> if w == w0 then id in Ids(mine) else Holds(e, w, id);
  }

  lemma ClaimKeepsOwnership(e: Engine, l: Label, strict: bool)
    requires Inv(e, strict) && l.Claim? && Enabled(e, l)
    ensures OwnInv(Apply(e, l))
  {
    var s', ids := Apply(e, l).store, Ids(l.claimed);
    InvIsKeyed(e.store, strict);
    ClaimedAreStored(e.store, l.limit, l.now, l.claimed, s');
    ClaimedWereFree(e, l, strict);
    if l.limit > 0 {
      ClaimAllRows(e.store, ids, l.now);
    }
    forall w, id | Holds(e, w, id) ensures id in s'.tasks && s'.tasks[id] == e.store.tasks[id] {
      HeldRow(e, w, id);
    }
    TakeOver(e, l.worker, l.claimed, s');
  }

  lemma ClaimedWereFree(e: Engine, l: Label, strict: bool)
    requires Inv(e, strict) && l.Claim? && Enabled(e, l)
    ensures forall w, id :: id in Ids(l.claimed) ==> !Holds(e, w, id)
  {
    forall id | id in Ids(l.claimed) ensures forall w :: !Holds(e, w, id) {
      HeldMeansRunning(e, id);
    }
  }

  lemma ClaimKeepsRequests(s: StoreState, ids: seq<string>, now: int)
    requires KeyedById(s) && Distinct(ids)
    requires forall id :: id in ids ==> id in s.tasks
    ensures forall id :: id in s.tasks ==>
              && id in ClaimAll(s, ids, now).tasks
              && ClaimAll(s, ids, now).tasks[id].request == s.tasks[id].request
  {
    ClaimAllRows(s, ids, now);
  }

  lemma ClaimKeepsAll(e: Engine, l: Label, strict: bool)
    requires Inv(e, strict) && l.Claim? && Enabled(e, l)
    ensures Inv(Apply(e, l), strict)
  {
    ClaimKeepsOwnership(e, l, strict);
    InvIsKeyed(e.store, strict);
    hide KeyedById, StoreInv, CallsInv, OwnInv, ClaimAll;
    if l.limit > 0 {
      ClaimKeepsInv(e.store, Ids(l.claimed), l.now, strict);
      ClaimKeepsRequests(e.store, Ids(l.claimed), l.now);
    }
    ClaimKeepsCalls(e, Apply(e, l));
  }

  lemma ClaimKeepsCalls(e: Engine, e': Engine)
    requires CallsInv(e) && e'.calls == e.calls
    requires forall id :: id in e.store.tasks ==>
               id in e'.store.tasks && e'.store.tasks[id].request == e.store.tasks[id].request
    ensures CallsInv(e')
  {
  }

  lemma FinishKeepsInv(e: Engine, l: Label, strict: bool)
    requires Inv(e, strict) && l.Finish? && Enabled(e, l) && Guarded(e, l, strict)
    ensures Inv(Apply(e, l), strict)
  {
    var w0, mine := l.worker, Pending(e, l.worker);
    var t := mine[0];
    var (t', a) := Settle(t, l.outcome);
    var ev := AuditEvent(0, t.id, a, "worker", SettledDetail(t', a, l.outcome), l.outcome.at);
    RowReplays(e.store, t.id, strict);
    PutKeepsInv(e.store, t', ev, strict);
    PutKeepsCalls(e, t', ev, e.calls);
    var e1 := e.(workers := e.workers[w0 := mine[1..]]);
    DropHead(e, w0);
    assert !Holds(e1, w0, t.id);
    forall w ensures !Holds(e1, w, t'.id) {
      assert Holds(e, w0, t.id) by { assert Ids(mine)[0] == t.id; }
      assert w != w0 ==> Pending(e1, w) == Pending(e, w);
      assert w != w0 && Holds(e1, w, t.id) ==> Holds(e, w, t.id);
    }
    WriteBesideWorkers(e1, t', ev, e.calls);
  }

  /** The end of a task keeps the invariant exactly when the atomic finalizer is not handed a failed task. */
  lemma FinishKeepsInvIff(e: Engine, l: Label, strict: bool)
    requires Inv(e, strict) && l.Finish? && Enabled(e, l)
    ensures Inv(Apply(e, l), strict) <==> !FinalizesFailedTask(Pending(e, l.worker)[0], l.outcome)
  {
    if Guarded(e, l, strict) {
      FinishKeepsInv(e, l, strict);
    } else {
      var t := Pending(e, l.worker)[0];
      var (t', a) := Settle(t, l.outcome);
      var ev := AuditEvent(0, t.id, a, "worker", SettledDetail(t', a, l.outcome), l.outcome.at);
      IllegalPut(e.store, t', ev, strict);
    }
  }

  lemma DropHead(e: Engine, w0: nat)
    requires OwnInv(e) && Pending(e, w0) != []
    ensures var e1 := e.(workers := e.workers[w0 := Pending(e, w0)[1..]]);
            OwnInv(e1) && !Holds(e1, w0, Pending(e, w0)[0].id)
  {
    var mine := Pending(e, w0);
    var e1 := e.(workers := e.workers[w0 := mine[1..]]);
    assert Ids(mine[1..]) == Ids(mine)[1..];
    assert forall w :: Pending(e1, w) == if w == w0 then mine[1..] else Pending(e, w);
    assert forall w, id :: Holds(e1, w, id) ==> Holds(e, w, id);
    assert Ids(mine)[0] == mine[0].id;
  }

  lemma AbandonKeepsInv(e: Engine, l: Label, strict: bool)
    requires Inv(e, strict) && l.Abandon? && Enabled(e, l)
    ensures Inv(Apply(e, l), strict)
  {
    var e' := Apply(e, l);
    assert forall w :: Pending(e', w) == if w == l.worker then [] else Pending(e, w);
    assert forall w, id :: Holds(e', w, id) ==> Holds(e, w, id);
  }

  lemma QuietStepKeepsInv(e: Engine, l: Label, strict: bool)
    requires Inv(e, strict) && Enabled(e, l) && (l.ReadRow? || (l.StartReturn? && l.error.None?))
    ensures Inv(Apply(e, l), strict)
  {
    SameWorkers(e, Apply(e, l));
    InvIsKeyed(e.store, strict);
  }

  /** The guard is exact, step by step. */
  lemma StepKeepsInvIff(e: Engine, l: Label, strict: bool)
    requires Inv(e, strict) && Enabled(e, l)
    ensures Inv(Apply(e, l), strict) <==> Guarded(e, l, strict)
  {
    hide Inv, Apply, Holds, FinalizesFailedTask;
    match l
    case PromoteCreate(_, _, _, _, _) => CreateKeepsInv(e, l, strict);
    case StartReturn(_, error, _) =>
      if error.Some? {
        FailedStartKeepsInvIff(e, l, strict);
      } else {
        QuietStepKeepsInv(e, l, strict);
      }
    case ReadRow(_, _, _) => QuietStepKeepsInv(e, l, strict);
    case WriteRow(_, _, _) => ResumeKeepsInvIff(e, l, strict);
    case Claim(_, _, _, _) => ClaimKeepsAll(e, l, strict);
    case Finish(_, _) => FinishKeepsInvIff(e, l, strict);
    case Abandon(_) => AbandonKeepsInv(e, l, strict);
  }

  // ---------- whole runs ----------

  /** In every state of every guarded run, each log replays to the stored status with increasing
      event ids, and each running task is owned by at most one worker, whose copy is exact. */
  lemma {:induction false} RunKeepsInv(es: seq<Engine>, ls: seq<Label>, strict: bool, i: nat)
    requires IsGuardedRun(es, ls, strict) && i < |es|
    ensures Inv(es[i], strict)
  {
    if i > 0 {
      RunKeepsInv(es, ls, strict, i - 1);
      StepKeepsInvIff(es[i - 1], ls[i - 1], strict);
    }
  }

  /** And only of guarded runs: a run keeps the invariant throughout if and only if it is guarded. */
  lemma RunKeepsInvIff(es: seq<Engine>, ls: seq<Label>, strict: bool)
    requires IsRun(es, ls)
    ensures IsGuardedRun(es, ls, strict) <==> forall i :: 0 <= i < |es| ==> Inv(es[i], strict)
  {
    hide Inv, Apply, Enabled, Guarded;
    if IsGuardedRun(es, ls, strict) {
      forall i | 0 <= i < |es| ensures Inv(es[i], strict) {
        RunKeepsInv(es, ls, strict, i);
      }
    } else {
      var i :| 0 <= i < |ls| && !Guarded(es[i], ls[i], strict);
      if Inv(es[i], strict) {
        StepKeepsInvIff(es[i], ls[i], strict);
        assert !Inv(es[i + 1], strict);
      }
    }
  }

  /** No step comes between an approval's or retry's read and its write, nor between a promotion's create and
      the return of its start. */
  ghost predicate AtomicCalls(ls: seq<Label>) {
    forall i :: 0 <= i < |ls| ==>
      match ls[i]
      case StartReturn(c, _, _) => 0 < i && ls[i - 1].PromoteCreate? && ls[i - 1].call == c
      case WriteRow(c, _, _) => 0 < i && ls[i - 1].ReadRow? && ls[i - 1].call == c
      case _ => true
  }

  ghost predicate FinalizerStepsAside(es: seq<Engine>, ls: seq<Label>) {
    IsRun(es, ls) && forall i :: 0 <= i < |ls| ==>
      ls[i].Finish? ==> !FinalizesFailedTask(Pending(es[i], ls[i].worker)[0], ls[i].outcome)
  }

  lemma {:induction false} AtomicPrefixIsGuarded(es: seq<Engine>, ls: seq<Label>, strict: bool, n: nat)
    requires IsRun(es, ls) && AtomicCalls(ls) && FinalizerStepsAside(es, ls) && n <= |ls|
    requires strict ==> forall i :: 0 <= i < |ls| && ls[i].StartReturn? ==> ls[i].error.None?
    ensures forall i :: 0 <= i < n ==> Guarded(es[i], ls[i], strict)
    ensures Inv(es[n], strict)
  {
    if n > 0 {
      AtomicPrefixIsGuarded(es, ls, strict, n - 1);
      var l := ls[n - 1];
      hide Inv, Apply, Enabled, Guarded, FinalizesFailedTask;
      if l.WriteRow? || l.StartReturn? {
        var i := n - 2;
        assert Enabled(es[i], ls[i]) && es[i + 1] == Apply(es[i], ls[i]);
        AtomicStep(es[i], ls[i], l, strict);
      } else {
        OtherStep(es[n - 1], l, strict);
      }
      StepKeepsInvIff(es[n - 1], l, strict);
    }
  }

  lemma AtomicStep(e: Engine, l: Label, l': Label, strict: bool)
    requires Enabled(e, l) && Inv(Apply(e, l), strict) && Enabled(Apply(e, l), l')
    requires (l.ReadRow? && l'.WriteRow?) || (l.PromoteCreate? && l'.StartReturn? && (strict ==> l'.error.None?))
    requires l.call == l'.call
    ensures Guarded(Apply(e, l), l', strict)
  {
    InvIsKeyed(Apply(e, l).store, strict);
  }

  lemma OtherStep(e: Engine, l: Label, strict: bool)
    requires Enabled(e, l) && !l.WriteRow? && !l.StartReturn?
    requires l.Finish? ==> !FinalizesFailedTask(Pending(e, l.worker)[0], l.outcome)
    ensures Guarded(e, l, strict)
  {
  }

  /** With atomic API calls every run is guarded, however the workers interleave, as long as the finalizer is
      not handed a failed task; it is strictly guarded if no workflow start fails. */
  lemma AtomicRunsAreGuarded(es: seq<Engine>, ls: seq<Label>, strict: bool)
    requires IsRun(es, ls) && AtomicCalls(ls) && FinalizerStepsAside(es, ls)
    requires strict ==> forall i :: 0 <= i < |ls| && ls[i].StartReturn? ==> ls[i].error.None?
    ensures IsGuardedRun(es, ls, strict)
  {
    AtomicPrefixIsGuarded(es, ls, strict, |ls|);
  }

  /** The blind overwrite at the end of a task loses nothing: the row it replaces is the worker's own
      claimed copy, no other worker holds it, and only the outcome columns differ afterwards. */
  lemma OverwriteLosesNothing(es: seq<Engine>, ls: seq<Label>, strict: bool, i: nat)
    requires IsGuardedRun(es, ls, strict) && i < |ls| && ls[i].Finish?
    ensures var t, e, e' := Pending(es[i], ls[i].worker)[0], es[i], es[i + 1];
            var row := e'.store.tasks[t.id];
            && t.id in e.store.tasks && e.store.tasks[t.id] == t
            && (forall w :: Holds(e, w, t.id) ==> w == ls[i].worker)
            && (forall w :: !Holds(e', w, t.id))
            && row == t.(status := row.status, errorReason := row.errorReason, auditRef := row.auditRef,
                         updatedAt := row.updatedAt, versionId := row.versionId)
            && row.status in {Succeeded, Failed}
            && forall id :: id in e.store.tasks && id != t.id ==> e'.store.tasks[id] == e.store.tasks[id]
  {
    RunKeepsInv(es, ls, strict, i);
    RunKeepsInv(es, ls, strict, i + 1);
    var e, w0 := es[i], ls[i].worker;
    assert Ids(Pending(e, w0))[0] == Pending(e, w0)[0].id;
    assert Holds(e, w0, Pending(e, w0)[0].id);
    HeldMeansRunning(es[i + 1], Pending(e, w0)[0].id);
  }

  /** In every guarded run, every claim of a gated task is preceded in its log by an approval or a
      retry, and by an approval if the workflow starter never fails; claims never exceed
      retries by more than one. */
  lemma RunClaimsAreCleared(es: seq<Engine>, ls: seq<Label>, strict: bool, i: nat, id: string)
    requires IsGuardedRun(es, ls, strict) && i < |es| && id in es[i].store.tasks
    ensures var log := Log(es[i].store, id);
            && Count(log, ActClaimed) <= 1 + Count(log, ActRetried)
            && (Gated(es[i].store.tasks[id]) ==>
                  forall k :: 0 <= k < |log| && log[k].action == ActClaimed ==>
                    && (exists j :: 0 <= j < k && log[j].action in {ActApproved, ActRetried})
                    && (strict ==> exists j :: 0 <= j < k && log[j].action == ActApproved))
  {
    RunKeepsInv(es, ls, strict, i);
    RowReplays(es[i].store, id, strict);
    var log, row := Log(es[i].store, id), es[i].store.tasks[id];
    assert RowOk(row, log, id, es[i].store.nextEventID, strict);
    ClaimsAtMostRetriesPlusOne(Gated(row), log);
    if Gated(row) {
      forall k | 0 <= k < |log| && log[k].action == ActClaimed
        ensures && (exists j :: 0 <= j < k && log[j].action in {ActApproved, ActRetried})
                && (strict ==> exists j :: 0 <= j < k && log[j].action == ActApproved)
      {
        ClaimIsCleared(log, k);
      }
    }
  }

  // ---------- the log alone ----------

  /** A delayed approval or retry stays legal in the log exactly when the stored status is still the one the call
      checked; the store itself performs no such check. */
  lemma DelayedWriteLegalIff(e: Engine, l: Label, strict: bool)
    requires Inv(e, strict) && l.WriteRow? && Enabled(e, l)
    ensures var c := e.calls[l.call];
            var row := e.store.tasks[c.task.id];
            Replay(Gated(row), Log(Apply(e, l).store, c.task.id)) == At(Queued) <==> row.status == c.how.From()
  {
    hide LogOk, Ordered, Replay;
    var t, how := e.calls[l.call].task, e.calls[l.call].how;
    RowReplays(e.store, t.id, strict);
    var ev := AuditEvent(e.store.nextEventID + 1, t.id, how.Act(), l.actor, StatusName(Queued), l.now);
    assert Log(Apply(e, l).store, t.id) == Log(e.store, t.id) + [ev];
    ReplaySnoc(Gated(e.store.tasks[t.id]), Log(e.store, t.id), ev);
  }
}
