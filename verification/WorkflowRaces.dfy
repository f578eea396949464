/** What survives when API calls are not atomic, and concrete runs in which the rest is lost. */
module WorkflowRaces {
  import opened Common
  import opened WorkflowStore
  import opened WorkflowAudit
  import opened WorkflowService
  import opened WorkflowEngine

  // ---------- every run: the last event names the status ----------

  function StatusAfter(gated: bool, a: Action): Status {
    match a
    case ActCreated => if gated then WaitingApproval else Queued
    case ActClaimed => Running
    case ActApproved => Queued
    case ActRetried => Queued
    case ActSucceeded => Succeeded
    case ActFailed => Failed
  }

  ghost predicate LastOk(t: Task, log: seq<AuditEvent>, id: string, limit: nat) {
    && t.id == id
    && LogOk(log, id, limit)
    && log != [] && t.status == StatusAfter(Gated(t), log[|log| - 1].action)
  }

  ghost predicate WeakInv(s: StoreState) {
    && s.tasks.Keys == s.events.Keys
    && forall id :: id in s.tasks ==> LastOk(s.tasks[id], Log(s, id), id, s.nextEventID)
  }

  lemma PutKeepsLast(s: StoreState, t: Task, e: AuditEvent)
    requires WeakInv(s) && e.taskId == t.id && StatusAfter(Gated(t), e.action) == t.status
    ensures WeakInv(Put(s, t, e))
  {
    var s' := Put(s, t, e);
    forall id | id in s'.tasks ensures LastOk(s'.tasks[id], Log(s', id), id, s'.nextEventID) {
      if id in s.tasks {
        assert LastOk(s.tasks[id], Log(s, id), id, s.nextEventID);
      }
    }
  }

  lemma {:induction false} ClaimKeepsLast(s: StoreState, ids: seq<string>, now: int)
    requires WeakInv(s) && forall id :: id in ids ==> id in s.tasks
    ensures WeakInv(ClaimAll(s, ids, now))
  {
    if ids != [] {
      var before := ClaimAll(s, ids[..|ids| - 1], now);
      ClaimKeepsLast(s, ids[..|ids| - 1], now);
      var t := ClaimedTask(before.tasks[ids[|ids| - 1]], now);
      PutKeepsLast(before, t, AuditEvent(0, t.id, ActClaimed, "worker", StatusName(Running), now));
    }
  }

  lemma StepKeepsLast(e: Engine, l: Label)
    requires WeakInv(e.store) && Enabled(e, l)
    requires l.Finish? ==> !FinalizesFailedTask(Pending(e, l.worker)[0], l.outcome)
    ensures WeakInv(Apply(e, l).store)
  {
    match l
    case PromoteCreate(_, id, req, v, now) =>
      var t := PromotedTask(id, req, v, now);
      PutKeepsLast(e.store, t, AuditEvent(0, t.id, ActCreated, "api", StatusName(t.status), now));
    case StartReturn(c, error, now) =>
      if error.Some? {
        var t := e.calls[c].task;
        PutKeepsLast(e.store, StartFailed(t, error.value, now),
                     AuditEvent(0, t.id, ActFailed, "api", error.value, now));
      }
    case ReadRow(_, _, _) =>
    case WriteRow(c, actor, now) =>
      var t, how := e.calls[c].task, e.calls[c].how;
      PutKeepsLast(e.store, Resumed(t, how, actor, now),
                   AuditEvent(0, t.id, how.Act(), actor, StatusName(Queued), now));
    case Claim(_, _, now, claimed) => ClaimKeepsLast(e.store, Ids(claimed), now);
    case Finish(w, o) =>
      var t := Pending(e, w)[0];
      var (t', a) := Settle(t, o);
      assert Delta(true, At(Running), a) == At(t'.status);
      PutKeepsLast(e.store, t', AuditEvent(0, t.id, a, "worker", SettledDetail(t', a, o), o.at));
    case Abandon(_) =>
  }

  /** In every run, atomic or not, each log's ids increase and its last event names the stored
      status, as long as the atomic finalizer is never handed a failed task. */
  lemma {:induction false} LastEventNamesStatus(es: seq<Engine>, ls: seq<Label>, i: nat)
    requires IsRun(es, ls) && i < |es|
    requires forall k :: 0 <= k < i && ls[k].Finish? ==>
              !FinalizesFailedTask(Pending(es[k], ls[k].worker)[0], ls[k].outcome)
    ensures WeakInv(es[i].store)
  {
    if i > 0 {
      LastEventNamesStatus(es, ls, i - 1);
      StepKeepsLast(es[i - 1], ls[i - 1]);
    }
  }

  // ---------- runs that break the guarded guarantees ----------

  const TOOL := PromoteRequest("r", "acme", "s", ApprovedToolExecution, "approval_required", true,
                               "ticket_comment_create", "{}")

  lemma OnlyTaskClaimed(s: StoreState, id: string, now: int)
    requires s.tasks.Keys == {id} && s.tasks[id].id == id && s.tasks[id].status == Queued
    ensures var claimed := [ClaimedTask(s.tasks[id], now)];
            Ids(claimed) == [id] && ClaimStep(s, 1, now, claimed, ClaimAll(s, Ids(claimed), now))
  {
  }

  lemma ExtendRun(es: seq<Engine>, ls: seq<Label>, l: Label)
    requires IsRun(es, ls) && Enabled(es[|ls|], l)
    ensures IsRun(es + [Apply(es[|ls|], l)], ls + [l])
  {
  }

  /** Two calls read the waiting task; the first writes its approval. */
  lemma TwoReadersOneWrite() returns (es: seq<Engine>, ls: seq<Label>, t0: Task)
    ensures IsRun(es, ls) && |ls| == 4 && t0.id == "t" && t0.status == WaitingApproval && Gated(t0)
    ensures es[4] == Engine(es[4].store, map[], map[2 := Resuming(t0, Approval)])
    ensures es[4].store.tasks == map["t" := Resumed(t0, Approval, "ann", 2)]
    ensures var log := Log(es[4].store, "t"); |log| == 2 && log[0].action == ActCreated && log[1].action == ActApproved
  {
    var l0 := PromoteCreate(0, "t", TOOL.(taskType := OtherType("manual")), "", 1);
    var e1 := Apply(INIT, l0);
    t0 := e1.store.tasks["t"];
    var l1 := ReadRow(1, "t", Approval);
    var e2 := Apply(e1, l1);
    var l2 := ReadRow(2, "t", Approval);
    var e3 := Apply(e2, l2);
    var l3 := WriteRow(1, "ann", 2);
    var e4 := Apply(e3, l3);
    assert IsRun([INIT], []);
    ExtendRun([INIT], [], l0);
    ExtendRun([INIT, e1], [l0], l1);
    ExtendRun([INIT, e1, e2], [l0, l1], l2);
    ExtendRun([INIT, e1, e2, e3], [l0, l1, l2], l3);
    es, ls := [INIT, e1, e2, e3, e4], [l0, l1, l2, l3];
  }

  /** Worker `w` claims the one task of the store. */
  lemma ClaimOnly(es: seq<Engine>, ls: seq<Label>, w: nat, now: int) returns (e': Engine, l: Label)
    requires IsRun(es, ls) && Pending(es[|ls|], w) == []
    requires var s := es[|ls|].store; s.tasks.Keys == {"t"} && s.tasks["t"].id == "t" && s.tasks["t"].status == Queued
    ensures IsRun(es + [e'], ls + [l])
    ensures e' == es[|ls|].(store := ClaimOne(es[|ls|].store, "t", now),
                            workers := es[|ls|].workers[w := [ClaimedTask(es[|ls|].store.tasks["t"], now)]])
    ensures Holds(e', w, "t") && l.Claim?
  {
    var e := es[|ls|];
    OnlyTaskClaimed(e.store, "t", now);
    l := Claim(w, 1, now, [ClaimedTask(e.store.tasks["t"], now)]);
    e' := Apply(e, l);
    assert ["t"][..0] == [];
    assert ClaimAll(e.store, ["t"], now) == ClaimOne(ClaimAll(e.store, ["t"][..0], now), "t", now);
    ExtendRun(es, ls, l);
    assert Ids(Pending(e', w)) == ["t"];
  }

  /** Two approvals read the waiting task; both write. The second write re-queues a task that a worker
      already runs, and a second worker claims it: two owners, and a log that does not replay. */
  lemma StaleApprovalGivesTwoOwners()
    ensures exists es: seq<Engine>, ls: seq<Label> ::
              && IsRun(es, ls) && |es| == 8
              && Holds(es[7], 0, "t") && Holds(es[7], 1, "t")
              && Replay(true, Log(es[7].store, "t")) == Rejected
  {
    var es, ls, t0 := TwoReadersOneWrite();
    var e5, l4 := ClaimOnly(es, ls, 0, 3);
    var l5 := WriteRow(2, "bob", 4);
    ExtendRun(es + [e5], ls + [l4], l5);
    var e6 := Apply(e5, l5);
    var e7, l6 := ClaimOnly(es + [e5] + [e6], ls + [l4] + [l5], 1, 5);
    var all, labels := es + [e5] + [e6] + [e7], ls + [l4] + [l5] + [l6];
    assert IsRun(all, labels) && |all| == 8 && all[7] == e7;
    assert Holds(e7, 0, "t") by {
      assert Pending(e7, 0) == Pending(e5, 0);
    }
    ShortReplay(Log(e7.store, "t"));
  }

  lemma ShortReplay(log: seq<AuditEvent>)
    requires |log| == 5 && log[4].action == ActClaimed && log[3].action == ActApproved && log[2].action == ActClaimed
             && log[1].action == ActApproved && log[0].action == ActCreated
    ensures Replay(true, log) == Rejected
  {
    assert log[..4][..3] == log[..3] && log[..3][..2] == log[..2] && log[..2][..1] == log[..1] && log[..1][..0] == [];
    assert Replay(true, log[..1]) == At(WaitingApproval);
    assert Replay(true, log[..2]) == At(Queued);
    assert Replay(true, log[..3]) == At(Running);
    assert Replay(true, log[..4]) == Rejected;
  }

  /** A gated tool task is approved and queued while its workflow start is still under way. */
  lemma ApprovedBeforeStartReturns() returns (es: seq<Engine>, ls: seq<Label>, t0: Task)
    ensures IsRun(es, ls) && |ls| == 3 && t0.id == "t" && t0.status == WaitingApproval && Gated(t0)
    ensures es[3] == Engine(es[3].store, map[], map[0 := Starting(t0)])
    ensures es[3].store.tasks == map["t" := Resumed(t0, Approval, "ann", 2)]
    ensures var log := Log(es[3].store, "t");
            |log| == 2 && log[0].action == ActCreated && log[1].action == ActApproved
  {
    var l0 := PromoteCreate(0, "t", TOOL, "", 1);
    var e1 := Apply(INIT, l0);
    t0 := e1.store.tasks["t"];
    var l1 := ReadRow(1, "t", Approval);
    var e2 := Apply(e1, l1);
    var l2 := WriteRow(1, "ann", 2);
    var e3 := Apply(e2, l2);
    assert IsRun([INIT], []);
    ExtendRun([INIT], [], l0);
    ExtendRun([INIT, e1], [l0], l1);
    ExtendRun([INIT, e1, e2], [l0, l1], l2);
    es, ls := [INIT, e1, e2, e3], [l0, l1, l2];
  }

  /** The start fails after a worker has claimed the approved task: the log is legal, the stored row is failed, and the
      worker still holds it. */
  lemma LateStartFailureTakesTheRow()
    ensures exists es: seq<Engine>, ls: seq<Label> ::
              && IsRun(es, ls) && |es| == 6 && Holds(es[5], 0, "t")
              && "t" in es[5].store.tasks && es[5].store.tasks["t"].status == Failed
              && Replay(true, Log(es[5].store, "t")) == At(Failed)
  {
    var es, ls, t0 := ApprovedBeforeStartReturns();
    var e4, l3 := ClaimOnly(es, ls, 0, 3);
    var l4 := StartReturn(0, Some("late"), 4);
    ExtendRun(es + [e4], ls + [l3], l4);
    var e5 := Apply(e4, l4);
    var all, labels := es + [e4] + [e5], ls + [l3] + [l4];
    assert IsRun(all, labels) && |all| == 6 && all[5] == e5;
    assert Holds(e5, 0, "t") by {
      assert Pending(e5, 0) == Pending(e4, 0);
    }
    LegalReplay(Log(e5.store, "t"));
  }

  lemma LegalReplay(log: seq<AuditEvent>)
    requires |log| == 4 && log[3].action == ActFailed && log[2].action == ActClaimed
             && log[1].action == ActApproved && log[0].action == ActCreated
    ensures Replay(true, log) == At(Failed)
  {
    assert log[..3][..2] == log[..2] && log[..2][..1] == log[..1] && log[..1][..0] == [];
    assert Replay(true, log[..1]) == At(WaitingApproval);
    assert Replay(true, log[..2]) == At(Queued);
    assert Replay(true, log[..3]) == At(Running);
  }

  /** The workflow start of a gated task fails. */
  lemma StartFails() returns (es: seq<Engine>, ls: seq<Label>, t: Task)
    ensures IsGuardedRun(es, ls, false) && |ls| == 2 && t.id == "t" && t.status == Failed && Gated(t)
    ensures es[2] == Engine(es[2].store, map[], map[]) && es[2].store.tasks == map["t" := t]
    ensures var log := Log(es[2].store, "t"); |log| == 2 && forall k :: 0 <= k < 2 ==> log[k].action != ActApproved
  {
    var l0 := PromoteCreate(0, "t", TOOL, "", 1);
    var e1 := Apply(INIT, l0);
    var l1 := StartReturn(0, Some("temporal down"), 2);
    var e2 := Apply(e1, l1);
    assert IsRun([INIT], []);
    ExtendRun([INIT], [], l0);
    ExtendRun([INIT, e1], [l0], l1);
    assert Guarded(e1, l1, false);
    es, ls, t := [INIT, e1, e2], [l0, l1], e2.store.tasks["t"];
  }

  /** An operator retries the failed task. */
  lemma FailedStartRetried() returns (es: seq<Engine>, ls: seq<Label>)
    ensures IsGuardedRun(es, ls, false) && |ls| == 4 && es[4].workers == map[]
    ensures es[4].store.tasks.Keys == {"t"}
    ensures var t := es[4].store.tasks["t"]; t.id == "t" && t.status == Queued && Gated(t)
    ensures |Log(es[4].store, "t")| == 3 && forall k :: 0 <= k < 3 ==> Log(es[4].store, "t")[k].action != ActApproved
  {
    var es2, ls2, t := StartFails();
    var l2 := ReadRow(1, "t", Retrial);
    var e3 := Apply(es2[2], l2);
    var l3 := WriteRow(1, "ops", 3);
    var e4 := Apply(e3, l3);
    ExtendRun(es2, ls2, l2);
    ExtendRun(es2 + [e3], ls2 + [l2], l3);
    assert Guarded(e3, l3, false);
    es, ls := es2 + [e3] + [e4], ls2 + [l2] + [l3];
  }

  /** With atomic calls, a gated task whose workflow start failed can be retried and then claimed
      without any approval. */
  lemma StartFailureBypassesApproval()
    ensures exists es: seq<Engine>, ls: seq<Label> ::
              && IsGuardedRun(es, ls, false) && |es| == 6
              && Holds(es[5], 0, "t") && "t" in es[5].store.tasks && Gated(es[5].store.tasks["t"])
              && Count(Log(es[5].store, "t"), ActApproved) == 0
  {
    var es, ls := FailedStartRetried();
    var e5, l4 := ClaimOnly(es, ls, 0, 4);
    var all, labels := es + [e5], ls + [l4];
    assert IsGuardedRun(all, labels, false) && |all| == 6 && all[5] == e5;
    NoneCounted(Log(e5.store, "t"), ActApproved);
  }

  lemma {:induction false} NoneCounted(log: seq<AuditEvent>, a: Action)
    requires forall k :: 0 <= k < |log| ==> log[k].action != a
    ensures Count(log, a) == 0
  {
    if log != [] {
      NoneCounted(log[..|log| - 1], a);
    }
  }

  /** A report task without a version, a failing version source and an accepting atomic recorder: the worker
      stores a failed task under a success event. */
  lemma AtomicRecorderMismatch(t: Task, at: int)
    requires t.request.taskType == ReportGeneration && t.versionId == ""
    ensures exists o: Outcome ::
              FinalizesFailedTask(t, o) && Settle(t, o).0.status == Failed && Settle(t, o).1 == ActSucceeded
  {
    var o := Outcome(None, "", "", Some(Failure("no version")), Atomic(None), "", x => x, at);
    assert FinalizesFailedTask(t, o);
  }
}
