/** What an audit log means: replay through the status automaton, and what replay forces. */
module WorkflowAudit {
  import opened WorkflowStore

  datatype Phase = Start | At(status: Status) | Rejected

  /** The legal status changes. A gated task (`requiresApproval`) is created waiting; it can
      only be approved, or failed by a workflow start that did not succeed. */
  function Delta(gated: bool, p: Phase, a: Action): Phase {
    match (p, a)
    case (Start, ActCreated) => At(if gated then WaitingApproval else Queued)
    case (At(WaitingApproval), ActApproved) => At(Queued)
    case (At(WaitingApproval), ActFailed) => At(Failed)
    case (At(Queued), ActClaimed) => At(Running)
    case (At(Running), ActSucceeded) => At(Succeeded)
    case (At(Running), ActFailed) => At(Failed)
    case (At(Failed), ActRetried) => At(Queued)
    case _ => Rejected
  }

  function Replay(gated: bool, log: seq<AuditEvent>): Phase {
    if log == [] then Start
    else Delta(gated, Replay(gated, log[..|log| - 1]), log[|log| - 1].action)
  }

  lemma ReplaySnoc(gated: bool, log: seq<AuditEvent>, e: AuditEvent)
    ensures Replay(gated, log + [e]) == Delta(gated, Replay(gated, log), e.action)
  {
    assert (log + [e])[..|log|] == log;
  }

  ghost predicate Ordered(log: seq<AuditEvent>) {
    forall i, j :: 0 <= i < j < |log| ==> log[i].id < log[j].id
  }

  /** Every accepted log of a gated task starts created-then-approved, or
      created-then-failed-then-retried, and approval never comes later. */
  lemma {:induction false} GatedLogShape(log: seq<AuditEvent>)
    requires Replay(true, log) != Rejected
    ensures |log| >= 1 ==> log[0].action == ActCreated
    ensures |log| >= 2 ==> log[1].action == ActApproved || log[1].action == ActFailed
    ensures |log| >= 3 && log[1].action == ActFailed ==> log[2].action == ActRetried
    ensures forall k :: 2 <= k < |log| ==> log[k].action != ActApproved
    ensures |log| == 1 ==> Replay(true, log) == At(WaitingApproval)
    ensures |log| == 2 && log[1].action == ActFailed ==> Replay(true, log) == At(Failed)
    ensures |log| >= 2 ==> Replay(true, log).At? && Replay(true, log).status != WaitingApproval
  {
    if log != [] {
      GatedLogShape(log[..|log| - 1]);
    }
  }

  lemma ClearedByShape(log: seq<AuditEvent>, i: nat)
    requires 0 < i < |log| && log[i].action == ActClaimed && log[0].action == ActCreated
    requires log[1].action == ActApproved || log[1].action == ActFailed
    requires |log| >= 3 && log[1].action == ActFailed ==> log[2].action == ActRetried
    requires forall k :: 2 <= k < |log| ==> log[k].action != ActApproved
    ensures i >= 2 && (log[1].action == ActApproved
                       || (i >= 3 && log[1].action == ActFailed && log[2].action == ActRetried))
    ensures (exists j :: 0 <= j < i && log[j].action == ActApproved) <==> log[1].action == ActApproved
  {
  }

  /** A claim of a gated task is always preceded by an approval or a retry; it is preceded by an
      approval exactly when the second event of the log is the approval, that is, unless
      the workflow start failed. */
  lemma ClaimIsCleared(log: seq<AuditEvent>, i: nat)
    requires Replay(true, log) != Rejected && i < |log| && log[i].action == ActClaimed
    ensures |log| > 2 && exists j :: 0 <= j < i && (log[j].action == ActApproved || log[j].action == ActRetried)
    ensures (exists j :: 0 <= j < i && log[j].action == ActApproved) <==> log[1].action == ActApproved
    ensures log[1].action != ActApproved ==> log[1].action == ActFailed && log[2].action == ActRetried
  {
    GatedLogShape(log);
    hide Replay;
    ClearedByShape(log, i);
    var j := if log[1].action == ActApproved then 1 else 2;
    assert log[j].action == ActApproved || log[j].action == ActRetried;
  }

  function Count(log: seq<AuditEvent>, a: Action): nat {
    if log == [] then 0
    else Count(log[..|log| - 1], a) + (if log[|log| - 1].action == a then 1 else 0)
  }

  function OneIf(b: bool): nat { if b then 1 else 0 }

  /** Conservation along any accepted log. Each entry into the queue (creation of an ungated task,
      the approval, a retry) is used by one claim or is still waiting; each claim has ended or
      is still running; approval and success happen at most once. */
  lemma {:induction false} ClaimsConserved(gated: bool, log: seq<AuditEvent>)
    requires log != [] && Replay(gated, log) != Rejected
    ensures var p := Replay(gated, log);
            && Count(log, ActClaimed) + OneIf(p == At(Queued))
               == (if gated then Count(log, ActApproved) else 1) + Count(log, ActRetried)
            && Count(log, ActClaimed) + OneIf(gated && p != At(WaitingApproval))
               == Count(log, ActSucceeded) + Count(log, ActFailed) + Count(log, ActApproved) + OneIf(p == At(Running))
            && Count(log, ActFailed) == Count(log, ActRetried) + OneIf(p == At(Failed))
            && Count(log, ActApproved) <= OneIf(gated && p != At(WaitingApproval))
            && Count(log, ActSucceeded) == OneIf(p == At(Succeeded))
  {
    var front := log[..|log| - 1];
    if front != [] {
      ClaimsConserved(gated, front);
    } else {
      assert Replay(gated, front) == Start;
      assert forall a :: Count(front, a) == 0;
    }
  }

  /** A task is claimed at most once more often than it is retried. */
  lemma ClaimsAtMostRetriesPlusOne(gated: bool, log: seq<AuditEvent>)
    requires Replay(gated, log) != Rejected
    ensures Count(log, ActClaimed) <= 1 + Count(log, ActRetried)
  {
    if log != [] {
      ClaimsConserved(gated, log);
    }
  }
}
