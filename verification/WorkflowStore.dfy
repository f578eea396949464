/** The in-memory workflow task store: task rows, the append-only audit log, FIFO claiming. */
module WorkflowStore {
  import opened Common

  datatype Status = Queued | Running | Succeeded | Failed | WaitingApproval

  function StatusName(s: Status): string {
    match s
    case Queued => "queued"
    case Running => "running"
    case Succeeded => "succeeded"
    case Failed => "failed"
    case WaitingApproval => "waiting_approval"
  }

  datatype TaskType = ReportGeneration | ApprovedToolExecution | OtherType(name: string)

  datatype PromoteRequest = PromoteRequest(
    requestId: string, tenantId: string, sessionId: string, taskType: TaskType, reason: string,
    requiresApproval: bool, toolName: string, toolArguments: string)

  /** A task row; `request` holds the fields copied from the promote request, which never change. */
  datatype Task = Task(
    id: string, request: PromoteRequest, versionId: string, status: Status,
    errorReason: string, auditRef: string, createdAt: int, updatedAt: int)

  datatype Action = ActCreated | ActClaimed | ActApproved | ActRetried | ActSucceeded | ActFailed

  datatype AuditEvent = AuditEvent(
    id: nat, taskId: string, action: Action, actor: string, detail: string, createdAt: int)

  datatype Error = TaskNotFound(id: string) | InvalidTransition(from: Status) | External(message: string)

  // ---------- the store as a value ----------

  datatype StoreState = StoreState(tasks: map<string, Task>, events: map<string, seq<AuditEvent>>, nextEventID: nat)

  const EMPTY := StoreState(map[], map[], 0)

  function Log(s: StoreState, id: string): seq<AuditEvent> {
    if id in s.events then s.events[id] else []
  }

  /** One locked write: the row is overwritten and the event gets the next id of the store. */
  function Put(s: StoreState, task: Task, event: AuditEvent): StoreState {
    var stamped := event.(id := s.nextEventID + 1);
    StoreState(s.tasks[task.id := task],
          s.events[event.taskId := Log(s, event.taskId) + [stamped]],
          s.nextEventID + 1)
  }

  function ClaimedTask(t: Task, now: int): Task {
    t.(status := Running, updatedAt := now)
  }

  function ClaimOne(s: StoreState, id: string, now: int): StoreState
    requires id in s.tasks
  {
    var t := ClaimedTask(s.tasks[id], now);
    Put(s, t, AuditEvent(0, t.id, ActClaimed, "worker", StatusName(Running), now))
  }

  ghost predicate KeyedById(s: StoreState) {
    forall id :: id in s.tasks ==> s.tasks[id].id == id
  }

  function ClaimAll(s: StoreState, ids: seq<string>, now: int): (r: StoreState)
    requires forall id :: id in ids ==> id in s.tasks
    ensures s.tasks.Keys <= r.tasks.Keys
  {
    if ids == [] then s
    else
      var before := ClaimAll(s, ids[..|ids| - 1], now);
      ClaimOne(before, ids[|ids| - 1], now)
  }

  /** Claiming changes exactly the claimed rows, each to its running form. */
  lemma {:induction false} ClaimAllRows(s: StoreState, ids: seq<string>, now: int)
    requires KeyedById(s) && Distinct(ids)
    requires forall id :: id in ids ==> id in s.tasks
    ensures KeyedById(ClaimAll(s, ids, now))
    ensures ClaimAll(s, ids, now).tasks.Keys == s.tasks.Keys
    ensures forall id :: id in s.tasks ==> ClaimAll(s, ids, now).tasks[id] ==
                                           if id in ids then s.tasks[id].(status := Running, updatedAt := now)
                                           else s.tasks[id]
  {
    if ids != [] {
      var last, front := ids[|ids| - 1], ids[..|ids| - 1];
      assert ids == front + [last];
      ClaimAllRows(s, front, now);
    }
  }

  /** `ids` is a batch the claim may return: distinct queued tasks, oldest first, none left
      behind that is older, and short only when no queued task is left. */
  ghost predicate FifoBatch(s: StoreState, limit: nat, ids: seq<string>) {
    && Distinct(ids)
    && (forall id :: id in ids ==> id in s.tasks && s.tasks[id].status == Queued)
    && (forall i, j :: 0 <= i < j < |ids| ==> s.tasks[ids[i]].createdAt <= s.tasks[ids[j]].createdAt)
    && (forall id, c :: id in s.tasks && s.tasks[id].status == Queued && id !in ids && c in ids
                        ==> s.tasks[c].createdAt <= s.tasks[id].createdAt)
    && |ids| <= limit
    && ((exists id :: id in s.tasks && s.tasks[id].status == Queued && id !in ids) ==> |ids| == limit)
  }

  function Ids(ts: seq<Task>): (r: seq<string>)
    ensures |r| == |ts| && forall i :: 0 <= i < |ts| ==> r[i] == ts[i].id
  {
    seq(|ts|, i requires 0 <= i < |ts| => ts[i].id)
  }

  /** The outcome of a claim: what is returned and what the store becomes. */
  ghost predicate ClaimStep(s: StoreState, limit: int, now: int, claimed: seq<Task>, s': StoreState) {
    if limit <= 0 then claimed == [] && s' == s
    else
      var ids := Ids(claimed);
      && FifoBatch(s, limit, ids)
      && s' == ClaimAll(s, ids, now)
      && forall i :: 0 <= i < |ids| ==> claimed[i] == ClaimedTask(s.tasks[ids[i]], now)
  }

  predicate CreatedNoLater(a: Task, b: Task) {
    a.createdAt <= b.createdAt
  }

  class MemoryStore {
    var tasks: map<string, Task>
    var events: map<string, seq<AuditEvent>>
    var nextEventID: nat

    function State(): StoreState
      reads this
    {
      StoreState(tasks, events, nextEventID)
    }

    constructor ()
      ensures State() == EMPTY
    {
      tasks, events, nextEventID := map[], map[], 0;
    }

    method AppendEvent(event: AuditEvent)
      modifies this`events, this`nextEventID
      ensures nextEventID == old(nextEventID) + 1
      ensures events == old(events)[event.taskId := Log(old(State()), event.taskId) + [event.(id := nextEventID)]]
    {
      nextEventID := nextEventID + 1;
      var log := if event.taskId in events then events[event.taskId] else [];
      events := events[event.taskId := log + [event.(id := nextEventID)]];
    }

    method CreateTaskWithEvent(task: Task, event: AuditEvent) returns (created: Task)
      modifies this
      ensures State() == Put(old(State()), task, event) && created == task
      ensures tasks == old(tasks)[task.id := task] && nextEventID == old(nextEventID) + 1
      ensures events == old(events)[event.taskId := Log(old(State()), event.taskId) + [event.(id := nextEventID)]]
    {
      tasks := tasks[task.id := task];
      AppendEvent(event);
      created := task;
    }

    method GetTask(id: string) returns (r: Result<Task, Error>)
      ensures r == if id in tasks then Success(tasks[id]) else Failure(TaskNotFound(id))
    {
      if id !in tasks {
        return Failure(TaskNotFound(id));
      }
      return Success(tasks[id]);
    }

    method UpdateTaskWithEvent(task: Task, event: AuditEvent) returns (r: Result<Task, Error>)
      modifies this
      ensures task.id !in old(tasks) ==> r == Failure(TaskNotFound(task.id)) && State() == old(State())
      ensures task.id in old(tasks) ==> r == Success(task) && State() == Put(old(State()), task, event)
      ensures task.id in old(tasks) ==>
                && tasks == old(tasks)[task.id := task] && nextEventID == old(nextEventID) + 1
                && events == old(events)[event.taskId :=
                               Log(old(State()), event.taskId) + [event.(id := nextEventID)]]
    {
      if task.id !in tasks {
        return Failure(TaskNotFound(task.id));
      }
      tasks := tasks[task.id := task];
      AppendEvent(event);
      r := Success(task);
    }

    method QueuedTasks() returns (queued: seq<Task>)
      requires KeyedById(State())
      ensures Distinct(queued)
      ensures forall t :: t in queued <==> t.id in tasks && tasks[t.id] == t && t.status == Queued
    {
      queued := [];
      var rest := tasks.Keys;
      while rest != {}
        invariant rest <= tasks.Keys
        invariant Distinct(queued)
        invariant forall t :: t in queued <==>
                              t.id in tasks && t.id !in rest && tasks[t.id] == t && t.status == Queued
        decreases rest
      {
        var id :| id in rest;
        rest := rest - {id};
        if tasks[id].status == Queued {
          queued := queued + [tasks[id]];
        }
      }
    }

    method MarkOne(row: Task, now: int) returns (t: Task)
      requires row.id in tasks && tasks[row.id] == row
      modifies this
      ensures State() == ClaimOne(old(State()), row.id, now) && t == ClaimedTask(row, now)
    {
      t := row.(status := Running, updatedAt := now);
      tasks := tasks[t.id := t];
      AppendEvent(AuditEvent(0, t.id, ActClaimed, "worker", StatusName(t.status), t.updatedAt));
    }

    /** The marking loop of a claim, over the rows selected under the same lock. */
    method MarkRunning(batch: seq<Task>, now: int) returns (claimed: seq<Task>)
      requires KeyedById(State()) && Distinct(Ids(batch))
      requires forall t :: t in batch ==> t.id in tasks && tasks[t.id] == t
      requires forall id :: id in Ids(batch) ==> id in tasks
      modifies this
      ensures State() == ClaimAll(old(State()), Ids(batch), now)
      ensures |claimed| == |batch| && forall k :: 0 <= k < |batch| ==> claimed[k] == ClaimedTask(batch[k], now)
    {
      claimed := [];
      ghost var s0 := State();
      NoneClaimed(s0, batch, now);
      hide ClaimedUpTo, ClaimAll, ClaimOne, KeyedById, ClaimedTask, Distinct, Ids;
      for i := 0 to |batch|
        invariant ClaimedUpTo(s0, batch, i, now, State())
        invariant |claimed| == i
        invariant forall k :: 0 <= k < i ==> claimed[k] == ClaimedTask(batch[k], now)
      {
        ClaimNextRow(s0, batch, i, now, State());
        var row := MarkOne(batch[i], now);
        claimed := claimed + [row];
      }
      AllClaimed(s0, batch, now, State());
    }

    method ClaimQueuedTasks(limit: int, now: int) returns (claimed: seq<Task>)
      requires KeyedById(State())
      modifies this
      ensures ClaimStep(old(State()), limit, now, claimed, State())
    {
      if limit <= 0 {
        return [];
      }
      var queued := QueuedTasks();
      var batch := SortBy(CreatedNoLater, queued);
      SortedQueue(queued, batch);
      CutIsFifo(State(), limit, batch);
      if |batch| > limit {
        batch := batch[..limit];
      }
      claimed := MarkRunning(batch, now);
      BatchIsClaim(old(State()), limit, now, batch, claimed, State());
    }
  }

  lemma BatchIsClaim(s: StoreState, limit: int, now: int, batch: seq<Task>, claimed: seq<Task>, s': StoreState)
    requires 0 < limit && FifoBatch(s, limit, Ids(batch)) && s' == ClaimAll(s, Ids(batch), now)
    requires forall t :: t in batch ==> t.id in s.tasks && s.tasks[t.id] == t
    requires |claimed| == |batch| && forall k :: 0 <= k < |batch| ==> claimed[k] == ClaimedTask(batch[k], now)
    ensures ClaimStep(s, limit, now, claimed, s')
  {
    assert Ids(claimed) == Ids(batch);
    assert forall k :: 0 <= k < |batch| ==> batch[k] in batch;
  }

  /** One more claimed id applies the claim to a row the earlier ones left alone. */
  lemma ClaimNext(s: StoreState, ids: seq<string>, i: nat, now: int)
    requires KeyedById(s) && Distinct(ids) && i < |ids|
    requires forall id :: id in ids ==> id in s.tasks
    ensures ClaimAll(s, ids[..i], now).tasks.Keys == s.tasks.Keys
    ensures ClaimAll(s, ids[..i], now).tasks[ids[i]] == s.tasks[ids[i]]
    ensures ClaimAll(s, ids[..i + 1], now) == ClaimOne(ClaimAll(s, ids[..i], now), ids[i], now)
  {
    assert ids[..i + 1][..i] == ids[..i] && ids[i] !in ids[..i];
    ClaimAllRows(s, ids[..i], now);
  }

  /** The first i rows of the batch are claimed. */
  ghost predicate ClaimedUpTo(s: StoreState, batch: seq<Task>, i: nat, now: int, after: StoreState) {
    && KeyedById(s) && Distinct(Ids(batch)) && i <= |batch|
    && (forall k :: 0 <= k < |batch| ==> batch[k].id in s.tasks && s.tasks[batch[k].id] == batch[k])
    && (forall id :: id in Ids(batch)[..i] ==> id in s.tasks)
    && after == ClaimAll(s, Ids(batch)[..i], now)
  }

  lemma NoneClaimed(s: StoreState, batch: seq<Task>, now: int)
    requires KeyedById(s) && Distinct(Ids(batch))
    requires forall t :: t in batch ==> t.id in s.tasks && s.tasks[t.id] == t
    ensures ClaimedUpTo(s, batch, 0, now, s)
  {
    forall k | 0 <= k < |batch| ensures batch[k].id in s.tasks && s.tasks[batch[k].id] == batch[k] {
      assert batch[k] in batch;
    }
  }

  lemma BatchIds(s: StoreState, batch: seq<Task>)
    requires forall k :: 0 <= k < |batch| ==> batch[k].id in s.tasks && s.tasks[batch[k].id] == batch[k]
    ensures forall id :: id in Ids(batch) ==> id in s.tasks
  {
  }

  /** The next row is still as it was selected. */
  lemma ClaimNextRow(s: StoreState, batch: seq<Task>, i: nat, now: int, after: StoreState)
    requires ClaimedUpTo(s, batch, i, now, after) && i < |batch|
    ensures batch[i].id in after.tasks && after.tasks[batch[i].id] == batch[i]
    ensures ClaimedUpTo(s, batch, i + 1, now, ClaimOne(after, batch[i].id, now))
  {
    BatchIds(s, batch);
    ClaimNext(s, Ids(batch), i, now);
    hide ClaimAll, ClaimOne, KeyedById, Distinct;
  }

  lemma AllClaimed(s: StoreState, batch: seq<Task>, now: int, after: StoreState)
    requires ClaimedUpTo(s, batch, |batch|, now, after)
    ensures forall id :: id in Ids(batch) ==> id in s.tasks
    ensures after == ClaimAll(s, Ids(batch), now)
  {
    BatchIds(s, batch);
    assert Ids(batch)[..|batch|] == Ids(batch);
  }

  lemma SortedQueue(queued: seq<Task>, batch: seq<Task>)
    requires batch == SortBy(CreatedNoLater, queued) && Distinct(queued)
    ensures Distinct(batch) && SortedBy(CreatedNoLater, batch)
    ensures forall t :: t in batch <==> t in queued
  {
    assert forall t :: t in batch <==> t in multiset(batch);
    DistinctFromMultiset(queued, batch);
    SortBySorts(CreatedNoLater, queued);
  }

  /** A queued row that the cut leaves behind is no older than any row it keeps. */
  lemma LeftBehind(s: StoreState, n: nat, all: seq<Task>, id: string)
    requires SortedBy(CreatedNoLater, all) && n <= |all|
    requires id in s.tasks && s.tasks[id] in all && s.tasks[id].id == id && id !in Ids(all[..n])
    ensures n < |all| && forall i :: 0 <= i < n ==> all[i].createdAt <= s.tasks[id].createdAt
  {
    assert forall i :: 0 <= i < n ==> Ids(all[..n])[i] == all[i].id;
    var k :| 0 <= k < |all| && all[k] == s.tasks[id];
  }

  lemma KeptRows(s: StoreState, all: seq<Task>, n: nat)
    requires n <= |all| && Distinct(all) && SortedBy(CreatedNoLater, all)
    requires forall t :: t in all ==> t.id in s.tasks && s.tasks[t.id] == t && t.status == Queued
    ensures var ids := Ids(all[..n]);
            && Distinct(ids) && (forall k :: 0 <= k < n ==> ids[k] in s.tasks && s.tasks[ids[k]] == all[k])
            && (forall t :: t in all[..n] ==> t in all) && (forall i :: 0 <= i < n ==> all[i].status == Queued)
            && (forall i, j :: 0 <= i < j < n ==> all[i].createdAt <= all[j].createdAt)
  {
    assert forall k :: 0 <= k < n ==> all[k] in all;
    assert forall i, j :: 0 <= i < j < n ==> CreatedNoLater(all[i], all[j]);
  }

  /** Sorting all queued rows by age and keeping a prefix yields a FIFO batch. */
  lemma CutIsFifo(s: StoreState, limit: nat, all: seq<Task>)
    requires KeyedById(s) && Distinct(all) && SortedBy(CreatedNoLater, all)
    requires forall t :: t in all <==> t.id in s.tasks && s.tasks[t.id] == t && t.status == Queued
    ensures var batch := if |all| > limit then all[..limit] else all;
            && FifoBatch(s, limit, Ids(batch))
            && (forall t :: t in batch ==> t.id in s.tasks && s.tasks[t.id] == t)
            && (forall id :: id in Ids(batch) ==> id in s.tasks)
  {
    var n := if |all| > limit then limit else |all|;
    var ids := Ids(all[..n]);
    assert all[..n] == if |all| > limit then all[..limit] else all;
    KeptRows(s, all, n);
    forall id | id in s.tasks && s.tasks[id].status == Queued && id !in ids
      ensures n == limit && forall k :: 0 <= k < n ==> s.tasks[ids[k]].createdAt <= s.tasks[id].createdAt
    {
      LeftBehind(s, n, all, id);
    }
    hide SortedBy, Distinct, KeyedById;
  }
}
