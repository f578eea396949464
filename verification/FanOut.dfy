/** The bounded fan-out of the reranker, the compressor and the relevance filter: one goroutine per block, a semaphore,
    one result slot per goroutine, and a wait for all of them. */
module FanOut {
  import opened Common

  datatype Phase = NotStarted | Waiting | Holding | Written | Done

  /** `held` is the fill of the semaphore channel. */
  datatype State<R> = State(phases: seq<Phase>, slots: seq<Option<R>>, held: nat)

  /** Write carries whatever the call gave: an answer, or the default after an error or a cancelled context. */
  datatype Label<R> = Spawn(i: nat) | Acquire(i: nat) | Write(i: nat, r: R) | Release(i: nat)

  const CONCURRENCY: nat := 5

  predicate Enabled<R>(s: State<R>, l: Label<R>) {
    && l.i < |s.phases| && |s.slots| == |s.phases|
    && match l
       case Spawn(i) => s.phases[i] == NotStarted && forall j :: 0 <= j < i ==> s.phases[j] != NotStarted
       case Acquire(i) => s.phases[i] == Waiting && s.held < CONCURRENCY
       case Write(i, _) => s.phases[i] == Holding
       case Release(i) => s.phases[i] == Written && s.held > 0
  }

  function Step<R>(s: State<R>, l: Label<R>): State<R>
    requires Enabled(s, l)
  {
    match l
    case Spawn(i) => s.(phases := s.phases[i := Waiting])
    case Acquire(i) => s.(phases := s.phases[i := Holding], held := s.held + 1)
    case Write(i, r) => s.(phases := s.phases[i := Written], slots := s.slots[i := Some(r)])
    case Release(i) => s.(phases := s.phases[i := Done], held := s.held - 1)
  }

  function Start<R>(n: nat): State<R> {
    State(seq(n, i => NotStarted), seq(n, i => None), 0)
  }

  ghost predicate IsRun<R>(n: nat, ss: seq<State<R>>, ls: seq<Label<R>>) {
    && |ss| == |ls| + 1 && ss[0] == Start<R>(n)
    && forall i :: 0 <= i < |ls| ==> Enabled(ss[i], ls[i]) && ss[i + 1] == Step(ss[i], ls[i])
  }

  /** What wg.Wait waits for. */
  predicate AllDone<R>(s: State<R>) {
    forall i :: 0 <= i < |s.phases| ==> s.phases[i] == Done
  }

  // ---------- counting ----------

  predicate Busy(p: Phase) {
    p == Holding || p == Written
  }

  /** Steps still to be taken by a goroutine in this phase. */
  function Remaining(p: Phase): nat {
    match p
    case NotStarted => 4
    case Waiting => 3
    case Holding => 2
    case Written => 1
    case Done => 0
  }

  function Sum(ps: seq<Phase>, f: Phase -> nat): nat {
    if ps == [] then 0 else f(ps[0]) + Sum(ps[1..], f)
  }

  function BusyWeight(): Phase -> nat {
    (p: Phase) => if Busy(p) then 1 else 0
  }

  function RemainingWeight(): Phase -> nat {
    (p: Phase) => Remaining(p)
  }

  lemma {:induction false} SumUpdate(ps: seq<Phase>, i: nat, p: Phase, f: Phase -> nat)
    requires i < |ps|
    ensures Sum(ps[i := p], f) == Sum(ps, f) - f(ps[i]) + f(p)
    ensures Sum(ps, f) >= f(ps[i])
  {
    if i > 0 {
      SumUpdate(ps[1..], i - 1, p, f);
      assert ps[i := p][1..] == ps[1..][i - 1 := p];
    } else {
      assert ps[i := p][1..] == ps[1..];
    }
  }

  lemma {:induction false} SumOfSame(n: nat, ps: seq<Phase>, f: Phase -> nat, w: nat)
    requires |ps| == n && forall i :: 0 <= i < n ==> f(ps[i]) == w
    ensures Sum(ps, f) == n * w
  {
    if n > 0 {
      SumOfSame(n - 1, ps[1..], f, w);
    }
  }

  // ---------- the invariant ----------

  ghost predicate Inv<R>(n: nat, s: State<R>) {
    && |s.phases| == n && |s.slots| == n
    && s.held == Sum(s.phases, BusyWeight()) <= CONCURRENCY
    && (forall i :: 0 <= i < n ==> (s.slots[i].Some? <==> s.phases[i] == Written || s.phases[i] == Done))
    && (forall i, j :: 0 <= i < j < n && s.phases[i] == NotStarted ==> s.phases[j] == NotStarted)
  }

  lemma StepKeepsInv<R>(n: nat, s: State<R>, l: Label<R>)
    requires Inv(n, s) && Enabled(s, l)
    ensures Inv(n, Step(s, l))
    ensures Sum(Step(s, l).phases, RemainingWeight()) + 1 == Sum(s.phases, RemainingWeight())
  {
    var p := Step(s, l).phases[l.i];
    SumUpdate(s.phases, l.i, p, BusyWeight());
    SumUpdate(s.phases, l.i, p, RemainingWeight());
  }

  lemma {:induction false} RunKeepsInv<R>(n: nat, ss: seq<State<R>>, ls: seq<Label<R>>, k: nat)
    requires IsRun(n, ss, ls) && k < |ss|
    ensures Inv(n, ss[k])
    ensures Sum(ss[k].phases, RemainingWeight()) + k == 4 * n
  {
    if k == 0 {
      SumOfSame(n, Start<R>(n).phases, BusyWeight(), 0);
      SumOfSame(n, Start<R>(n).phases, RemainingWeight(), 4);
    } else {
      RunKeepsInv(n, ss, ls, k - 1);
      StepKeepsInv(n, ss[k - 1], ls[k - 1]);
    }
  }

  // ---------- the theorems ----------

  /** At no moment are more than five calls under way. */
  lemma AtMostFiveInFlight<R>(n: nat, ss: seq<State<R>>, ls: seq<Label<R>>, k: nat)
    requires IsRun(n, ss, ls) && k < |ss|
    ensures Sum(ss[k].phases, BusyWeight()) <= 5
    ensures forall busy: set<nat> :: (forall i :: i in busy ==> i < |ss[k].phases| && ss[k].phases[i] == Holding) ==>
              |busy| <= 5
  {
    RunKeepsInv(n, ss, ls, k);
    forall busy: set<nat> | forall i :: i in busy ==> i < |ss[k].phases| && ss[k].phases[i] == Holding
      ensures |busy| <= 5
    {
      SetFits(ss[k].phases, busy);
    }
  }

  lemma {:induction false} SetFits(ps: seq<Phase>, busy: set<nat>)
    requires forall i :: i in busy ==> i < |ps| && ps[i] == Holding
    ensures |busy| <= Sum(ps, BusyWeight())
    decreases |busy|
  {
    if busy != {} {
      var i :| i in busy;
      var rest := ps[i := Done];
      SumUpdate(ps, i, Done, BusyWeight());
      SetFits(rest, busy - {i});
    }
  }

  /** No schedule gets stuck: until all goroutines are done some step can be taken. */
  lemma NoDeadlock<R>(n: nat, s: State<R>, r: R)
    requires Inv(n, s) && !AllDone(s)
    ensures exists l :: Enabled(s, l) && (l.Write? ==> l.r == r)
  {
    if i :| 0 <= i < n && s.phases[i] == Holding {
      assert Enabled(s, Write(i, r));
    } else if i :| 0 <= i < n && s.phases[i] == Written {
      SumUpdate(s.phases, i, Done, BusyWeight());
      assert Enabled(s, Label<R>.Release(i));
    } else {
      SumOfSame(n, s.phases, BusyWeight(), 0);
      if i :| 0 <= i < n && s.phases[i] == Waiting {
        assert Enabled(s, Label<R>.Acquire(i));
      } else {
        var i := FirstNotStarted(s.phases);
        assert Enabled(s, Label<R>.Spawn(i));
      }
    }
  }

  lemma {:induction false} FirstNotStarted(ps: seq<Phase>) returns (i: nat)
    requires exists k :: 0 <= k < |ps| && ps[k] == NotStarted
    ensures i < |ps| && ps[i] == NotStarted && forall j :: 0 <= j < i ==> ps[j] != NotStarted
  {
    if ps[0] == NotStarted {
      i := 0;
    } else {
      var rest := FirstNotStarted(ps[1..]);
      i := rest + 1;
    }
  }

  /** Every schedule ends, after exactly four steps per goroutine. */
  lemma EveryScheduleEnds<R>(n: nat, ss: seq<State<R>>, ls: seq<Label<R>>)
    requires IsRun(n, ss, ls)
    ensures |ls| <= 4 * n
    ensures |ls| == 4 * n <==> AllDone(ss[|ls|])
  {
    RunKeepsInv(n, ss, ls, |ls|);
    var ps := ss[|ls|].phases;
    if AllDone(ss[|ls|]) {
      SumOfSame(n, ps, RemainingWeight(), 0);
    } else {
      var i :| 0 <= i < n && ps[i] != Done;
      SumUpdate(ps, i, Done, RemainingWeight());
    }
  }

  function WritesTo<R>(ls: seq<Label<R>>, i: nat): nat {
    if ls == [] then 0
    else WritesTo(ls[..|ls| - 1], i) + (if ls[|ls| - 1].Write? && ls[|ls| - 1].i == i then 1 else 0)
  }

  /** One step writes a slot only if it was empty. */
  lemma SlotStep<R>(n: nat, s: State<R>, l: Label<R>, i: nat)
    requires Inv(n, s) && Enabled(s, l) && i < n
    ensures |Step(s, l).slots| == n
    ensures if l.Write? && l.i == i then s.slots[i].None? && Step(s, l).slots[i] == Some(l.r)
            else Step(s, l).slots[i] == s.slots[i]
  {
  }

  lemma WritesSnoc<R>(ls: seq<Label<R>>, k: nat, i: nat)
    requires k < |ls|
    ensures WritesTo(ls[..k + 1], i) == WritesTo(ls[..k], i) + (if ls[k].Write? && ls[k].i == i then 1 else 0)
    ensures WritesTo(ls[..0], i) == 0
  {
    assert ls[..k + 1][..k] == ls[..k];
  }

  /** A slot is written once, by its own goroutine, and keeps what was written. */
  lemma {:induction false} SlotWrittenOnce<R>(n: nat, ss: seq<State<R>>, ls: seq<Label<R>>, k: nat, i: nat)
    requires IsRun(n, ss, ls) && k < |ss| && i < n
    ensures |ss[k].slots| == n && WritesTo(ls[..k], i) == if ss[k].slots[i].Some? then 1 else 0
    ensures ss[k].slots[i].Some? ==> exists j :: 0 <= j < k && ls[j] == Write(i, ss[k].slots[i].value)
  {
    if k > 0 {
      SlotWrittenOnce(n, ss, ls, k - 1, i);
      RunKeepsInv(n, ss, ls, k - 1);
      SlotStep(n, ss[k - 1], ls[k - 1], i);
      WritesSnoc(ls, k - 1, i);
      hide WritesTo, Step, Enabled, Inv;
    } else {
      RunKeepsInv(n, ss, ls, 0);
    }
  }

  /** Whatever the schedule, when the wait returns the slots hold what the sequential loop would compute: slot i the
      answer to call i. */
  lemma FanOutIsSequentialMap<R>(ss: seq<State<R>>, ls: seq<Label<R>>, answers: seq<R>)
    requires IsRun(|answers|, ss, ls) && AllDone(ss[|ls|])
    requires forall j :: 0 <= j < |ls| && ls[j].Write? ==> ls[j].i < |answers| && ls[j].r == answers[ls[j].i]
    ensures ss[|ls|].slots == seq(|answers|, i requires 0 <= i < |answers| => Some(answers[i]))
    ensures forall i :: 0 <= i < |answers| ==> WritesTo(ls, i) == 1
  {
    RunKeepsInv(|answers|, ss, ls, |ls|);
    assert ls[..|ls|] == ls;
    forall i | 0 <= i < |answers| ensures ss[|ls|].slots[i] == Some(answers[i]) && WritesTo(ls, i) == 1 {
      SlotWrittenOnce(|answers|, ss, ls, |ls|, i);
    }
  }
}
