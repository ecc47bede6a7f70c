/**
  When prompt bodies can overlap. A task waits for the turn before it, so the tasks that
  `running_turn` holds are a chain of consecutive turns. A follow-up send waits for that
  chain and for nothing else: a task outside it, left behind by `cancel`, may run beside it.
 */
module Overlaps {
  import opened Prelude
  import opened Turns

  predicate Live(task: Task) {
    task.Waiting? || task.Running?
  }

  predicate WaitsForPrevious(ts: Turns, t: nat) {
    Has(ts, t) && t > 1 && TaskOf(ts, t) == Waiting(Some(t - 1))
  }

  /** Turn `b` waits for the turn before it, and so on down to turn `a`. */
  predicate Chain(ts: Turns, b: nat, a: nat) {
    a <= b && forall t | a < t <= b :: WaitsForPrevious(ts, t)
  }

  predicate InChain(ts: Turns, t: nat) {
    ts.running.Some? && Chain(ts, ts.running.value, t)
  }

  /** Every task outside the chain of the running turn is over: whoever cancelled has waited for it, or dropped it. */
  predicate Settled(ts: Turns) {
    forall t | 1 <= t <= |ts.tasks| && Live(TaskOf(ts, t)) :: InChain(ts, t)
  }

  ghost predicate Overlap(ts: Turns) {
    exists i, j | 1 <= i < j <= |ts.tasks| :: TaskOf(ts, i).Running? && TaskOf(ts, j).Running?
  }

  // ----- What holds in every run -----

  predicate LinkOk(tasks: seq<Task>, t: nat)
    requires 1 <= t <= |tasks|
  {
    var task := tasks[t - 1];
    task.Waiting? && task.previous.Some? ==> t > 1 && task.previous.value == t - 1 && !tasks[t - 2].Dropped?
  }

  predicate Linked(tasks: seq<Task>) {
    forall t | 1 <= t <= |tasks| :: LinkOk(tasks, t)
  }

  predicate Unawaited(tasks: seq<Task>, t: nat) {
    1 <= t < |tasks| ==> tasks[t] != Waiting(Some(t))
  }

  /** Nobody but its owner waits for a task that `cancel` handed out. */
  ghost predicate Owned(ts: Turns) {
    && Newest(ts) && Linked(ts.tasks)
    && (ts.running.Some? ==> ts.running.value !in ts.orphans && !TaskOf(ts, ts.running.value).Dropped?)
    && forall t | t in ts.orphans :: 1 <= t <= |ts.tasks| && Unawaited(ts.tasks, t)
  }

  lemma {:induction false} DropKeepsLinks(tasks: seq<Task>, t: nat)
    requires Linked(tasks) && Unawaited(tasks, t)
    ensures Linked(DropTasks(tasks, t))
    ensures forall i | 0 <= i < |tasks| ::
      DropTasks(tasks, t)[i] == tasks[i] || (DropTasks(tasks, t)[i].Dropped? && i < t)
    decreases t
  {
    if 1 <= t <= |tasks| && Live(tasks[t - 1]) {
      assert LinkOk(tasks, t);
      var rest := tasks[t - 1 := Dropped];
      assert Linked(rest) by {
        forall k | 1 <= k <= |rest|
          ensures LinkOk(rest, k)
        {
          assert LinkOk(tasks, k);
        }
      }
      if tasks[t - 1].Waiting? && tasks[t - 1].previous.Some? {
        DropKeepsLinks(rest, t - 1);
      }
    }
  }

  lemma {:induction false} StepOwned(ts: Turns, e: Event)
    requires Owned(ts)
    ensures Owned(Step(ts, e))
  {
    var us := Step(ts, e);
    if e.EvDrop? {
      if e.turn in ts.orphans {
        DropKeepsLinks(ts.tasks, e.turn);
      }
    } else {
      forall t | 1 <= t <= |us.tasks|
        ensures LinkOk(us.tasks, t)
      {
        if t <= |ts.tasks| {
          assert LinkOk(ts.tasks, t);
        }
      }
    }
  }

  lemma {:induction false} RunOwned(ts: Turns, es: seq<Event>)
    requires Owned(ts)
    ensures Owned(Run(ts, es))
    decreases |es|
  {
    if es != [] {
      StepOwned(ts, es[0]);
      RunOwned(Step(ts, es[0]), es[1..]);
    }
  }

  // ----- A settled thread stays so under follow-ups, and its bodies do not overlap -----

  lemma {:induction false} BeginSettled(ts: Turns, p: Prompt)
    requires Owned(ts) && Settled(ts)
    ensures Settled(Begin(ts, p))
  {
    var us := Begin(ts, p);
    assert ts.running.Some? ==> WaitsForPrevious(us, us.turnId);
    assert forall t: nat | t <= ts.turnId :: WaitsForPrevious(us, t) == WaitsForPrevious(ts, t);
    forall t | 1 <= t <= |us.tasks| && Live(TaskOf(us, t))
      ensures InChain(us, t)
    {
      if t <= |ts.tasks| {
        assert InChain(ts, t);
      }
    }
  }

  /** One task of the chain goes on: what waits above it still does, and below it nothing is left. */
  lemma {:induction false} AdvanceSettled(ts: Turns, t: nat, task: Task)
    requires Owned(ts) && Settled(ts) && Has(ts, t) && !task.Waiting?
    requires Live(TaskOf(ts, t)) || !Live(task)
    requires TaskOf(ts, t).Waiting? ==> CanStart(ts, t)
    ensures Settled(ts.(tasks := ts.tasks[t - 1 := task]))
  {
    var us := ts.(tasks := ts.tasks[t - 1 := task]);
    assert LinkOk(ts.tasks, t);
    assert forall k | k != t :: WaitsForPrevious(us, k) == WaitsForPrevious(ts, k);
    forall k | 1 <= k <= |us.tasks| && Live(TaskOf(us, k))
      ensures InChain(us, k)
    {
      assert Live(TaskOf(ts, k)) && InChain(ts, k);
      if k < t {
        NothingBelow(ts, k, t);
      }
    }
  }

  /** Below a task that has started or can start, nothing in the chain is live. */
  lemma {:induction false} NothingBelow(ts: Turns, k: nat, t: nat)
    requires Owned(ts) && 1 <= k < t && Has(ts, t) && InChain(ts, k)
    requires TaskOf(ts, t).Waiting? ==> CanStart(ts, t)
    ensures !Live(TaskOf(ts, k)) || ts.running.value < t
  {
    if t <= ts.running.value {
      assert WaitsForPrevious(ts, t);
      assert k < t - 1 ==> WaitsForPrevious(ts, t - 1);
    }
  }

  lemma {:induction false} SameTasksSettled(ts: Turns, us: Turns)
    requires Settled(ts) && us.tasks == ts.tasks && us.running == ts.running
    ensures Settled(us)
  {
    assert forall t: nat :: WaitsForPrevious(us, t) == WaitsForPrevious(ts, t);
    forall t | 1 <= t <= |us.tasks| && Live(TaskOf(us, t))
      ensures InChain(us, t)
    {
      assert Live(TaskOf(ts, t)) && InChain(ts, t);
    }
  }

  /** When the task of the running turn is over, every task is. */
  lemma {:induction false} AllOver(ts: Turns)
    requires Newest(ts) && Settled(ts) && ts.running.Some? && !Live(TaskOf(ts, ts.running.value))
    ensures forall t | 1 <= t <= |ts.tasks| :: !Live(TaskOf(ts, t))
  {
    assert !WaitsForPrevious(ts, ts.running.value);
    assert forall t | 1 <= t <= |ts.tasks| && Live(TaskOf(ts, t)) :: InChain(ts, t);
  }

  lemma {:induction false} StepSettled(ts: Turns, e: Event)
    requires Owned(ts) && Settled(ts) && FollowUp(e)
    ensures Settled(Step(ts, e))
  {
    match e
    case EvBegin(p) => BeginSettled(ts, p);
    case EvStart(t) => 
      if CanStart(ts, t) {
        AdvanceSettled(ts, t, Running);
        SameTasksSettled(ts.(tasks := ts.tasks[t - 1 := Running]), Start(ts, t));
      }
    case EvFinish(t, r) => if Has(ts, t) && TaskOf(ts, t).Running? { AdvanceSettled(ts, t, Finished(r)); }
    case EvComplete(t) => CompleteSettled(ts, t);
  }

  lemma {:induction false} CompleteSettled(ts: Turns, t: nat)
    requires Owned(ts) && Settled(ts)
    ensures Settled(Complete(ts, t))
  {
    if Outcome(ts, t).Some? {
      AdvanceSettled(ts, t, Handled);
      var us := ts.(tasks := ts.tasks[t - 1 := Handled]);
      if ts.running == Some(t) {
        AllOver(us);
        assert forall k | 1 <= k <= |us.tasks| :: TaskOf(Complete(ts, t), k) == TaskOf(us, k);
      }
    }
  }

  lemma {:induction false} SettledApart(ts: Turns)
    requires Settled(ts) && Newest(ts)
    ensures !Overlap(ts)
  {
    forall i, j | 1 <= i < j <= |ts.tasks| && TaskOf(ts, j).Running?
      ensures !TaskOf(ts, i).Running?
    {
      assert !WaitsForPrevious(ts, j);
      assert !InChain(ts, i);
    }
  }

  lemma {:induction false} RunSettled(ts: Turns, fs: seq<Event>)
    requires Owned(ts) && Settled(ts) && FollowUpsOnly(fs)
    ensures Settled(Run(ts, fs)) && !Overlap(Run(ts, fs))
    decreases |fs|
  {
    if fs == [] {
      SettledApart(ts);
    } else {
      assert FollowUp(fs[0]);
      StepOwned(ts, fs[0]);
      StepSettled(ts, fs[0]);
      RunSettled(Step(ts, fs[0]), fs[1..]);
    }
  }

  // ----- A task outside the chain can be made to run beside the next one -----

  lemma {:induction false} RunAppend(ts: Turns, a: seq<Event>, b: seq<Event>)
    ensures Run(ts, a + b) == Run(Run(ts, a), b)
    decreases |a|
  {
    if a == [] {
      assert a + b == b;
    } else {
      assert (a + b)[1..] == a[1..] + b;
      RunAppend(Step(ts, a[0]), a[1..], b);
    }
  }

  lemma {:induction false} ChainGrows(ts: Turns, u: nat)
    requires Newest(ts) && WaitsForPrevious(ts, u) && InChain(ts, u - 1)
    ensures InChain(ts, u)
  {
  }

  /** Some task outside the chain runs, if need be after one start. */
  lemma {:induction false} Wake(ts: Turns, u: nat) returns (v: nat, fs: seq<Event>)
    requires Owned(ts) && Has(ts, u) && Live(TaskOf(ts, u)) && !InChain(ts, u)
    ensures FollowUpsOnly(fs)
    ensures
      var us := Run(ts, fs);
      Owned(us) && Has(us, v) && TaskOf(us, v).Running? && !InChain(us, v)
    decreases u
  {
    assert LinkOk(ts.tasks, u);
    if TaskOf(ts, u).Running? {
      v, fs := u, [];
    } else if CanStart(ts, u) {
      v, fs := u, [EvStart(u)];
      StepOwned(ts, EvStart(u));
      assert Run(Step(ts, EvStart(u)), []) == Step(ts, EvStart(u));
      StartedOutside(ts, u);
    } else {
      assert WaitsForPrevious(ts, u);
      if InChain(ts, u - 1) {
        ChainGrows(ts, u);
        assert false;
      }
      v, fs := Wake(ts, u - 1);
    }
  }

  lemma {:induction false} StartedOutside(ts: Turns, u: nat)
    requires Newest(ts) && CanStart(ts, u) && !InChain(ts, u)
    ensures !InChain(Start(ts, u), u)
  {
    var us := Start(ts, u);
    assert forall t | u < t :: WaitsForPrevious(us, t) == WaitsForPrevious(ts, t);
  }

  /** The waiting turn `q` gets to run while the body of `v`, which it does not wait for, goes on. */
  lemma {:induction false} Drive(ts: Turns, q: nat, v: nat) returns (fs: seq<Event>)
    requires Owned(ts) && Has(ts, q) && TaskOf(ts, q).Waiting?
    requires Has(ts, v) && TaskOf(ts, v).Running? && !Chain(ts, q, v)
    ensures FollowUpsOnly(fs)
    ensures
      var us := Run(ts, fs);
      && |us.tasks| == |ts.tasks| && TaskOf(us, q).Running? && TaskOf(us, v).Running?
      && (forall t | q < t <= |ts.tasks| :: TaskOf(us, t) == TaskOf(ts, t)) && Owned(us)
    decreases q
  {
    assert LinkOk(ts.tasks, q);
    if CanStart(ts, q) {
      fs := [EvStart(q)];
      StepOwned(ts, EvStart(q));
      assert Run(Step(ts, EvStart(q)), []) == Step(ts, EvStart(q));
    } else {
      var p := q - 1;
      assert WaitsForPrevious(ts, q);
      assert !Chain(ts, p, v);
      var begun := [];
      if TaskOf(ts, p).Waiting? {
        begun := Drive(ts, p, v);
      }
      var ts1 := Run(ts, begun);
      assert TaskOf(ts1, q) == TaskOf(ts, q) && p != v;
      fs := begun + [EvFinish(p, Failure), EvStart(q)];
      RunAppend(ts, begun, [EvFinish(p, Failure), EvStart(q)]);
      FinishThenStart(ts1, p, q);
    }
  }

  lemma {:induction false} FinishThenStart(ts: Turns, p: nat, q: nat)
    requires Owned(ts) && Has(ts, p) && TaskOf(ts, p).Running? && q == p + 1 && WaitsForPrevious(ts, q)
    ensures
      var us := Run(ts, [EvFinish(p, Failure), EvStart(q)]);
      Owned(us) && us.tasks == ts.tasks[p - 1 := Finished(Failure)][q - 1 := Running]
  {
    var f := Step(ts, EvFinish(p, Failure));
    StepOwned(ts, EvFinish(p, Failure));
    StepOwned(f, EvStart(q));
    assert [EvFinish(p, Failure), EvStart(q)][1..] == [EvStart(q)];
    assert Run(f, [EvStart(q)]) == Run(Step(f, EvStart(q)), []);
  }

  lemma {:induction false} OverlapReachable(ts: Turns, u: nat) returns (fs: seq<Event>)
    requires Owned(ts) && Has(ts, u) && Live(TaskOf(ts, u)) && !InChain(ts, u)
    ensures FollowUpsOnly(fs) && Overlap(Run(ts, fs))
  {
    var v, woken := Wake(ts, u);
    var ts1 := Run(ts, woken);
    var ts2 := Step(ts1, EvBegin(Retry));
    StepOwned(ts1, EvBegin(Retry));
    var n := ts2.turnId;
    BegunOutside(ts1, v);
    var driven := Drive(ts2, n, v);
    fs := woken + ([EvBegin(Retry)] + driven);
    RunAppend(ts, woken, [EvBegin(Retry)] + driven);
    assert ([EvBegin(Retry)] + driven)[1..] == driven;
    var us := Run(ts2, driven);
    assert Run(ts, fs) == us;
    assert TaskOf(us, v).Running? && TaskOf(us, n).Running?;
  }

  lemma {:induction false} BegunOutside(ts: Turns, v: nat)
    requires Newest(ts) && Has(ts, v) && !InChain(ts, v)
    ensures var us := Begin(ts, Retry); !Chain(us, us.turnId, v)
  {
    var us := Begin(ts, Retry);
    assert WaitsForPrevious(us, us.turnId) <==> ts.running.Some?;
    assert forall t: nat | t <= ts.turnId :: WaitsForPrevious(us, t) == WaitsForPrevious(ts, t);
  }

  /**
    In every run, bodies can never come to overlap by follow-ups alone exactly when every
    task outside the chain of the running turn is over.
   */
  lemma {:induction false} WhenBodiesStayApart(es: seq<Event>)
    ensures
      var ts := Run(INITIAL, es);
      Settled(ts) <==> forall fs | FollowUpsOnly(fs) :: !Overlap(Run(ts, fs))
  {
    var ts := Run(INITIAL, es);
    RunOwned(INITIAL, es);
    if Settled(ts) {
      forall fs | FollowUpsOnly(fs)
        ensures !Overlap(Run(ts, fs))
      {
        RunSettled(ts, fs);
      }
    } else {
      var u :| 1 <= u <= |ts.tasks| && Live(TaskOf(ts, u)) && !InChain(ts, u);
      var fs := OverlapReachable(ts, u);
    }
  }

  /** After `cancel` the thread is settled again exactly when the task it handed out is over. */
  lemma {:induction false} CancelledTaskDecides(ts: Turns)
    requires Owned(ts) && Settled(ts) && ts.running.Some?
    ensures Settled(Abandon(ts)) <==> !Live(TaskOf(ts, ts.running.value))
  {
    var us := Abandon(ts);
    assert forall t | 1 <= t <= |us.tasks| :: TaskOf(us, t) == TaskOf(ts, t) && !InChain(us, t);
    if !Live(TaskOf(ts, ts.running.value)) {
      AllOver(ts);
    }
  }

  // ----- Dropping -----

  predicate WaitsIn(tasks: seq<Task>, t: nat) {
    1 < t <= |tasks| && tasks[t - 1] == Waiting(Some(t - 1))
  }

  predicate ChainIn(tasks: seq<Task>, b: nat, a: nat) {
    1 <= a <= b && forall t | a < t <= b :: WaitsIn(tasks, t)
  }

  lemma {:induction false} DropChain(tasks: seq<Task>, t: nat, k: nat)
    requires Linked(tasks) && 1 <= t <= |tasks| && 1 <= k <= |tasks| && Unawaited(tasks, t)
    ensures
      DropTasks(tasks, t)[k - 1]
      == if ChainIn(tasks, t, k) && Live(tasks[k - 1]) then Dropped else tasks[k - 1]
    decreases t
  {
    assert LinkOk(tasks, t);
    if k > t {
      DropKeepsLinks(tasks, t);
    } else if WaitsIn(tasks, t) {
      var rest := tasks[t - 1 := Dropped];
      assert Linked(rest) by {
        forall q | 1 <= q <= |rest|
          ensures LinkOk(rest, q)
        {
          assert LinkOk(tasks, q);
        }
      }
      DropChain(rest, t - 1, k);
      assert forall q | 1 <= q < t :: WaitsIn(rest, q) == WaitsIn(tasks, q);
      assert k < t ==> (ChainIn(rest, t - 1, k) <==> ChainIn(tasks, t, k));
    } else {
      assert k < t ==> !ChainIn(tasks, t, k);
    }
  }

  /** Dropping a task that `cancel` handed out ends it and all it was waiting for, and no other task. */
  lemma {:induction false} DropEndsChain(es: seq<Event>, t: nat, k: nat)
    requires var ts := Run(INITIAL, es); t in ts.orphans && Has(ts, k)
    ensures
      var ts := Run(INITIAL, es);
      var us := Step(ts, EvDrop(t));
      && Has(us, k)
      && TaskOf(us, k) == if Chain(ts, t, k) && Live(TaskOf(ts, k)) then Dropped else TaskOf(ts, k)
  {
    var ts := Run(INITIAL, es);
    RunOwned(INITIAL, es);
    DropChain(ts.tasks, t, k);
    assert forall q: nat :: WaitsIn(ts.tasks, q) == WaitsForPrevious(ts, q);
  }
}
