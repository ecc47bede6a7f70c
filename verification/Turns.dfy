/**
  The asynchronous skeleton of a thread: turns, the send task of each turn, and
  who owns it. A task is owned by `running_turn`, by the next turn's task (which
  waits for it), or by whoever called `cancel`.
 */
module Turns {
  import opened Prelude
  import opened ContentBlocks

  datatype StopReason = EndTurn | MaxTokens | MaxTurnRequests | Refusal | Cancelled

  datatype Response = Answered(reason: StopReason) | Failure

  datatype Prompt = Message(id: Id, blocks: seq<ContentBlock>) | Retry

  datatype Task =
    | Waiting(previous: Option<nat>)
    | Running
    | Finished(response: Response)
    | Handled
    | Dropped

  /** Turn `t` is the `t`-th one; its task is `tasks[t - 1]`. `started` logs the prompt bodies begun. */
  datatype Turns = Turns(
    turnId: nat, running: Option<nat>, tasks: seq<Task>, prompts: seq<Prompt>,
    orphans: set<nat>, started: seq<nat>)

  const INITIAL := Turns(0, None, [], [], {}, [])

  predicate Has(ts: Turns, t: nat) {
    1 <= t <= |ts.tasks|
  }

  function TaskOf(ts: Turns, t: nat): Task
    requires Has(ts, t)
  {
    ts.tasks[t - 1]
  }

  /** The send task has come to its end. */
  predicate Ended(task: Task) {
    task.Finished? || task.Handled?
  }

  predicate Done(ts: Turns, t: nat) {
    Has(ts, t) && Ended(TaskOf(ts, t))
  }

  /** `run_turn`: the new task inherits, and waits for, the one `cancel` took out of `running_turn`. */
  function Begin(ts: Turns, p: Prompt): Turns {
    var t := ts.turnId + 1;
    ts.(turnId := t, running := Some(t), tasks := ts.tasks + [Waiting(ts.running)], prompts := ts.prompts + [p])
  }

  predicate CanStart(ts: Turns, t: nat) {
    Has(ts, t) && t <= |ts.prompts| && TaskOf(ts, t).Waiting?
    && var p := TaskOf(ts, t).previous; p.Some? ==> Done(ts, p.value)
  }

  function Start(ts: Turns, t: nat): Turns {
    if CanStart(ts, t) then ts.(tasks := ts.tasks[t - 1 := Running], started := ts.started + [t]) else ts
  }

  function Finish(ts: Turns, t: nat, r: Response): Turns {
    if Has(ts, t) && TaskOf(ts, t).Running? then ts.(tasks := ts.tasks[t - 1 := Finished(r)]) else ts
  }

  /** The response the completion handler of turn `t` is about to see. */
  function Outcome(ts: Turns, t: nat): Option<Response> {
    if Has(ts, t) && TaskOf(ts, t).Finished? then Some(TaskOf(ts, t).response) else None
  }

  /** The completion handler: only the clearing of `running_turn` looks at the turn id. */
  function Complete(ts: Turns, t: nat): Turns {
    if Outcome(ts, t).None? then ts
    else ts.(running := if ts.running == Some(t) then None else ts.running, tasks := ts.tasks[t - 1 := Handled])
  }

  /** `cancel` called by itself: the caller now owns the task. */
  function Abandon(ts: Turns): Turns {
    if ts.running.None? then ts else ts.(running := None, orphans := ts.orphans + {ts.running.value})
  }

  /** Dropping a task drops what it was waiting for. */
  function DropTasks(tasks: seq<Task>, t: nat): (r: seq<Task>)
    ensures |r| == |tasks|
    decreases t
  {
    if !(1 <= t <= |tasks|) then tasks
    else
      match tasks[t - 1]
      case Running => tasks[t - 1 := Dropped]
      case Waiting(p) =>
        var rest := tasks[t - 1 := Dropped];
        if p.Some? && p.value < t then DropTasks(rest, p.value) else rest
      case _ => tasks
  }

  function DropOrphan(ts: Turns, t: nat): Turns {
    if t in ts.orphans then ts.(tasks := DropTasks(ts.tasks, t), orphans := ts.orphans - {t}) else ts
  }

  datatype Event =
    | EvBegin(prompt: Prompt)
    | EvStart(turn: nat)
    | EvFinish(turn: nat, response: Response)
    | EvComplete(turn: nat)
    | EvAbandon
    | EvDrop(turn: nat)

  function Step(ts: Turns, e: Event): Turns {
    match e
    case EvBegin(p) => Begin(ts, p)
    case EvStart(t) => Start(ts, t)
    case EvFinish(t, r) => Finish(ts, t, r)
    case EvComplete(t) => Complete(ts, t)
    case EvAbandon => Abandon(ts)
    case EvDrop(t) => DropOrphan(ts, t)
  }

  function Run(ts: Turns, es: seq<Event>): Turns
    decreases |es|
  {
    if es == [] then ts else Run(Step(ts, es[0]), es[1..])
  }

  // ----- Every run: the running turn is the newest one -----

  ghost predicate Newest(ts: Turns) {
    |ts.tasks| == |ts.prompts| == ts.turnId
    && (ts.running.Some? ==> ts.running.value == ts.turnId && ts.turnId > 0)
  }

  lemma {:induction false} RunningTurnIsNewest(ts: Turns, es: seq<Event>)
    requires Newest(ts)
    ensures Newest(Run(ts, es))
    decreases |es|
  {
    if es != [] {
      RunningTurnIsNewest(Step(ts, es[0]), es[1..]);
    }
  }

  /** A completion of any turn but the newest leaves a generating thread generating. */
  lemma {:induction false} SupersededCompletionKeepsRunning(es: seq<Event>, t: nat)
    ensures
      var ts := Run(INITIAL, es);
      ts.running.Some? && t != ts.turnId ==> Complete(ts, t).running == ts.running
    ensures
      var ts := Run(INITIAL, es);
      Complete(ts, t).running != ts.running ==> t == ts.turnId && Done(ts, t)
  {
    RunningTurnIsNewest(INITIAL, es);
  }

  // ----- What each event does to the turns -----

  lemma {:induction false} RunLast(ts: Turns, es: seq<Event>, e: Event)
    ensures Run(ts, es + [e]) == Step(Run(ts, es), e)
    decreases |es|
  {
    if es == [] {
      assert es + [e] == [e] && Run(Step(ts, e), []) == Step(ts, e);
    } else {
      assert (es + [e])[1..] == es[1..] + [e];
      RunLast(Step(ts, es[0]), es[1..], e);
    }
  }

  /** How many turns have begun. */
  function Begins(es: seq<Event>): nat {
    if es == [] then 0 else Begins(Init(es)) + if Last(es).EvBegin? then 1 else 0
  }

  /** A turn is running: one has begun, and since then it was neither cancelled nor was its own end handled. */
  function Busy(es: seq<Event>): bool {
    if es == [] then false
    else
      match Last(es)
      case EvBegin(_) => true
      case EvAbandon => false
      case EvComplete(t) => Busy(Init(es)) && !(t == Begins(Init(es)) && Outcome(Run(INITIAL, Init(es)), t).Some?)
      case _ => Busy(Init(es))
  }

  /** In every run the thread is generating exactly then, and it is the last turn begun that is running. */
  lemma {:induction false} GeneratingExactly(es: seq<Event>)
    ensures
      var ts := Run(INITIAL, es);
      ts.turnId == Begins(es) && ts.running == if Busy(es) then Some(Begins(es)) else None
  {
    if es != [] {
      var init, e := Init(es), Last(es);
      assert init + [e] == es;
      GeneratingExactly(init);
      RunLast(INITIAL, init, e);
    }
  }

  lemma {:induction false} DropOnly(tasks: seq<Task>, t: nat)
    ensures forall i | 0 <= i < |tasks| ::
      DropTasks(tasks, t)[i] == tasks[i] || (DropTasks(tasks, t)[i].Dropped? && !Ended(tasks[i]))
    decreases t
  {
    if 1 <= t <= |tasks| && tasks[t - 1].Waiting? && tasks[t - 1].previous.Some? && tasks[t - 1].previous.value < t {
      DropOnly(tasks[t - 1 := Dropped], tasks[t - 1].previous.value);
    }
  }

  /** The response a turn's handler will see is the one its body ended with, until it has been handled. */
  lemma {:induction false} OutcomeFollows(ts: Turns, e: Event, t: nat)
    ensures
      Outcome(Step(ts, e), t)
      == if e.EvFinish? && e.turn == t && Has(ts, t) && TaskOf(ts, t) == Running then Some(e.response)
         else if e == EvComplete(t) then None
         else Outcome(ts, t)
  {
    if e.EvDrop? {
      DropOnly(ts.tasks, e.turn);
    }
  }

  /** Tasks are handed out by `cancel` and given up by dropping them. */
  lemma {:induction false} OrphansFollow(ts: Turns, e: Event)
    ensures
      Step(ts, e).orphans
      == if e.EvAbandon? && ts.running != None then ts.orphans + {ts.running.value}
         else if e.EvDrop? then ts.orphans - {e.turn}
         else ts.orphans
  {
  }

  const U32: nat := 0x1_0000_0000

  /**
    The code keeps turn ids in 32 bits and compares those. Its test takes turn `t` for the
    running one exactly when it is, or when a multiple of 2^32 turns have begun since.
   */
  lemma {:induction false} WhenIdsCollide(es: seq<Event>, t: nat)
    requires var ts := Run(INITIAL, es); Has(ts, t) && ts.running.Some?
    ensures
      var ts := Run(INITIAL, es);
      t % U32 == ts.running.value % U32 <==> ts.running == Some(t) || (t < ts.turnId && (ts.turnId - t) % U32 == 0)
  {
    RunningTurnIsNewest(INITIAL, es);
  }

  // ----- Runs interrupted only by follow-up sends -----

  predicate FollowUp(e: Event) {
    !e.EvAbandon? && !e.EvDrop?
  }

  predicate FollowUpsOnly(es: seq<Event>) {
    forall i | 0 <= i < |es| :: FollowUp(es[i])
  }

  function Upto(n: nat): (s: seq<nat>)
    ensures |s| == n && forall i | 0 <= i < n :: s[i] == i + 1
  {
    if n == 0 then [] else Upto(n - 1) + [n]
  }

  /** The task of turn `i + 1` waits for its predecessor, or for nothing because that is done. */
  ghost predicate InLine(ts: Turns, i: nat, task: Task) {
    task.Waiting? && i < |ts.tasks| &&
    match task.previous
    case Some(p) => p == i && i > 0
    case None => i == |ts.started| && (i > 0 ==> Ended(ts.tasks[i - 1]))
  }

  /**
    The bodies begun are exactly turns 1 to k in order. The last of them may
    still be running, those before it are done, and those after it wait, each
    for its predecessor.
   */
  ghost predicate InOrder(ts: Turns) {
    var k := |ts.started|;
    && Newest(ts)
    && k <= ts.turnId
    && ts.started == Upto(k)
    && (forall i | 0 <= i < k - 1 :: Ended(ts.tasks[i]))
    && (k > 0 ==> Ended(ts.tasks[k - 1]) || ts.tasks[k - 1].Running?)
    && (forall i | k <= i < ts.turnId :: InLine(ts, i, ts.tasks[i]))
    && (ts.running.None? ==> k == ts.turnId && (k > 0 ==> Ended(ts.tasks[k - 1])))
  }

  lemma {:induction false} StepInOrder(ts: Turns, e: Event)
    requires InOrder(ts) && FollowUp(e)
    ensures InOrder(Step(ts, e))
  {
  }

  lemma {:induction false} RunInOrder(ts: Turns, es: seq<Event>)
    requires InOrder(ts) && FollowUpsOnly(es)
    ensures InOrder(Run(ts, es))
    decreases |es|
  {
    if es != [] {
      assert FollowUp(es[0]);
      StepInOrder(ts, es[0]);
      RunInOrder(Step(ts, es[0]), es[1..]);
    }
  }

  /** Bodies never overlap, and those begun are turns 1, 2, ... once each, in turn order. */
  lemma {:induction false} BodiesRunOnceInTurnOrder(es: seq<Event>)
    requires FollowUpsOnly(es)
    ensures
      var ts := Run(INITIAL, es);
      ts.started == Upto(|ts.started|)
    ensures
      var ts := Run(INITIAL, es);
      forall i, j | 0 <= i < |ts.tasks| && 0 <= j < |ts.tasks| && ts.tasks[i].Running? && ts.tasks[j].Running? :: i == j
    ensures
      var ts := Run(INITIAL, es);
      forall i | 0 <= i < |ts.tasks| :: i + 1 in ts.started <==> !ts.tasks[i].Waiting?
  {
    RunInOrder(INITIAL, es);
    var ts := Run(INITIAL, es);
    forall i | 0 <= i < |ts.tasks|
      ensures i + 1 in ts.started <==> !ts.tasks[i].Waiting?
    {
      if i < |ts.started| {
        assert ts.started[i] == i + 1;
      }
    }
  }

  /** No turn is stuck: while one waits, some body is running or can start. */
  lemma {:induction false} SomeTurnCanMove(es: seq<Event>)
    requires FollowUpsOnly(es)
    ensures
      var ts := Run(INITIAL, es);
      |ts.started| < ts.turnId ==>
        var k := |ts.started|;
        CanStart(ts, k + 1) || (Has(ts, k) && TaskOf(ts, k).Running?)
  {
    RunInOrder(INITIAL, es);
  }

  /** With a bare `cancel` in between, the body of the next turn may start over a running one. */
  lemma CancelAllowsOverlap(p: Prompt)
    ensures
      var ts := Run(INITIAL, [EvBegin(p), EvStart(1), EvAbandon, EvBegin(p), EvStart(2)]);
      |ts.tasks| == 2 && ts.tasks[0].Running? && ts.tasks[1].Running?
  {
    var t1 := Start(Begin(INITIAL, p), 1);
    var t2 := Start(Begin(Abandon(t1), p), 2);
    var es := [EvStart(1), EvAbandon, EvBegin(p), EvStart(2)];
    assert [EvBegin(p), EvStart(1), EvAbandon, EvBegin(p), EvStart(2)][1..] == es;
    assert es[1..][1..][1..] == [EvStart(2)];
    assert Run(t2, []) == t2;
    assert Run(Begin(Abandon(t1), p), [EvStart(2)]) == t2;
    assert Run(t1, es[1..]) == t2;
  }
}
