/** The turns of a thread in the middle of everything else that happens to it. */
module ThreadTurns {
  import opened Prelude
  import opened ContentBlocks
  import opened ThreadModel
  import opened ThreadShapes
  import Turns

  // ----- A thread's turns are a run of the asynchronous skeleton -----

  function Async(e: Event): seq<Turns.Event> {
    match e
    case EvBegin(p) => [Turns.EvBegin(p)]
    case EvStart(t) => [Turns.EvStart(t)]
    case EvFinish(t, r) => [Turns.EvFinish(t, r)]
    case EvComplete(t) => [Turns.EvComplete(t)]
    case EvCancel => [Turns.EvAbandon]
    case EvDrop(t) => [Turns.EvDrop(t)]
    case _ => []
  }

  function Asyncs(es: seq<Event>): seq<Turns.Event> {
    if es == [] then [] else Async(es[0]) + Asyncs(es[1..])
  }

  lemma {:induction false} OtherTurns(s: Thread, e: Event)
    requires Async(e) == []
    ensures Step(s, e).turns == s.turns
  {
    if ToolEvent(e) {
      ToolEventShape(s, e);
    } else if MessageEvent(e) {
      MessageFrame(s, e);
    }
  }

  lemma {:induction false} StepProjects(s: Thread, e: Event)
    ensures Step(s, e).turns == if Async(e) == [] then s.turns else Turns.Step(s.turns, Async(e)[0])
  {
    if Async(e) == [] {
      OtherTurns(s, e);
    } else {
      match e
      case EvComplete(t) => CompleteFrame(s, t);
      case EvBegin(_) => CancelFrame(s.(plan := Unfinished(s.plan), hadError := false));
      case EvCancel => CancelFrame(s);
      case _ =>
    }
  }

  lemma {:induction false} RunProjects(s: Thread, es: seq<Event>)
    ensures Run(s, es).turns == Turns.Run(s.turns, Asyncs(es))
    decreases |es|
  {
    if es != [] {
      StepProjects(s, es[0]);
      RunProjects(Step(s, es[0]), es[1..]);
      if Async(es[0]) == [] {
        assert Asyncs(es) == Asyncs(es[1..]);
      } else {
        assert Asyncs(es)[1..] == Asyncs(es[1..]);
      }
    }
  }

  predicate Generating(s: Thread) {
    s.turns.running.Some?
  }

  /** In every run the running turn is the newest, so a late completion never makes a generating thread idle. */
  lemma {:induction false} LateCompletionKeepsGenerating(es: seq<Event>, t: nat)
    ensures var s := Run(INITIAL, es); Generating(s) ==> s.turns.running == Some(s.turns.turnId)
    ensures var s := Run(INITIAL, es);
      Generating(s) && t != s.turns.turnId ==> Step(s, EvComplete(t)).turns.running == s.turns.running
  {
    RunProjects(INITIAL, es);
    Turns.RunningTurnIsNewest(Turns.INITIAL, Asyncs(es));
    Turns.SupersededCompletionKeepsRunning(Asyncs(es), t);
    StepProjects(Run(INITIAL, es), EvComplete(t));
  }

  /** In every run the thread is generating exactly from the begin of a turn to its cancel or its own end. */
  lemma {:induction false} ThreadGeneratesExactly(es: seq<Event>)
    ensures Generating(Run(INITIAL, es)) <==> Turns.Busy(Asyncs(es))
    ensures Generating(Run(INITIAL, es)) ==> Run(INITIAL, es).turns.running == Some(Turns.Begins(Asyncs(es)))
  {
    RunProjects(INITIAL, es);
    Turns.GeneratingExactly(Asyncs(es));
  }

  // ----- Messages enter the transcript in send order -----

  predicate FollowUps(es: seq<Event>) {
    forall i | 0 <= i < |es| :: !es[i].EvCancel? && !es[i].EvDrop?
  }

  /** The prompts of the turns begun, in the order of the sends and retries. */
  function Prompts(es: seq<Event>): seq<Turns.Prompt> {
    if es == [] then [] else (if es[0].EvBegin? then [es[0].prompt] else []) + Prompts(es[1..])
  }

  datatype Sent = Sent(id: Option<Id>, blocks: seq<ContentBlock>)

  function Messages(ps: seq<Turns.Prompt>): seq<Sent> {
    if ps == [] then []
    else Messages(Init(ps)) + (if Last(ps).Message? then [Sent(Some(Last(ps).id), Last(ps).blocks)] else [])
  }

  /** What a step of a send task added to the transcript. */
  function Arrived(s: Thread, e: Event, t: Thread): seq<Sent> {
    if e.EvStart? && |t.entries| == |s.entries| + 1 && Last(t.entries).User?
    then [Sent(Last(t.entries).id, Last(t.entries).chunks)] else []
  }

  /** The messages the send tasks of a run added, in order of arrival. */
  function Arrivals(s: Thread, es: seq<Event>): seq<Sent>
    decreases |es|
  {
    if es == [] then [] else Arrived(s, es[0], Step(s, es[0])) + Arrivals(Step(s, es[0]), es[1..])
  }

  function Begun(s: Thread): seq<Turns.Prompt>
    requires |s.turns.started| <= |s.turns.prompts|
  {
    s.turns.prompts[..|s.turns.started|]
  }

  lemma {:induction false} NextInLine(ts: Turns.Turns, t: nat)
    requires Turns.InOrder(ts) && Turns.CanStart(ts, t)
    ensures t == |ts.started| + 1
  {
    var k := |ts.started|;
    assert k <= t - 1;
    assert Turns.InLine(ts, t - 1, ts.tasks[t - 1]);
  }

  lemma {:induction false} StartArrives(s: Thread, t: nat)
    requires Turns.InOrder(s.turns)
    ensures
      var u := StartTurn(s, t);
      Turns.InOrder(u.turns) && Messages(Begun(s)) + Arrived(s, EvStart(t), u) == Messages(Begun(u))
  {
    var u := StartTurn(s, t);
    StepProjects(s, EvStart(t));
    Turns.StepInOrder(s.turns, Turns.EvStart(t));
    if Turns.CanStart(s.turns, t) {
      NextInLine(s.turns, t);
      assert Init(Begun(u)) == Begun(s) && Last(Begun(u)) == s.turns.prompts[t - 1];
    } else {
      assert Messages(Begun(s)) + [] == Messages(Begun(s));
    }
  }

  lemma {:induction false} StepArrives(s: Thread, e: Event)
    requires Turns.InOrder(s.turns) && !e.EvCancel? && !e.EvDrop?
    ensures
      var u := Step(s, e);
      Turns.InOrder(u.turns) && Messages(Begun(s)) + Arrived(s, e, u) == Messages(Begun(u))
  {
    if e.EvStart? {
      StartArrives(s, e.turn);
    } else {
      StepProjects(s, e);
      if Async(e) != [] {
        Turns.StepInOrder(s.turns, Async(e)[0]);
      }
      assert Begun(Step(s, e)) == Begun(s);
      assert Messages(Begun(s)) + [] == Messages(Begun(s));
    }
  }

  lemma {:induction false} StepPrompts(s: Thread, e: Event)
    ensures Step(s, e).turns.prompts == s.turns.prompts + if e.EvBegin? then [e.prompt] else []
  {
    StepProjects(s, e);
  }

  lemma {:induction false} RunPrompts(s: Thread, es: seq<Event>)
    ensures Run(s, es).turns.prompts == s.turns.prompts + Prompts(es)
    decreases |es|
  {
    if es == [] {
      assert s.turns.prompts + [] == s.turns.prompts;
    } else {
      var e, rest := es[0], es[1..];
      StepPrompts(s, e);
      RunPrompts(Step(s, e), rest);
      Assoc(s.turns.prompts, if e.EvBegin? then [e.prompt] else [], Prompts(rest));
    }
  }

  lemma Assoc<T>(a: seq<T>, b: seq<T>, c: seq<T>)
    ensures a + (b + c) == (a + b) + c
  {
  }

  lemma {:induction false} RunArrives(s: Thread, es: seq<Event>)
    requires Turns.InOrder(s.turns) && FollowUps(es)
    ensures Turns.InOrder(Run(s, es).turns)
    ensures Messages(Begun(s)) + Arrivals(s, es) == Messages(Begun(Run(s, es)))
    decreases |es|
  {
    if es == [] {
      assert Messages(Begun(s)) + [] == Messages(Begun(s));
    } else {
      var e, rest := es[0], es[1..];
      var u := Step(s, e);
      StepArrives(s, e);
      RunArrives(u, rest);
      Assoc(Messages(Begun(s)), Arrived(s, e, u), Arrivals(u, rest));
    }
  }

  /**
    In every run interrupted only by follow-up sends, the messages arrive in the
    order they were sent, each once: they are the messages of the first turns.
   */
  lemma {:induction false} MessagesArriveInSendOrder(es: seq<Event>)
    requires FollowUps(es)
    ensures
      var s := Run(INITIAL, es);
      |s.turns.started| <= |Prompts(es)| && Arrivals(INITIAL, es) == Messages(Prompts(es)[..|s.turns.started|])
    ensures
      var ts := Run(INITIAL, es).turns;
      forall i, j | 0 <= i < |ts.tasks| && 0 <= j < |ts.tasks| && ts.tasks[i].Running? && ts.tasks[j].Running? :: i == j
  {
    RunArrives(INITIAL, es);
    RunPrompts(INITIAL, es);
    assert [] + Prompts(es) == Prompts(es);
    assert [] + Arrivals(INITIAL, es) == Arrivals(INITIAL, es);
  }
}
