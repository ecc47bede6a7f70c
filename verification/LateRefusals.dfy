/**
  Whose message a refusal removes. The handler truncates at the last user message without
  asking whose turn was refused, so it matters which send task brought that message.
 */
module LateRefusals {
  import opened Prelude
  import opened ContentBlocks
  import opened ThreadModel
  import opened ThreadShapes
  import opened Refusal
  import ThreadTurns
  import Turns

  // ----- Which turn brought which entry -----

  /** The turn whose send task pushed each entry; entries from elsewhere have none. */
  function Credit(own: seq<Option<nat>>, s: Thread, e: Event): seq<Option<nat>> {
    var n := |Step(s, e).entries|;
    if n <= |own| then own[..n] else own + [if e.EvStart? then Some(e.turn) else None]
  }

  function CreditAll(own: seq<Option<nat>>, s: Thread, es: seq<Event>): seq<Option<nat>>
    decreases |es|
  {
    if es == [] then own else CreditAll(Credit(own, s, es[0]), Step(s, es[0]), es[1..])
  }

  function Owners(es: seq<Event>): seq<Option<nat>> {
    CreditAll([], INITIAL, es)
  }

  /** The body of turn `u` was begun after that of turn `t`. */
  predicate StartedAfter(ts: Turns.Turns, t: nat, u: nat) {
    exists i, j | 0 <= i < j < |ts.started| :: ts.started[i] == t && ts.started[j] == u
  }

  // ----- Bodies are begun once -----

  predicate Begun(ts: Turns.Turns, t: nat) {
    t in ts.started
  }

  ghost predicate OnceEach(ts: Turns.Turns) {
    && (forall i, j | 0 <= i < j < |ts.started| :: ts.started[i] != ts.started[j])
    && (forall t | t in ts.started :: Turns.Has(ts, t) && !Turns.TaskOf(ts, t).Waiting?)
    && (forall t | 1 <= t <= |ts.tasks| && (Turns.TaskOf(ts, t).Running? || Turns.Ended(Turns.TaskOf(ts, t))) ::
      Begun(ts, t))
  }

  lemma {:induction false} StepOnceEach(ts: Turns.Turns, e: Turns.Event)
    requires OnceEach(ts)
    ensures OnceEach(Turns.Step(ts, e))
  {
    var us := Turns.Step(ts, e);
    if e.EvDrop? {
      Turns.DropOnly(ts.tasks, e.turn);
    }
    assert forall t | t in us.started :: t in ts.started || (e.EvStart? && t == e.turn);
    forall t | 1 <= t <= |us.tasks| && (Turns.TaskOf(us, t).Running? || Turns.Ended(Turns.TaskOf(us, t)))
      ensures Begun(us, t)
    {
      if e == Turns.EvStart(t) && Turns.CanStart(ts, t) {
        assert us.started[|ts.started|] == t;
      } else {
        assert Begun(ts, t);
      }
    }
  }

  // ----- One event -----

  predicate SameKind(a: Entry, b: Entry) {
    a.User? == b.User?
  }

  /** The transcript keeps its kinds of entries up to where it is cut, and grows by one entry at most. */
  ghost predicate Shaped(es: seq<Entry>, fs: seq<Entry>) {
    && |fs| <= |es| + 1
    && forall i | 0 <= i < |es| && i < |fs| :: SameKind(es[i], fs[i])
  }

  predicate SameMessage(a: Entry, b: Entry) {
    a.User? || b.User? ==> a == b
  }

  predicate SendEvent(e: Event) {
    !e.EvUserChunk? && !e.EvPushUser? && !e.EvPushMessage?
  }

  /** ... and the user messages stay as they are. */
  ghost predicate Replied(es: seq<Entry>, fs: seq<Entry>) {
    && |fs| <= |es| + 1 && (|fs| > |es| ==> !Last(fs).User?)
    && forall i | 0 <= i < |es| && i < |fs| :: SameMessage(es[i], fs[i])
  }

  lemma {:induction false} HandledShaped(s: Thread, r: Turns.Response)
    ensures Replied(s.entries, HandleResponse(s, r).entries)
  {
    match r
    case Answered(Refusal) => RefuseTruncates(s); RefusedLength(s);
    case Answered(Cancelled) =>
    case Answered(MaxTokens) =>
    case Answered(_) => SnapshotShape(s);
    case Failure =>
  }

  lemma {:induction false} RefusedLength(s: Thread)
    ensures
      var r := HandleResponse(s, Turns.Answered(Turns.Refusal)).entries;
      |r| > |s.entries| ==> r == SnapshotPlan(s).entries && |r| == |s.entries| + 1 && !Last(r).User?
  {
    SnapshotShape(s);
  }

  lemma {:induction false} CompleteShaped(s: Thread, t: nat)
    ensures Replied(s.entries, CompleteTurn(s, t).entries)
  {
    if Turns.Outcome(s.turns, t).Some? {
      HandledShaped(Flush(s.(turns := Turns.Complete(s.turns, t))), Turns.Outcome(s.turns, t).value);
    }
  }

  predicate MessageOf(e: Entry, p: Turns.Prompt) {
    e.User? && p.Message? && e.id == Some(p.id) && e.chunks == p.blocks
  }

  lemma {:induction false} StartShaped(s: Thread, t: nat)
    ensures
      var u := StartTurn(s, t);
      if Turns.CanStart(s.turns, t) && s.turns.prompts[t - 1].Message?
      then MoreMessage(s.entries, u.entries) && MessageOf(Last(u.entries), s.turns.prompts[t - 1])
      else u.entries == s.entries
  {
  }

  lemma {:induction false} AssistantShaped(
    s: Thread, cb: ContentBlock, thought: bool, indented: bool, subagent: Option<Id>)
    ensures Replied(s.entries, PushAssistant(s, cb, thought, indented, subagent).entries)
  {
    if !(cb.TextBlock? && Streams(s.entries, thought, indented, subagent)) {
      var f := if Joins(s.entries, indented, subagent) then Flush(s) else s;
      var (texts, block) := Append(f.texts, TailBlock(f.entries, thought, indented, subagent), cb);
      TailShaped(f, texts, block, thought, indented, subagent);
    }
  }

  lemma {:induction false} TailShaped(
    s: Thread, texts: Store, block: Block, thought: bool, indented: bool, subagent: Option<Id>)
    ensures Replied(s.entries, SetTail(s, texts, block, thought, indented, subagent).entries)
  {
  }

  lemma {:induction false} UserShaped(s: Thread, id: Option<Id>, cb: ContentBlock, indented: bool)
    ensures Shaped(s.entries, PushUser(s, id, cb, indented).entries)
  {
  }

  lemma {:induction false} MessageShaped(s: Thread, e: Event)
    requires MessageEvent(e) && !e.EvStart?
    ensures Shaped(s.entries, Step(s, e).entries) && (SendEvent(e) ==> Replied(s.entries, Step(s, e).entries))
  {
    match e
    case EvAssistant(cb, thought, indented, subagent) => AssistantShaped(s, cb, thought, indented, subagent);
    case EvUserChunk(cb) => UserShaped(s, None, cb, false);
    case EvPushUser(id, cb, indented) => UserShaped(s, id, cb, indented);
    case EvPushMessage(_, _) =>
    case EvSnapshotPlan => SnapshotShape(s);
    case EvMarkSubagent =>
  }

  lemma {:induction false} CanceledShaped(s: Thread)
    ensures Replied(s.entries, CancelEffects(s).entries)
  {
  }

  lemma {:induction false} OtherShaped(s: Thread, e: Event)
    requires !ToolEvent(e) && !MessageEvent(e)
    ensures Replied(s.entries, Step(s, e).entries)
  {
    match e
    case EvComplete(t) => CompleteShaped(s, t);
    case EvBegin(_) => CanceledShaped(s.(plan := Unfinished(s.plan), hadError := false));
    case EvCancel => CanceledShaped(s);
    case EvRewindEnd(_) =>
    case _ =>
  }

  lemma {:induction false} StepShaped(s: Thread, e: Event)
    requires !e.EvStart?
    ensures Shaped(s.entries, Step(s, e).entries) && (SendEvent(e) ==> Replied(s.entries, Step(s, e).entries))
  {
    if ToolEvent(e) {
      ToolEventShape(s, e);
    } else if MessageEvent(e) {
      MessageShaped(s, e);
    } else {
      OtherShaped(s, e);
    }
  }

  // ----- Every run -----

  /** Owners are begun turns with a message, in the order in which they were begun. */
  ghost predicate Credited(s: Thread, own: seq<Option<nat>>) {
    && |own| == |s.entries|
    && (forall i | 0 <= i < |own| && own[i].Some? :: s.entries[i].User? && Begun(s.turns, own[i].value))
    && (forall i, j | 0 <= i < j < |own| && own[i].Some? && own[j].Some? ::
      StartedAfter(s.turns, own[i].value, own[j].value))
    && OnceEach(s.turns)
  }

  lemma {:induction false} StartCredited(s: Thread, own: seq<Option<nat>>, t: nat)
    requires Credited(s, own)
    ensures Credited(StartTurn(s, t), Credit(own, s, EvStart(t)))
  {
    var u, now := StartTurn(s, t), Credit(own, s, EvStart(t));
    StartShaped(s, t);
    ThreadTurns.StepProjects(s, EvStart(t));
    StepOnceEach(s.turns, Turns.EvStart(t));
    if Turns.CanStart(s.turns, t) {
      StillOrdered(s.turns, u.turns);
      forall a | Begun(s.turns, a)
        ensures StartedAfter(u.turns, a, t)
      {
        var i :| 0 <= i < |s.turns.started| && s.turns.started[i] == a;
        assert u.turns.started[i] == a && u.turns.started[|s.turns.started|] == t;
      }
    }
  }

  /** The order of starts never changes. */
  lemma {:induction false} StillOrdered(ts: Turns.Turns, us: Turns.Turns)
    requires ts.started <= us.started
    ensures forall t | Begun(ts, t) :: Begun(us, t)
    ensures forall t, u | StartedAfter(ts, t, u) :: StartedAfter(us, t, u)
  {
    forall t, u | StartedAfter(ts, t, u)
      ensures StartedAfter(us, t, u)
    {
      var i, j :| 0 <= i < j < |ts.started| && ts.started[i] == t && ts.started[j] == u;
      assert us.started[i] == t && us.started[j] == u;
    }
  }

  lemma {:induction false} TurnsGoOn(s: Thread, e: Event)
    requires OnceEach(s.turns)
    ensures OnceEach(Step(s, e).turns) && s.turns.started <= Step(s, e).turns.started
  {
    ThreadTurns.StepProjects(s, e);
    if ThreadTurns.Async(e) != [] {
      StepOnceEach(s.turns, ThreadTurns.Async(e)[0]);
    }
  }

  lemma {:induction false} StillCredited(s: Thread, t: Thread, own: seq<Option<nat>>, now: seq<Option<nat>>)
    requires Credited(s, own) && Shaped(s.entries, t.entries) && OnceEach(t.turns) && s.turns.started <= t.turns.started
    requires |now| == |t.entries| && forall i | 0 <= i < |now| :: if i < |own| then now[i] == own[i] else now[i].None?
    ensures Credited(t, now)
  {
    StillOrdered(s.turns, t.turns);
  }

  lemma {:induction false} StepCredited(s: Thread, own: seq<Option<nat>>, e: Event)
    requires Credited(s, own)
    ensures Credited(Step(s, e), Credit(own, s, e))
  {
    if e.EvStart? {
      StartCredited(s, own, e.turn);
    } else {
      StepShaped(s, e);
      TurnsGoOn(s, e);
      StillCredited(s, Step(s, e), own, Credit(own, s, e));
    }
  }

  lemma {:induction false} RunCredited(s: Thread, own: seq<Option<nat>>, es: seq<Event>)
    requires Credited(s, own)
    ensures Credited(Run(s, es), CreditAll(own, s, es))
    decreases |es|
  {
    if es != [] {
      StepCredited(s, own, es[0]);
      RunCredited(Step(s, es[0]), Credit(own, s, es[0]), es[1..]);
    }
  }

  predicate SentBy(e: Entry, prompts: seq<Turns.Prompt>, t: Option<nat>) {
    t.Some? && 1 <= t.value <= |prompts| && MessageOf(e, prompts[t.value - 1])
  }

  predicate AllSentBy(es: seq<Entry>, prompts: seq<Turns.Prompt>, own: seq<Option<nat>>) {
    |own| == |es| && forall i | 0 <= i < |own| && es[i].User? :: SentBy(es[i], prompts, own[i])
  }

  /** Every user message is the one its turn was sent with. */
  predicate AllSent(s: Thread, own: seq<Option<nat>>) {
    AllSentBy(s.entries, s.turns.prompts, own)
  }

  predicate SendsOnly(es: seq<Event>) {
    forall i | 0 <= i < |es| :: SendEvent(es[i])
  }

  lemma {:induction false} StillSent(es: seq<Entry>, fs: seq<Entry>, ps: seq<Turns.Prompt>, qs: seq<Turns.Prompt>,
                                      own: seq<Option<nat>>, now: seq<Option<nat>>)
    requires AllSentBy(es, ps, own) && ps <= qs && |now| == |fs|
    requires forall i | 0 <= i < |es| && i < |fs| :: SameMessage(es[i], fs[i]) && now[i] == own[i]
    requires |fs| <= |es| + 1 && (|fs| > |es| && Last(fs).User? ==> SentBy(Last(fs), qs, Last(now)))
    ensures AllSentBy(fs, qs, now)
  {
    forall i | 0 <= i < |now| && fs[i].User?
      ensures SentBy(fs[i], qs, now[i])
    {
      if i < |own| {
        assert SameMessage(es[i], fs[i]) && SentBy(es[i], ps, own[i]);
      }
    }
  }

  lemma {:induction false} StepAllSent(s: Thread, own: seq<Option<nat>>, e: Event)
    requires AllSent(s, own) && SendEvent(e)
    ensures AllSent(Step(s, e), Credit(own, s, e))
  {
    var u, now := Step(s, e), Credit(own, s, e);
    ThreadTurns.StepPrompts(s, e);
    if e.EvStart? {
      StartShaped(s, e.turn);
    } else {
      StepShaped(s, e);
    }
    StillSent(s.entries, u.entries, s.turns.prompts, u.turns.prompts, own, now);
  }

  lemma {:induction false} RunAllSent(s: Thread, own: seq<Option<nat>>, es: seq<Event>)
    requires AllSent(s, own) && SendsOnly(es)
    ensures AllSent(Run(s, es), CreditAll(own, s, es))
    decreases |es|
  {
    if es != [] {
      assert SendEvent(es[0]);
      StepAllSent(s, own, es[0]);
      RunAllSent(Step(s, es[0]), Credit(own, s, es[0]), es[1..]);
    }
  }

  // ----- Whose message goes -----

  predicate Refused(s: Thread, t: nat) {
    Turns.Outcome(s.turns, t) == Some(Turns.Answered(Turns.Refusal))
  }

  /** The message of turn `u` is in the transcript. */
  predicate Shown(own: seq<Option<nat>>, u: nat) {
    Some(u) in own
  }

  /** The message of turn `u` is beyond the end of what is left. */
  predicate Loses(own: seq<Option<nat>>, left: seq<Entry>, u: nat) {
    |left| <= |own| && Some(u) in own[|left|..]
  }

  /** The message of turn `u` arrived after every other one still there. */
  ghost predicate Newest(ts: Turns.Turns, own: seq<Option<nat>>, u: nat) {
    Shown(own, u) && forall v: nat | Shown(own, v) && v != u :: StartedAfter(ts, v, u)
  }

  lemma {:induction false} NotBoth(ts: Turns.Turns, t: nat, u: nat)
    requires OnceEach(ts) && StartedAfter(ts, t, u)
    ensures t != u && !StartedAfter(ts, u, t)
  {
  }

  lemma {:induction false} OneOrOther(ts: Turns.Turns, t: nat, u: nat)
    requires Begun(ts, t) && Begun(ts, u) && t != u
    ensures StartedAfter(ts, t, u) || StartedAfter(ts, u, t)
  {
    var i :| 0 <= i < |ts.started| && ts.started[i] == t;
    var j :| 0 <= j < |ts.started| && ts.started[j] == u;
    assert i != j;
  }

  /** The last user message is that of the turn begun last among those shown. */
  lemma {:induction false} LastIsNewest(s: Thread, own: seq<Option<nat>>, u: nat)
    requires Credited(s, own) && AllSent(s, own) && LastUser(s.entries).Some?
    ensures
      var last := LastUser(s.entries).value;
      own[last].Some? && (Newest(s.turns, own, u) <==> own[last] == Some(u))
        && (Loses(own, s.entries[..last], u) <==> own[last] == Some(u))
  {
    var last := LastUser(s.entries).value;
    var newest := own[last].value;
    forall v: nat | Shown(own, v) && v != newest
      ensures StartedAfter(s.turns, v, newest)
    {
      var i :| 0 <= i < |own| && own[i] == Some(v);
      assert i < last;
    }
    if Shown(own, u) && u != newest {
      NotBoth(s.turns, u, newest);
    }
    assert own[last..][0] == Some(newest);
    assert forall i | 0 < i < |own| - last :: own[last..][i] == own[last + i] && own[last + i].None?;
  }

  lemma {:induction false} CompleteTruncates(s: Thread, t: nat)
    requires Refused(s, t)
    ensures
      var r := Step(s, EvComplete(t)).entries;
      if LastUser(s.entries).Some? && NothingCompleted(s.entries) then r == s.entries[..LastUser(s.entries).value]
      else s.entries <= r
  {
    RefuseTruncates(Flush(s.(turns := Turns.Complete(s.turns, t))));
  }

  /**
    Handling a refusal removes the message of turn `u` exactly when that is the last message
    to have arrived of those shown, and no call after it has completed with output. Which turn
    was refused makes no difference.
   */
  lemma {:induction false} RefusalTakesNewestMessage(es: seq<Event>, t: nat, u: nat)
    requires var s := Run(INITIAL, es); Refused(s, t) && AllSent(s, Owners(es))
    ensures
      var s, own := Run(INITIAL, es), Owners(es);
      Loses(own, Step(s, EvComplete(t)).entries, u) <==> NothingCompleted(s.entries) && Newest(s.turns, own, u)
  {
    var s, own := Run(INITIAL, es), Owners(es);
    RunCredited(INITIAL, [], es);
    CompleteTruncates(s, t);
    if LastUser(s.entries).Some? {
      LastIsNewest(s, own, u);
    }
  }

  /** A message that arrived after that of the refused turn is still shown. */
  ghost predicate LaterShown(ts: Turns.Turns, own: seq<Option<nat>>, t: nat) {
    exists u: nat :: Shown(own, u) && StartedAfter(ts, t, u)
  }

  lemma {:induction false} NewestShown(s: Thread, own: seq<Option<nat>>, t: nat)
    requires Credited(s, own) && AllSent(s, own) && Begun(s.turns, t)
    ensures LaterShown(s.turns, own, t) <==> exists u: nat :: Newest(s.turns, own, u) && StartedAfter(s.turns, t, u)
    ensures Newest(s.turns, own, t) <==> Shown(own, t) && !LaterShown(s.turns, own, t)
  {
    if LaterShown(s.turns, own, t) {
      var u: nat :| Shown(own, u) && StartedAfter(s.turns, t, u);
      var i :| 0 <= i < |own| && own[i] == Some(u);
      assert s.entries[i].User?;
      var newest := own[LastUser(s.entries).value].value;
      LastIsNewest(s, own, newest);
      AfterBoth(s.turns, t, u, newest);
      NotBoth(s.turns, t, u);
    } else {
      forall v: nat | Shown(own, v) && v != t
        ensures StartedAfter(s.turns, v, t)
      {
        var i :| 0 <= i < |own| && own[i] == Some(v);
        OneOrOther(s.turns, t, v);
      }
    }
  }

  lemma {:induction false} AfterBoth(ts: Turns.Turns, t: nat, u: nat, v: nat)
    requires OnceEach(ts) && StartedAfter(ts, t, u) && (u == v || StartedAfter(ts, u, v))
    ensures StartedAfter(ts, t, v)
  {
    var i, j :| 0 <= i < j < |ts.started| && ts.started[i] == t && ts.started[j] == u;
    if u != v {
      var k, l :| 0 <= k < l < |ts.started| && ts.started[k] == u && ts.started[l] == v;
      assert j == k;
    }
  }

  /**
    A refusal of turn `t` takes a later turn's message exactly when no call has completed with
    output since the last message and such a message has arrived and is still shown; it takes
    the message of `t` exactly when none has and its own is shown.
   */
  lemma {:induction false} LateRefusalDropsNewestMessage(es: seq<Event>, t: nat)
    requires var s := Run(INITIAL, es); Refused(s, t) && AllSent(s, Owners(es))
    ensures
      var s, own := Run(INITIAL, es), Owners(es);
      var left := Step(s, EvComplete(t)).entries;
      && ((exists u: nat :: Loses(own, left, u) && StartedAfter(s.turns, t, u))
          <==> NothingCompleted(s.entries) && LaterShown(s.turns, own, t))
      && (Loses(own, left, t) <==> NothingCompleted(s.entries) && Shown(own, t) && !LaterShown(s.turns, own, t))
  {
    var s, own := Run(INITIAL, es), Owners(es);
    RunCredited(INITIAL, [], es);
    NewestShown(s, own, t);
    RefusalTakesNewestMessage(es, t, t);
    forall u: nat
      ensures Loses(own, Step(s, EvComplete(t)).entries, u) <==> NothingCompleted(s.entries) && Newest(s.turns, own, u)
    {
      RefusalTakesNewestMessage(es, t, u);
    }
  }

  /** With follow-ups only, the later turns are those with the larger numbers. */
  lemma {:induction false} LaterByNumber(es: seq<Event>, t: nat, u: nat)
    requires ThreadTurns.FollowUps(es) && Begun(Run(INITIAL, es).turns, t) && Begun(Run(INITIAL, es).turns, u)
    ensures StartedAfter(Run(INITIAL, es).turns, t, u) <==> t < u
  {
    ThreadTurns.RunArrives(INITIAL, es);
    var started := Run(INITIAL, es).turns.started;
    assert started == Turns.Upto(|started|);
    if t < u {
      assert started[t - 1] == t && started[u - 1] == u;
    }
  }

  // ----- It does happen -----

  function Sent(p: Turns.Prompt, t: nat): seq<Event> {
    [EvBegin(p), EvStart(t)]
  }

  /** A message is sent and refused; before that is handled, a second message is sent and arrives. */
  function RefusedThenSent(a: Turns.Prompt, b: Turns.Prompt): seq<Event> {
    Sent(a, 1) + [EvFinish(1, Turns.Answered(Turns.Refusal))] + Sent(b, 2)
  }

  lemma {:induction false} SentArrives(s: Thread, p: Turns.Prompt, t: nat)
    requires p.Message? && t == s.turns.turnId + 1 && |s.turns.tasks| == |s.turns.prompts| == s.turns.turnId
    requires s.turns.running.Some? ==> Turns.Done(s.turns, s.turns.running.value)
    requires Inert(s.entries, |s.entries|)
    ensures
      var u := Run(s, Sent(p, t));
      && MoreMessage(s.entries, u.entries) && MessageOf(Last(u.entries), p)
      && u.turns == Turns.Start(Turns.Begin(s.turns, p), t) && Turns.CanStart(Turns.Begin(s.turns, p), t)
  {
    var c := Step(s, EvBegin(p));
    SendKeepsEntries(s, p);
    StartShaped(c, t);
    var u := Step(c, EvStart(t));
    assert Sent(p, t)[1..] == [EvStart(t)] && Run(c, [EvStart(t)]) == Run(u, []) == u;
  }

  /** The first message has arrived and was refused; that is not handled yet. */
  lemma {:induction false} FirstRefused(a: Turns.Prompt) returns (s: Thread)
    requires a.Message?
    ensures s == Run(INITIAL, Sent(a, 1) + [EvFinish(1, Turns.Answered(Turns.Refusal))])
    ensures s.turns == Turns.Turns(1, Some(1), [Turns.Finished(Turns.Answered(Turns.Refusal))], [a], {}, [1])
    ensures |s.entries| == 1 && MessageOf(s.entries[0], a) && Inert(s.entries, 1)
  {
    var finish := EvFinish(1, Turns.Answered(Turns.Refusal));
    var s1 := Run(INITIAL, Sent(a, 1));
    SentArrives(INITIAL, a, 1);
    s := Step(s1, finish);
    assert Run(s1, [finish]) == Run(s, []) == s;
    RunAppend(INITIAL, Sent(a, 1), [finish]);
  }

  /** The first of two messages is refused late: the second goes, and its turn runs on. */
  lemma {:induction false} LateRefusalHappens(a: Turns.Prompt, b: Turns.Prompt)
    requires a.Message? && b.Message?
    ensures
      var s := Run(INITIAL, RefusedThenSent(a, b));
      var r := Step(s, EvComplete(1));
      && |s.entries| == 2 && MessageOf(s.entries[0], a) && MessageOf(s.entries[1], b)
      && r.entries == s.entries[..1] && r.turns.running == Some(2)
  {
    var s1 := FirstRefused(a);
    RunAppend(INITIAL, Sent(a, 1) + [EvFinish(1, Turns.Answered(Turns.Refusal))], Sent(b, 2));
    SentArrives(s1, b, 2);
    var s := Run(s1, Sent(b, 2));
    assert LastUser(s.entries) == Some(1);
    CompleteTruncates(s, 1);
    ThreadTurns.StepProjects(s, EvComplete(1));
  }

  /** While the second message has not arrived, the refused one is taken. */
  lemma {:induction false} RefusalBeforeArrival(a: Turns.Prompt, b: Turns.Prompt)
    requires a.Message? && b.Message?
    ensures
      var s := Run(INITIAL, Sent(a, 1) + [EvFinish(1, Turns.Answered(Turns.Refusal))] + [EvBegin(b)]);
      && |s.entries| == 1 && MessageOf(s.entries[0], a) && s.turns.running == Some(2)
      && Step(s, EvComplete(1)).entries == []
  {
    var s1 := FirstRefused(a);
    RunAppend(INITIAL, Sent(a, 1) + [EvFinish(1, Turns.Answered(Turns.Refusal))], [EvBegin(b)]);
    SendKeepsEntries(s1, b);
    var s := Step(s1, EvBegin(b));
    assert Run(s1, [EvBegin(b)]) == Run(s, []) == s;
    assert LastUser(s.entries) == Some(0);
    CompleteTruncates(s, 1);
  }
}
