/** Refusals: when truncating at the last user message is an exact rollback of the turn. */
module Refusal {
  import opened Prelude
  import opened Utf8
  import opened ContentBlocks
  import opened ToolCalls
  import opened ThreadModel
  import opened ThreadShapes
  import opened Streaming
  import ThreadTurns
  import ToolHistories
  import Turns

  // ----- What a turn may do -----

  predicate Inert(es: seq<Entry>, n: nat)
    requires n <= |es|
  {
    forall i | 0 <= i < n :: CancelEntry(es[i]) == es[i]
  }

  /** The event adds no second user message after entry `n` and touches no entry before it. */
  predicate Within(s: Thread, e: Event, n: nat)
    requires n < |s.entries|
  {
    match e
    case EvUserChunk(_) => |s.entries| == n + 1 && s.entries[n].User? && !s.entries[n].indented
    case EvPushUser(_, _, indented) => |s.entries| == n + 1 && s.entries[n].User? && s.entries[n].indented == indented
    case EvPushMessage(_, cbs) => cbs == []
    case EvUpdateTool(_, _) => forall i | 0 <= i < n :: !IsCall(s.entries[i], ToolHistories.Target(e))
    case EvUpsertTool(_, _, _) => forall i | 0 <= i < n :: !IsCall(s.entries[i], ToolHistories.Target(e))
    case EvRequest(_, _) => forall i | 0 <= i < n :: !IsCall(s.entries[i], ToolHistories.Target(e))
    case EvAuthorize(_, _) => forall i | 0 <= i < n :: !IsCall(s.entries[i], ToolHistories.Target(e))
    case EvBegin(_) => Inert(s.entries, n)
    case EvCancel => Inert(s.entries, n)
    case EvStart(t) => Turns.CanStart(s.turns, t) ==> s.turns.prompts[t - 1].Retry?
    case EvComplete(t) =>
      var r := Turns.Outcome(s.turns, t);
      r != Some(Turns.Answered(Turns.Refusal)) && (r == Some(Turns.Answered(Turns.Cancelled)) ==> Inert(s.entries, n))
    case EvRewindEnd(id) => FindUser(s.entries, id).None?
    case EvMarkSubagent => LastAssistant(s.entries).Some? ==> n < LastAssistant(s.entries).value
    case _ => true
  }

  // ----- What a turn leaves alone -----

  /** `s` is `o`, then a user message, then anything but user messages; the texts of `o` are what they were. */
  ghost predicate Since(s: Thread, o: Thread) {
    var n, m := |o.entries|, |o.texts|;
    && n < |s.entries| && s.entries[..n] == o.entries
    && s.entries[n].User? && (forall j | n < j < |s.entries| :: !s.entries[j].User?)
    && m <= |s.texts| && s.texts[..m] == o.texts
    && (forall j, k | n <= j < |s.entries| && 0 <= k < Slots(s.entries[j]) && Slot(s.entries[j], k).Markdown? ::
      m <= Slot(s.entries[j], k).id)
    && (s.buffer.Some? ==> m <= s.buffer.value.target)
  }

  lemma {:induction false} TextsSince(store: Store, m: nat, b: BlockId, text: Text)
    requires m <= |store| && m <= b
    ensures m <= |AppendText(store, b, text)| && AppendText(store, b, text)[..m] == store[..m]
  {
  }

  lemma {:induction false} FlushSince(s: Thread, o: Thread)
    requires Since(s, o)
    ensures Since(Flush(s), o)
  {
    if s.buffer.Some? {
      TextsSince(s.texts, |o.texts|, s.buffer.value.target, s.buffer.value.pending);
    }
  }

  lemma {:induction false} TickSince(s: Thread, o: Thread)
    requires Since(s, o)
    ensures Since(Tick(s), o)
  {
    if s.buffer.Some? && s.buffer.value.pending != [] {
      var b := s.buffer.value;
      TextsSince(s.texts, |o.texts|, b.target, b.pending[..Ceil(b.pending, b.perTick)]);
    }
  }

  predicate NewBlocks(e: Entry, m: nat) {
    forall k | 0 <= k < Slots(e) && Slot(e, k).Markdown? :: m <= Slot(e, k).id
  }

  /** Something that is no user message is pushed. */
  lemma {:induction false} PushSince(s: Thread, e: Entry, o: Thread)
    requires Since(s, o) && !e.User? && NewBlocks(e, |o.texts|)
    ensures Since(PushEntry(s, e), o)
  {
    FlushSince(s, o);
    var f, t := Flush(s), PushEntry(s, e);
    assert t.entries[..|o.entries|] == f.entries[..|o.entries|];
  }

  /** The last entry is replaced by one of its kind. */
  lemma {:induction false} SetLastSince(s: Thread, e: Entry, o: Thread)
    requires Since(s, o) && Last(s.entries).User? == e.User? && NewBlocks(e, |o.texts|)
    ensures Since(s.(entries := SetLast(s.entries, e)), o)
  {
    var t := SetLast(s.entries, e);
    assert t[..|o.entries|] == s.entries[..|o.entries|];
  }

  lemma {:induction false} AppendSince(store: Store, m: nat, block: Block, cb: ContentBlock)
    requires m <= |store| && (block.Markdown? ==> m <= block.id)
    ensures
      var (store', block') := Append(store, block, cb);
      m <= |store'| && store'[..m] == store[..m] && (block'.Markdown? ==> m <= block'.id)
  {
    if block.Markdown? {
      TextsSince(store, m, block.id, Rendered(cb));
    }
  }

  lemma {:induction false} PlaceSince(
    s: Thread, cb: ContentBlock, thought: bool, indented: bool, subagent: Option<Id>, o: Thread)
    requires Since(s, o)
    ensures Since(Place(s, cb, thought, indented, subagent), o)
  {
    var tail := TailBlock(s.entries, thought, indented, subagent);
    if Continues(s.entries, thought, indented, subagent) {
      assert Slot(s.entries[|s.entries| - 1], |Last(s.entries).parts| - 1) == tail;
    }
    AppendSince(s.texts, |o.texts|, tail, cb);
    var (texts, block) := Append(s.texts, tail, cb);
    var u := s.(texts := texts);
    if Joins(s.entries, indented, subagent) {
      var d := Last(s.entries);
      var kept := if Continues(s.entries, thought, indented, subagent) then Init(d.parts) else d.parts;
      var e := d.(parts := kept + [Part(thought, block)]);
      assert forall k | 0 <= k < |kept| :: Slot(e, k) == Slot(s.entries[|s.entries| - 1], k);
      SetLastSince(u, e, o);
    } else {
      PushSince(u, Assistant([Part(thought, block)], indented, false, subagent), o);
    }
  }

  lemma {:induction false} AssistantSince(
    s: Thread, cb: ContentBlock, thought: bool, indented: bool, subagent: Option<Id>, o: Thread)
    requires Since(s, o)
    ensures Since(PushAssistant(s, cb, thought, indented, subagent), o)
  {
    FlushSince(s, o);
    if cb.TextBlock? && Streams(s.entries, thought, indented, subagent) {
      assert Slot(s.entries[|s.entries| - 1], |Last(s.entries).parts| - 1).Markdown?;
    } else if Joins(s.entries, indented, subagent) {
      PlaceSince(Flush(s), cb, thought, indented, subagent, o);
    } else {
      PlaceSince(s, cb, thought, indented, subagent, o);
    }
  }

  /** A user chunk that continues the turn's own message. */
  lemma {:induction false} UserSince(s: Thread, id: Option<Id>, cb: ContentBlock, indented: bool, o: Thread)
    requires Since(s, o) && |s.entries| == |o.entries| + 1 && Last(s.entries).indented == indented
    ensures Since(PushUser(s, id, cb, indented), o)
  {
    FlushSince(s, o);
    var f := Flush(s);
    var d := Last(f.entries);
    assert Slot(f.entries[|f.entries| - 1], 0) == d.content;
    AppendSince(f.texts, |o.texts|, d.content, cb);
    var (texts, block) := Append(f.texts, d.content, cb);
    SetLastSince(f.(texts := texts), User(if id.Some? then id else d.id, block, d.chunks + [cb], indented), o);
  }

  /** Entries change in place, none of them before the turn, and none in its text. */
  lemma {:induction false} EditSince(s: Thread, t: Thread, o: Thread)
    requires Since(s, o) && t.texts == s.texts && t.buffer == s.buffer && |t.entries| == |s.entries|
    requires forall i | 0 <= i < |o.entries| :: t.entries[i] == s.entries[i]
    requires forall i | |o.entries| <= i < |s.entries| ::
      SameSlots(s.entries[i], t.entries[i]) && s.entries[i].User? == t.entries[i].User?
    ensures Since(t, o)
  {
    assert t.entries[..|o.entries|] == s.entries[..|o.entries|];
    forall j, k | |o.entries| <= j < |t.entries| && 0 <= k < Slots(t.entries[j]) && Slot(t.entries[j], k).Markdown?
      ensures |o.texts| <= Slot(t.entries[j], k).id
    {
      assert Slot(s.entries[j], k) == Slot(t.entries[j], k);
    }
  }

  lemma {:induction false} UpdateUntouched(s: Thread, u: ToolUpdate, now: nat, i: nat)
    requires i < |s.entries| && !IsCall(s.entries[i], UpdateId(u))
    ensures var t := UpdateTool(s, u, now); i < |t.entries| && t.entries[i] == s.entries[i]
  {
  }

  lemma {:induction false} UpsertUntouched(s: Thread, u: Update, status: Status, now: nat, i: nat)
    requires i < |s.entries| && !IsCall(s.entries[i], u.id)
    ensures var t := UpsertTool(s, u, status, now); i < |t.entries| && t.entries[i] == s.entries[i]
  {
  }

  /** A tool event leaves every call alone that it does not name. */
  lemma {:induction false} OthersUntouched(s: Thread, e: Event, i: nat)
    requires ToolEvent(e) && i < |s.entries| && !IsCall(s.entries[i], ToolHistories.Target(e))
    ensures i < |Step(s, e).entries| && Step(s, e).entries[i] == s.entries[i]
  {
    match e
    case EvUpdateTool(u, now) => UpdateUntouched(s, u, now, i);
    case EvUpsertTool(u, status, now) =>
      UpsertUntouched(s, u.(fields := u.fields.(status := Some(status))), FromAcp(status), now, i);
    case EvRequest(u, now) => UpsertUntouched(Issue(s), u, Waiting(s.ledger.issued), now, i);
    case EvAuthorize(_, _) =>
  }

  lemma {:induction false} ToolShapeSince(s: Thread, t: Thread, o: Thread)
    requires Since(s, o) && (ToolEdit(s, t) || ToolPush(s, t))
    requires forall i | 0 <= i < |o.entries| && i < |t.entries| :: t.entries[i] == s.entries[i]
    ensures Since(t, o)
  {
    if ToolEdit(s, t) {
      EditSince(s, t, o);
    } else {
      PushSince(s.(ledger := t.ledger), Last(t.entries), o);
    }
  }

  lemma {:induction false} ToolSince(s: Thread, e: Event, o: Thread)
    requires ToolEvent(e) && Since(s, o) && Within(s, e, |o.entries|)
    ensures Since(Step(s, e), o)
  {
    var t := Step(s, e);
    ToolEventShape(s, e);
    forall i | 0 <= i < |o.entries|
      ensures i < |t.entries| && t.entries[i] == s.entries[i]
    {
      OthersUntouched(s, e, i);
    }
    ToolShapeSince(s, t, o);
  }

  lemma {:induction false} CanceledSince(s: Thread, o: Thread)
    requires Since(s, o) && Inert(s.entries, |o.entries|)
    ensures Since(MarkCanceled(s), o)
  {
    EditSince(s, MarkCanceled(s), o);
  }

  lemma {:induction false} CancelSince(s: Thread, o: Thread)
    requires Since(s, o) && Inert(s.entries, |o.entries|)
    ensures Since(CancelEffects(s), o)
  {
    FlushSince(s, o);
    CanceledSince(Flush(s), o);
  }

  lemma {:induction false} SnapshotSince(s: Thread, o: Thread)
    requires Since(s, o)
    ensures Since(SnapshotPlan(s), o)
  {
    if s.plan != [] && !StillPending(s.plan) {
      PushSince(s.(plan := []), CompletedPlan(s.plan), o);
    }
  }

  lemma {:induction false} HandledSince(s: Thread, r: Turns.Response, o: Thread)
    requires Since(s, o) && r != Turns.Answered(Turns.Refusal)
      && (r == Turns.Answered(Turns.Cancelled) ==> Inert(s.entries, |o.entries|))
    ensures Since(HandleResponse(s, r), o)
  {
    match r
    case Answered(Cancelled) => CanceledSince(s, o);
    case Answered(MaxTokens) =>
    case Answered(_) => SnapshotSince(s, o);
    case Failure =>
  }

  lemma {:induction false} CompleteSince(s: Thread, t: nat, o: Thread)
    requires Since(s, o) && Within(s, EvComplete(t), |o.entries|)
    ensures Since(CompleteTurn(s, t), o)
  {
    var c := s.(turns := Turns.Complete(s.turns, t));
    FlushSince(c, o);
    if Turns.Outcome(s.turns, t).Some? {
      HandledSince(Flush(c), Turns.Outcome(s.turns, t).value, o);
    }
  }

  lemma {:induction false} MarkSince(s: Thread, o: Thread)
    requires Since(s, o) && Within(s, EvMarkSubagent, |o.entries|)
    ensures Since(MarkSubagent(s), o)
  {
    EditSince(s, MarkSubagent(s), o);
  }

  lemma {:induction false} MessageSince(s: Thread, e: Event, o: Thread)
    requires MessageEvent(e) && Since(s, o) && Within(s, e, |o.entries|)
    ensures Since(Step(s, e), o)
  {
    match e
    case EvUserChunk(cb) => UserSince(s, None, cb, false, o);
    case EvPushUser(id, cb, indented) => UserSince(s, id, cb, indented, o);
    case EvAssistant(cb, thought, indented, subagent) => AssistantSince(s, cb, thought, indented, subagent, o);
    case EvMarkSubagent => MarkSince(s, o);
    case EvSnapshotPlan => SnapshotSince(s, o);
    case _ =>
  }

  lemma {:induction false} OtherSince(s: Thread, e: Event, o: Thread)
    requires !ToolEvent(e) && !MessageEvent(e) && Since(s, o) && Within(s, e, |o.entries|)
    ensures Since(Step(s, e), o)
  {
    match e
    case EvTick => TickSince(s, o);
    case EvBegin(_) => CancelSince(s.(plan := Unfinished(s.plan), hadError := false), o);
    case EvCancel => CancelSince(s, o);
    case EvComplete(t) => CompleteSince(s, t, o);
    case EvRewindBegin => FlushSince(s, o);
    case _ =>
  }

  lemma {:induction false} StepSince(s: Thread, e: Event, o: Thread)
    requires Since(s, o) && Within(s, e, |o.entries|)
    ensures Since(Step(s, e), o)
  {
    if ToolEvent(e) {
      ToolSince(s, e, o);
    } else if MessageEvent(e) {
      MessageSince(s, e, o);
    } else {
      OtherSince(s, e, o);
    }
  }

  /** Every event of the turn stays within it. */
  ghost predicate AllWithin(s: Thread, es: seq<Event>, n: nat)
    decreases |es|
  {
    es == [] || (n < |s.entries| && Within(s, es[0], n) && AllWithin(Step(s, es[0]), es[1..], n))
  }

  lemma {:induction false} RunSince(s: Thread, es: seq<Event>, o: Thread)
    requires Since(s, o) && AllWithin(s, es, |o.entries|)
    ensures Since(Run(s, es), o)
    decreases |es|
  {
    if es != [] {
      StepSince(s, es[0], o);
      RunSince(Step(s, es[0]), es[1..], o);
    }
  }

  // ----- The rollback -----

  lemma {:induction false} CombinedSince(store: Store, m: nat, block: Block, cbs: seq<ContentBlock>)
    requires m <= |store| && (block.Markdown? ==> m <= block.id)
    ensures
      var (store', block') := Combined(store, block, cbs);
      m <= |store'| && store'[..m] == store[..m] && (block'.Markdown? ==> m <= block'.id)
    decreases |cbs|
  {
    if cbs != [] {
      AppendSince(store, m, block, cbs[0]);
      var (store', block') := Append(store, block, cbs[0]);
      CombinedSince(store', m, block', cbs[1..]);
    }
  }

  /** Right after its message was pushed, a turn has done nothing else. */
  lemma {:induction false} StartSince(s: Thread, t: nat)
    requires Anchored(s) && Turns.CanStart(s.turns, t) && s.turns.prompts[t - 1].Message?
    ensures Since(StartTurn(s, t), Flush(s))
  {
    var p := s.turns.prompts[t - 1];
    var o := Flush(s);
    var c := s.(turns := Turns.Start(s.turns, t));
    MessageRefines(c, Some(p.id), p.blocks);
    assert PushMessage(c, Some(p.id), p.blocks).buffer.None?;
    CombinedSince(o.texts, |o.texts|, Empty, p.blocks);
    var u := PushMessage(Flush(c), Some(p.id), p.blocks);
    assert StartTurn(s, t) == u;
    assert u.entries[..|o.entries|] == o.entries;
  }

  lemma {:induction false} RefuseSince(s: Thread, o: Thread)
    requires Since(s, o) && s.buffer.None?
    ensures
      var r := HandleResponse(s, Turns.Answered(Turns.Refusal));
      && (r.entries == o.entries <==> !AnyCompleted(s.entries, |o.entries| + 1))
      && r.buffer.None? && |o.texts| <= |r.texts| && r.texts[..|o.texts|] == o.texts
  {
    var n := |o.entries|;
    var c := SnapshotPlan(s);
    SnapshotShape(s);
    SnapshotSince(s, o);
    assert LastUser(c.entries) == Some(n);
    assert AnyCompleted(c.entries, n + 1) == AnyCompleted(s.entries, n + 1) by {
      if AnyCompleted(s.entries, n + 1) {
        var i :| n + 1 <= i < |s.entries| && CompletedWithOutput(s.entries[i]);
        assert CompletedWithOutput(c.entries[i]);
      }
    }
  }

  lemma {:induction false} CompleteRefused(s: Thread, refused: nat, o: Thread)
    requires Since(s, o) && Turns.Outcome(s.turns, refused) == Some(Turns.Answered(Turns.Refusal))
    ensures
      var r := CompleteTurn(s, refused);
      && (r.entries == o.entries <==> !AnyCompleted(s.entries, |o.entries| + 1))
      && r.buffer.None? && |o.texts| <= |r.texts| && r.texts[..|o.texts|] == o.texts
  {
    var c := s.(turns := Turns.Complete(s.turns, refused));
    FlushSince(c, o);
    RefuseSince(Flush(c), o);
  }

  /**
    A message is sent, its turn does whatever it likes as long as it sends no
    second one and leaves older calls alone, and then some turn is refused. The
    transcript is exactly what it was before the message, unless a call of the
    turn has completed with output. The texts of the older messages are in any
    case what they were.
   */
  lemma {:induction false} RefusalRollsBack(
    before: seq<Event>, s: Thread, t: nat, es: seq<Event>, u: Thread, refused: nat)
    requires s == Run(INITIAL, before) && Turns.CanStart(s.turns, t) && s.turns.prompts[t - 1].Message?
    requires u == Run(StartTurn(s, t), es) && AllWithin(StartTurn(s, t), es, |s.entries|)
    requires Turns.Outcome(u.turns, refused) == Some(Turns.Answered(Turns.Refusal))
    ensures
      var r := Step(u, EvComplete(refused));
      && (r.entries == s.entries <==> !AnyCompleted(u.entries, |s.entries| + 1))
      && r.buffer.None? && |Flush(s).texts| <= |r.texts| && r.texts[..|Flush(s).texts|] == Flush(s).texts
  {
    RunRefines(INITIAL, before);
    StartSince(s, t);
    RunSince(StartTurn(s, t), es, Flush(s));
    CompleteRefused(u, refused, Flush(s));
  }

  /** The send itself changes no entry when no turn is running, or no call is open. */
  lemma {:induction false} SendKeepsEntries(s: Thread, p: Turns.Prompt)
    requires s.turns.running.None? || Inert(s.entries, |s.entries|)
    ensures Step(s, EvBegin(p)).entries == s.entries && Step(s, EvBegin(p)).turns == Turns.Begin(s.turns, p)
  {
    assert s.turns.running.Some? ==> CancelEntries(s.entries) == s.entries;
  }

  /**
    Counted from the send: when nothing is cancelled by it and the body starts next, a
    refusal brings back the transcript as it was before the send, under the same condition.
   */
  lemma {:induction false} RefusalUndoesSend(
    before: seq<Event>, s: Thread, p: Turns.Prompt, b: Thread, es: seq<Event>, u: Thread, refused: nat)
    requires s == Run(INITIAL, before) && (s.turns.running.None? || Inert(s.entries, |s.entries|))
    requires p.Message? && b == Step(s, EvBegin(p)) && Turns.CanStart(b.turns, b.turns.turnId)
    requires u == Run(StartTurn(b, b.turns.turnId), es) && AllWithin(StartTurn(b, b.turns.turnId), es, |s.entries|)
    requires Turns.Outcome(u.turns, refused) == Some(Turns.Answered(Turns.Refusal))
    ensures Step(u, EvComplete(refused)).entries == s.entries <==> !AnyCompleted(u.entries, |s.entries| + 1)
  {
    SendKeepsEntries(s, p);
    RunLast(INITIAL, before, EvBegin(p));
    ThreadTurns.RunProjects(INITIAL, before);
    Turns.RunningTurnIsNewest(Turns.INITIAL, ThreadTurns.Asyncs(before));
    RefusalRollsBack(before + [EvBegin(p)], b, b.turns.turnId, es, u, refused);
  }
}
