/** What the operations can do to a transcript, said once for all the invariants. */
module ThreadShapes {
  import opened Prelude
  import opened ContentBlocks
  import opened ToolCalls
  import opened ThreadModel
  import Turns

  predicate SameCall(a: Entry, b: Entry) {
    a == b || (a.Tool? && b.Tool? && a.call.id == b.call.id)
  }

  /** Calls change in place; only entries and ledger are touched. */
  ghost predicate ToolEdit(s: Thread, t: Thread) {
    && t == s.(entries := t.entries, ledger := t.ledger)
    && |t.entries| == |s.entries|
    && forall i | 0 <= i < |s.entries| :: SameCall(s.entries[i], t.entries[i])
  }

  /** A call with a new id is pushed. */
  ghost predicate ToolPush(s: Thread, t: Thread) {
    && t.entries != [] && Last(t.entries).Tool?
    && t == PushEntry(s.(ledger := t.ledger), Last(t.entries))
    && FindCall(s.entries, Last(t.entries).call.id).None?
  }

  predicate ToolEvent(e: Event) {
    e.EvUpdateTool? || e.EvUpsertTool? || e.EvRequest? || e.EvAuthorize?
  }

  lemma UpdateFieldsKeepsId(call: ToolCall, u: Update, live: set<Id>, now: nat)
    ensures UpdateFields(call, u, live, now).0.id == call.id
  {
  }

  lemma {:induction false} UpdateShape(s: Thread, u: ToolUpdate, now: nat)
    ensures ToolEdit(s, UpdateTool(s, u, now)) || ToolPush(s, UpdateTool(s, u, now))
  {
    var found := FindCall(s.entries, UpdateId(u));
    if found.Some? && u.FieldsUpdate? {
      UpdateFieldsKeepsId(s.entries[found.value].call, u.update, s.terms.live.Keys, now);
    }
  }

  lemma {:induction false} UpsertShape(s: Thread, u: Update, status: Status, now: nat)
    ensures ToolEdit(s, UpsertTool(s, u, status, now)) || ToolPush(s, UpsertTool(s, u, status, now))
  {
    var found := FindCall(s.entries, u.id);
    if found.Some? {
      UpdateFieldsKeepsId(s.entries[found.value].call, u, s.terms.live.Keys, now);
    }
  }

  lemma {:induction false} AuthorizeShape(s: Thread, id: Id, choice: Choice)
    ensures ToolEdit(s, Authorize(s, id, choice))
  {
  }

  lemma {:induction false} ToolEventShape(s: Thread, e: Event)
    requires ToolEvent(e)
    ensures ToolEdit(s, Step(s, e)) || ToolPush(s, Step(s, e))
  {
    match e
    case EvUpdateTool(u, now) => UpdateShape(s, u, now);
    case EvUpsertTool(u, status, now) =>
      UpsertShape(s, u.(fields := u.fields.(status := Some(status))), FromAcp(status), now);
    case EvRequest(u, now) =>
      UpsertShape(Issue(s), u, Waiting(s.ledger.issued), now);
    case EvAuthorize(id, choice) => AuthorizeShape(s, id, choice);
  }

  // ----- Messages -----

  /** The transcripts differ at most in the message at `i`. */
  predicate OneMessage(a: seq<Entry>, b: seq<Entry>, i: int) {
    |a| == |b| && 0 <= i < |a| && !a[i].Tool? && !b[i].Tool? && b == a[i := b[i]]
  }

  /** The transcripts differ by a message at the end. */
  predicate MoreMessage(a: seq<Entry>, b: seq<Entry>) {
    b != [] && !Last(b).Tool? && b == a + [Last(b)]
  }

  /** A message is added or changed; calls stay as they are. */
  ghost predicate MessageEdit(a: seq<Entry>, b: seq<Entry>) {
    b == a || MoreMessage(a, b) || exists i :: OneMessage(a, b, i)
  }

  predicate MessageEvent(e: Event) {
    e.EvUserChunk? || e.EvPushUser? || e.EvPushMessage? || e.EvAssistant? || e.EvSnapshotPlan? || e.EvStart?
      || e.EvMarkSubagent?
  }

  lemma {:induction false} TailShape(
    s: Thread, texts: Store, block: Block, thought: bool, indented: bool, subagent: Option<Id>)
    ensures
      var t := SetTail(s, texts, block, thought, indented, subagent);
      t.ledger == s.ledger
      && if Joins(s.entries, indented, subagent) then OneMessage(s.entries, t.entries, |s.entries| - 1)
         else MoreMessage(s.entries, t.entries)
  {
  }

  lemma {:induction false} AssistantShape(
    s: Thread, cb: ContentBlock, thought: bool, indented: bool, subagent: Option<Id>)
    ensures
      var t := PushAssistant(s, cb, thought, indented, subagent);
      t.ledger == s.ledger && MessageEdit(s.entries, t.entries)
  {
    if !(cb.TextBlock? && Streams(s.entries, thought, indented, subagent)) {
      var f := if Joins(s.entries, indented, subagent) then Flush(s) else s;
      var (texts, block) := Append(f.texts, TailBlock(f.entries, thought, indented, subagent), cb);
      TailShape(f, texts, block, thought, indented, subagent);
    }
  }

  lemma {:induction false} UserShape(s: Thread, id: Option<Id>, cb: ContentBlock, indented: bool)
    ensures
      var t := PushUser(s, id, cb, indented);
      t.ledger == s.ledger && MessageEdit(s.entries, t.entries)
  {
    var t := PushUser(s, id, cb, indented);
    if |t.entries| == |s.entries| {
      assert OneMessage(s.entries, t.entries, |s.entries| - 1);
    } else {
      assert MoreMessage(s.entries, t.entries);
    }
  }

  lemma {:induction false} SnapshotShape(s: Thread)
    ensures SnapshotPlan(s).ledger == s.ledger
    ensures SnapshotPlan(s).entries == s.entries
      || (MoreMessage(s.entries, SnapshotPlan(s).entries) && Last(SnapshotPlan(s).entries).CompletedPlan?)
  {
  }

  lemma {:induction false} MessageShape(s: Thread, e: Event)
    requires MessageEvent(e)
    ensures Step(s, e).ledger == s.ledger && MessageEdit(s.entries, Step(s, e).entries)
  {
    match e
    case EvAssistant(cb, thought, indented, subagent) => AssistantShape(s, cb, thought, indented, subagent);
    case EvUserChunk(cb) => UserShape(s, None, cb, false);
    case EvPushUser(id, cb, indented) => UserShape(s, id, cb, indented);
    case EvMarkSubagent =>
      var i := LastAssistant(s.entries);
      if i.Some? {
        assert OneMessage(s.entries, MarkSubagent(s).entries, i.value);
      }
    case _ =>
  }

  // ----- Refusals -----

  /** No call after the last user message has completed with output. */
  predicate NothingCompleted(es: seq<Entry>) {
    LastUser(es).Some? ==> !AnyCompleted(es, LastUser(es).value + 1)
  }

  lemma {:induction false} RefuseCuts(s: Thread)
    ensures
      Refuse(s).entries
      == if LastUser(s.entries).Some? && NothingCompleted(s.entries) then s.entries[..LastUser(s.entries).value]
         else s.entries
  {
  }

  /** An entry that is neither a user message nor a call makes no difference. */
  lemma {:induction false} PlanAtEnd(es: seq<Entry>, e: Entry)
    requires e.CompletedPlan?
    ensures LastUser(es + [e]) == LastUser(es) && NothingCompleted(es + [e]) == NothingCompleted(es)
  {
    assert Init(es + [e]) == es;
    if LastUser(es).Some? {
      var start := LastUser(es).value + 1;
      assert forall i | start <= i < |es| :: CompletedWithOutput((es + [e])[i]) == CompletedWithOutput(es[i]);
      if AnyCompleted(es, start) {
        var i :| start <= i < |es| && CompletedWithOutput(es[i]);
        assert CompletedWithOutput((es + [e])[i]);
      }
    }
  }

  /** A refusal truncates at the last user message, or leaves every entry where it is. */
  lemma {:induction false} RefuseTruncates(s: Thread)
    ensures
      var r := HandleResponse(s, Turns.Answered(Turns.Refusal)).entries;
      if LastUser(s.entries).Some? && NothingCompleted(s.entries) then r == s.entries[..LastUser(s.entries).value]
      else s.entries <= r
  {
    var c := SnapshotPlan(s);
    SnapshotShape(s);
    if c.entries != s.entries {
      PlanAtEnd(s.entries, Last(c.entries));
    }
    RefuseCuts(c);
  }

  // ----- What stays out of it -----

  /** Neither turns nor terminals are touched. */
  predicate Undisturbed(s: Thread, t: Thread) {
    t.turns == s.turns && t.terms == s.terms
  }

  lemma {:induction false} HandledFrame(s: Thread, r: Turns.Response)
    ensures Undisturbed(s, HandleResponse(s, r))
  {
  }

  lemma {:induction false} CompleteFrame(s: Thread, t: nat)
    ensures Undisturbed(s.(turns := Turns.Complete(s.turns, t)), CompleteTurn(s, t))
  {
    if Turns.Outcome(s.turns, t).Some? {
      HandledFrame(Flush(s.(turns := Turns.Complete(s.turns, t))), Turns.Outcome(s.turns, t).value);
    }
  }

  lemma {:induction false} CancelFrame(s: Thread)
    ensures Undisturbed(s, CancelEffects(s))
  {
  }

  lemma {:induction false} PlaceFrame(s: Thread, cb: ContentBlock, thought: bool, indented: bool, subagent: Option<Id>)
    ensures Undisturbed(s, Place(s, cb, thought, indented, subagent))
  {
  }

  lemma {:induction false} AssistantFrame(
    s: Thread, cb: ContentBlock, thought: bool, indented: bool, subagent: Option<Id>)
    ensures Undisturbed(s, PushAssistant(s, cb, thought, indented, subagent))
  {
    if !(cb.TextBlock? && Streams(s.entries, thought, indented, subagent)) {
      PlaceFrame(if Joins(s.entries, indented, subagent) then Flush(s) else s, cb, thought, indented, subagent);
    }
  }

  lemma {:induction false} UserFrame(s: Thread, id: Option<Id>, cb: ContentBlock, indented: bool)
    ensures Undisturbed(s, PushUser(s, id, cb, indented))
  {
  }

  lemma {:induction false} MessageFrame(s: Thread, e: Event)
    requires MessageEvent(e)
    ensures Undisturbed(s.(turns := Step(s, e).turns), Step(s, e)) && (!e.EvStart? ==> Undisturbed(s, Step(s, e)))
  {
    match e
    case EvAssistant(cb, thought, indented, subagent) => AssistantFrame(s, cb, thought, indented, subagent);
    case EvUserChunk(cb) => UserFrame(s, None, cb, false);
    case EvPushUser(id, cb, indented) => UserFrame(s, id, cb, indented);
    case _ =>
  }

  /** Events that are about turns or terminals. */
  predicate TurnEvent(e: Event) {
    e.EvBegin? || e.EvFinish? || e.EvComplete? || e.EvCancel? || e.EvDrop?
  }

  lemma {:induction false} TurnFrame(s: Thread, e: Event)
    requires TurnEvent(e)
    ensures Step(s, e).terms == s.terms
  {
    match e
    case EvComplete(t) => CompleteFrame(s, t);
    case EvBegin(_) => CancelFrame(s.(plan := Unfinished(s.plan), hadError := false));
    case EvCancel => CancelFrame(s);
    case _ =>
  }
}
