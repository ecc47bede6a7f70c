/**
  Permission answers are linear. For every request, the calls waiting for it and
  the answers given to it are together one if it was issued and none otherwise,
  in every run.
 */
module Permissions {
  import opened Prelude
  import opened ContentBlocks
  import opened ToolCalls
  import opened ThreadModel
  import opened ThreadShapes
  import Turns

  predicate Waits(e: Entry, request: nat) {
    e.Tool? && e.call.status == Waiting(request)
  }

  function One(b: bool): nat {
    if b then 1 else 0
  }

  /** How many entries own the sender of the request. */
  function Held(es: seq<Entry>, request: nat): nat {
    if es == [] then 0 else Held(Init(es), request) + One(Waits(Last(es), request))
  }

  /** How often the request was answered. */
  function Count(log: seq<(nat, Answer)>, request: nat): nat {
    if log == [] then 0 else Count(Init(log), request) + One(Last(log).0 == request)
  }

  predicate Linear(s: Thread, request: nat) {
    Held(s.entries, request) + Count(s.ledger.answers, request) == One(request < s.ledger.issued)
  }

  // ----- Counting -----

  lemma {:induction false} CountAppend(a: seq<(nat, Answer)>, b: seq<(nat, Answer)>, r: nat)
    ensures Count(a + b, r) == Count(a, r) + Count(b, r)
  {
    if b == [] {
      assert a + b == a;
    } else {
      assert Init(a + b) == a + Init(b);
      CountAppend(a, Init(b), r);
    }
  }

  lemma {:induction false} CountOne(answer: (nat, Answer), r: nat)
    ensures Count([answer], r) == One(answer.0 == r)
  {
    assert Init([answer]) == [];
  }

  lemma {:induction false} CountRetired(status: Status, r: nat)
    ensures Count(Retire(status), r) == One(status == Waiting(r))
  {
    if status.Waiting? {
      CountOne((status.tx, Unanswered), r);
    }
  }

  lemma {:induction false} HeldAppend(a: seq<Entry>, b: seq<Entry>, r: nat)
    ensures Held(a + b, r) == Held(a, r) + Held(b, r)
  {
    if b == [] {
      assert a + b == a;
    } else {
      assert Init(a + b) == a + Init(b);
      HeldAppend(a, Init(b), r);
    }
  }

  lemma {:induction false} HeldPush(es: seq<Entry>, e: Entry, r: nat)
    ensures Held(es + [e], r) == Held(es, r) + One(Waits(e, r))
  {
    assert Init(es + [e]) == es;
  }

  lemma {:induction false} HeldReplaced(es: seq<Entry>, i: nat, e: Entry, r: nat)
    requires i < |es|
    ensures Held(es[i := e], r) + One(Waits(es[i], r)) == Held(es, r) + One(Waits(e, r))
  {
    if i == |es| - 1 {
      assert Init(es[i := e]) == Init(es);
    } else {
      assert Init(es[i := e]) == Init(es)[i := e];
      HeldReplaced(Init(es), i, e, r);
    }
  }

  lemma {:induction false} CountRetiredAll(es: seq<Entry>, r: nat)
    ensures Count(RetireAll(es), r) == Held(es, r)
  {
    if es != [] {
      CountRetiredAll(Init(es), r);
      if Last(es).Tool? {
        CountAppend(RetireAll(Init(es)), Retire(Last(es).call.status), r);
        CountRetired(Last(es).call.status, r);
      } else {
        assert RetireAll(es) == RetireAll(Init(es));
      }
    }
  }

  lemma {:induction false} CanceledHoldNothing(es: seq<Entry>, r: nat)
    ensures Held(CancelEntries(es), r) == 0
  {
    if es != [] {
      assert Init(CancelEntries(es)) == CancelEntries(Init(es));
      CanceledHoldNothing(Init(es), r);
    }
  }

  // ----- Every operation is linear -----

  lemma {:induction false} PushLinear(s: Thread, e: Entry, issued: nat, r: nat)
    requires Linear(s, r) && One(r < issued) == One(r < s.ledger.issued) + One(Waits(e, r))
    ensures Linear(PushEntry(s.(ledger := s.ledger.(issued := issued)), e), r)
  {
    HeldPush(s.entries, e, r);
  }

  /** An entry is replaced, and the books balance: what it lost is logged, what it gained was just issued. */
  lemma {:induction false} ReplaceLinear(s: Thread, i: nat, e: Entry, log: seq<(nat, Answer)>, issued: nat, r: nat)
    requires Linear(s, r) && i < |s.entries|
    requires One(r < issued) + One(Waits(s.entries[i], r))
      == One(r < s.ledger.issued) + One(Waits(e, r)) + Count(log, r)
    ensures Linear(s.(entries := s.entries[i := e], ledger := Ledger(issued, s.ledger.answers + log)), r)
  {
    HeldReplaced(s.entries, i, e, r);
    CountAppend(s.ledger.answers, log, r);
  }

  lemma {:induction false} TruncateLinear(s: Thread, n: nat, r: nat)
    requires Linear(s, r) && n <= |s.entries|
    ensures Linear(TruncateEntries(s, n), r)
  {
    assert s.entries == s.entries[..n] + s.entries[n..];
    HeldAppend(s.entries[..n], s.entries[n..], r);
    CountAppend(s.ledger.answers, RetireAll(s.entries[n..]), r);
    CountRetiredAll(s.entries[n..], r);
  }

  lemma {:induction false} CanceledLinear(s: Thread, r: nat)
    requires Linear(s, r)
    ensures Linear(MarkCanceled(s), r)
  {
    CanceledHoldNothing(s.entries, r);
    CountAppend(s.ledger.answers, RetireAll(s.entries), r);
    CountRetiredAll(s.entries, r);
  }

  lemma StatusUpdated(call: ToolCall, u: Update, live: set<Id>, now: nat)
    ensures UpdateFields(call, u, live, now).0.status
         == if u.fields.status.Some? then FromAcp(u.fields.status.value) else call.status
  {
  }

  lemma {:induction false} UpdateLinear(s: Thread, u: ToolUpdate, now: nat, r: nat)
    requires Linear(s, r)
    ensures Linear(UpdateTool(s, u, now), r)
  {
    assert s.ledger == Ledger(s.ledger.issued, s.ledger.answers + []);
    match FindCall(s.entries, UpdateId(u))
    case None =>
      PushLinear(s, Tool(NotFound(UpdateId(u), NOT_FOUND)), s.ledger.issued, r);
    case Some(ix) =>
      var call := s.entries[ix].call;
      match u
      case FieldsUpdate(update) =>
        StatusUpdated(call, update, s.terms.live.Keys, now);
        CountRetired(call.status, r);
        var log := if update.fields.status.Some? then Retire(call.status) else [];
        ReplaceLinear(s, ix, Tool(UpdateFields(call, update, s.terms.live.Keys, now).0), log, s.ledger.issued, r);
      case ContentUpdate(_, content) =>
        ReplaceLinear(s, ix, Tool(call.(content := [content])), [], s.ledger.issued, r);
  }

  /** `t` is `s` with `status` about to be placed: it owns no sender, or that of the request just issued. */
  predicate Placing(s: Thread, t: Thread, status: Status, r: nat) {
    && t == s.(ledger := s.ledger.(issued := t.ledger.issued))
    && One(r < t.ledger.issued) == One(r < s.ledger.issued) + One(status == Waiting(r))
  }

  lemma {:induction false} PlacedLinear(s: Thread, t: Thread, ix: nat, call: ToolCall, status: Status, r: nat)
    requires Linear(s, r) && Placing(s, t, status, r) && ix < |s.entries| && s.entries[ix].Tool?
      && call.status == status
    ensures
      var log := Log(t.ledger, Retire(s.entries[ix].call.status));
      Linear(t.(entries := t.entries[ix := Tool(call)], ledger := log), r)
  {
    CountRetired(s.entries[ix].call.status, r);
    ReplaceLinear(s, ix, Tool(call), Retire(s.entries[ix].call.status), t.ledger.issued, r);
  }

  /** The update failed: the new status is dropped, and the old one too if the update replaced it. */
  lemma {:induction false} FailedLinear(
    s: Thread, t: Thread, ix: nat, call: ToolCall, replaced: bool, status: Status, r: nat)
    requires Linear(s, r) && Placing(s, t, status, r) && ix < |s.entries| && s.entries[ix].Tool?
    requires if replaced then !call.status.Waiting? else call.status == s.entries[ix].call.status
    ensures
      var retired := if replaced then Retire(s.entries[ix].call.status) else [];
      Linear(t.(entries := t.entries[ix := Tool(call)], ledger := Log(t.ledger, retired + Retire(status))), r)
  {
    var retired := if replaced then Retire(s.entries[ix].call.status) else [];
    CountRetired(s.entries[ix].call.status, r);
    CountRetired(status, r);
    CountAppend(retired, Retire(status), r);
    ReplaceLinear(s, ix, Tool(call), retired + Retire(status), t.ledger.issued, r);
  }

  lemma {:induction false} UpsertKnownLinear(s: Thread, t: Thread, ix: nat, u: Update, status: Status, now: nat, r: nat)
    requires Linear(s, r) && Placing(s, t, status, r)
    requires FindCall(s.entries, u.id) == Some(ix)
    ensures Linear(UpsertTool(t, u, status, now), r)
  {
    var call := s.entries[ix].call;
    StatusUpdated(call, u, s.terms.live.Keys, now);
    var (call', ok) := UpdateFields(call, u, s.terms.live.Keys, now);
    if ok {
      PlacedLinear(s, t, ix, call'.(status := status), status, r);
    } else {
      FailedLinear(s, t, ix, call', u.fields.status.Some?, status, r);
    }
  }

  lemma {:induction false} UpsertLinear(s: Thread, t: Thread, u: Update, status: Status, now: nat, r: nat)
    requires Linear(s, r) && Placing(s, t, status, r)
    ensures Linear(UpsertTool(t, u, status, now), r)
  {
    var found := FindCall(s.entries, u.id);
    if found.Some? {
      UpsertKnownLinear(s, t, found.value, u, status, now, r);
    } else {
      match NewCall(u, status, s.terms.live.Keys, now)
      case Err =>
        CountAppend(s.ledger.answers, Retire(status), r);
        CountRetired(status, r);
      case Ok(call) => PushLinear(s, Tool(call), t.ledger.issued, r);
    }
  }

  lemma {:induction false} AuthorizeLinear(s: Thread, id: Id, choice: Choice, r: nat)
    requires Linear(s, r)
    ensures Linear(Authorize(s, id, choice), r)
  {
    var found := FindCall(s.entries, id);
    if found.Some? {
      var call := s.entries[found.value].call;
      var e := Tool(call.(status := if choice.rejects then Rejected else InProgress));
      var log := if call.status.Waiting? then [(call.status.tx, Selected(choice))] else [];
      if call.status.Waiting? {
        CountOne(log[0], r);
      }
      assert s.ledger == Ledger(s.ledger.issued, s.ledger.answers + []);
      ReplaceLinear(s, found.value, e, log, s.ledger.issued, r);
    }
  }

  lemma {:induction false} MessagesLinear(s: Thread, t: Thread, r: nat)
    requires Linear(s, r) && t.ledger == s.ledger
    requires MessageEdit(s.entries, t.entries)
    ensures Linear(t, r)
  {
    if t.entries == s.entries {
    } else if MoreMessage(s.entries, t.entries) {
      HeldPush(s.entries, Last(t.entries), r);
    } else {
      var i :| OneMessage(s.entries, t.entries, i);
      HeldReplaced(s.entries, i, t.entries[i], r);
    }
  }

  lemma {:induction false} CancelLinear(s: Thread, r: nat)
    requires Linear(s, r)
    ensures Linear(CancelEffects(s), r)
  {
    CanceledLinear(Flush(s), r);
  }

  lemma {:induction false} SnapshotLinear(s: Thread, r: nat)
    requires Linear(s, r)
    ensures Linear(SnapshotPlan(s), r)
  {
    SnapshotShape(s);
    MessagesLinear(s, SnapshotPlan(s), r);
  }

  lemma {:induction false} RefuseLinear(s: Thread, r: nat)
    requires Linear(s, r)
    ensures Linear(Refuse(s), r)
  {
    var user := LastUser(s.entries);
    if user.Some? {
      TruncateLinear(s.(hadError := true), user.value, r);
    }
  }

  lemma {:induction false} HandledLinear(s: Thread, response: Turns.Response, r: nat)
    requires Linear(s, r)
    ensures Linear(HandleResponse(s, response), r)
  {
    match response
    case Answered(Cancelled) => CanceledLinear(s, r);
    case Answered(Refusal) => SnapshotLinear(s, r); RefuseLinear(SnapshotPlan(s), r);
    case Answered(MaxTokens) =>
    case Answered(_) => SnapshotLinear(s, r);
    case Failure =>
  }

  lemma {:induction false} CompleteLinear(s: Thread, t: nat, r: nat)
    requires Linear(s, r)
    ensures Linear(CompleteTurn(s, t), r)
  {
    if Turns.Outcome(s.turns, t).Some? {
      HandledLinear(Flush(s.(turns := Turns.Complete(s.turns, t))), Turns.Outcome(s.turns, t).value, r);
    }
  }

  lemma {:induction false} RewindLinear(s: Thread, id: Id, r: nat)
    requires Linear(s, r)
    ensures Linear(RewindEnd(s, id), r)
  {
    var user := FindUser(s.entries, id);
    if user.Some? {
      TruncateLinear(s, user.value, r);
    }
  }

  lemma {:induction false} PlainUpsertLinear(s: Thread, u: Update, status: AcpStatus, now: nat, r: nat)
    requires Linear(s, r)
    ensures Linear(UpsertTool(s, u, FromAcp(status), now), r)
  {
    UpsertLinear(s, s, u, FromAcp(status), now, r);
  }

  /** The request just issued is the one `Waiting` holds. */
  lemma {:induction false} IssueOne(tx: nat, r: nat)
    ensures One(r < tx + 1) == One(r < tx) + One(Waiting(tx) == Waiting(r))
  {
  }

  lemma {:induction false} RequestLinear(s: Thread, u: Update, now: nat, r: nat)
    requires Linear(s, r)
    ensures Linear(RequestPermission(s, u, now), r)
  {
    IssueOne(s.ledger.issued, r);
    UpsertLinear(s, Issue(s), u, Waiting(s.ledger.issued), now, r);
  }

  lemma {:induction false} BeginLinear(s: Thread, p: Turns.Prompt, r: nat)
    requires Linear(s, r)
    ensures Linear(BeginTurn(s, p), r)
  {
    CancelLinear(s.(plan := Unfinished(s.plan), hadError := false), r);
  }

  lemma {:induction false} OtherStepLinear(s: Thread, e: Event, r: nat)
    requires Linear(s, r) && !MessageEvent(e)
    ensures Linear(Step(s, e), r)
  {
    match e
    case EvUpdateTool(u, now) => UpdateLinear(s, u, now, r);
    case EvUpsertTool(u, status, now) =>
      PlainUpsertLinear(s, u.(fields := u.fields.(status := Some(status))), status, now, r);
    case EvRequest(u, now) => RequestLinear(s, u, now, r);
    case EvAuthorize(id, choice) => AuthorizeLinear(s, id, choice, r);
    case EvBegin(p) => BeginLinear(s, p, r);
    case EvCancel => CancelLinear(s, r);
    case EvComplete(t) => CompleteLinear(s, t, r);
    case EvRewindEnd(id) => RewindLinear(s, id, r);
    case _ =>
  }

  lemma {:induction false} StepLinear(s: Thread, e: Event, r: nat)
    requires Linear(s, r)
    ensures Linear(Step(s, e), r)
  {
    if MessageEvent(e) {
      MessageShape(s, e);
      MessagesLinear(s, Step(s, e), r);
    } else {
      OtherStepLinear(s, e, r);
    }
  }

  lemma {:induction false} RunLinear(s: Thread, es: seq<Event>, r: nat)
    requires Linear(s, r)
    ensures Linear(Run(s, es), r)
    decreases |es|
  {
    if es != [] {
      StepLinear(s, es[0], r);
      RunLinear(Step(s, es[0]), es[1..], r);
    }
  }

  // ----- What linearity means for requests -----

  predicate Answered(log: seq<(nat, Answer)>, request: nat) {
    exists i | 0 <= i < |log| :: log[i].0 == request
  }

  predicate WaitedFor(es: seq<Entry>, request: nat) {
    exists i | 0 <= i < |es| :: Waits(es[i], request)
  }

  lemma {:induction false} CountMeans(log: seq<(nat, Answer)>, r: nat)
    ensures Answered(log, r) <==> Count(log, r) > 0
    ensures forall i, j | 0 <= i < j < |log| && log[i].0 == log[j].0 == r :: Count(log, r) > 1
  {
    if log != [] {
      CountMeans(Init(log), r);
      assert forall i | 0 <= i < |log| - 1 :: Init(log)[i] == log[i];
    }
  }

  lemma {:induction false} HeldMeans(es: seq<Entry>, r: nat)
    ensures WaitedFor(es, r) <==> Held(es, r) > 0
    ensures forall i, j | 0 <= i < j < |es| && Waits(es[i], r) && Waits(es[j], r) :: Held(es, r) > 1
  {
    if es != [] {
      HeldMeans(Init(es), r);
      assert forall i | 0 <= i < |es| - 1 :: Init(es)[i] == es[i];
    }
  }

  /** If request `r` was issued, either one call waits for it or it has one answer, never both. */
  ghost predicate Settled(s: Thread, r: nat) {
    && (forall i, j | 0 <= i < j < |s.ledger.answers| && s.ledger.answers[i].0 == r :: s.ledger.answers[j].0 != r)
    && (forall i, j | 0 <= i < j < |s.entries| && Waits(s.entries[i], r) :: !Waits(s.entries[j], r))
    && (if r < s.ledger.issued then WaitedFor(s.entries, r) <==> !Answered(s.ledger.answers, r)
        else !WaitedFor(s.entries, r) && !Answered(s.ledger.answers, r))
  }

  /**
    In every run no request is answered twice, no two calls wait for the same
    request, and a request issued is waited for exactly when it is unanswered.
   */
  lemma {:induction false} RequestsNeverDangle(es: seq<Event>, r: nat)
    ensures Settled(Run(INITIAL, es), r)
  {
    var s := Run(INITIAL, es);
    RunLinear(INITIAL, es, r);
    CountMeans(s.ledger.answers, r);
    HeldMeans(s.entries, r);
  }

  /** Request `r` was issued, is unanswered, and the call at `i` is the one that waits for it. */
  ghost predicate OpenAt(s: Thread, r: nat, i: nat) {
    r < s.ledger.issued && !Answered(s.ledger.answers, r) && i < |s.entries| && Waits(s.entries[i], r)
  }

  /** A call that waits does so for a request that is still open. */
  lemma {:induction false} HeldIsOpen(es: seq<Event>, r: nat, i: nat)
    requires var s := Run(INITIAL, es); i < |s.entries| && Waits(s.entries[i], r)
    ensures OpenAt(Run(INITIAL, es), r, i)
  {
    RequestsNeverDangle(es, r);
  }
}
