/** What single events do to a thread, said in terms of its state before and after. */
module Effects {
  import opened Prelude
  import opened Utf8
  import opened ContentBlocks
  import opened ToolCalls
  import opened ThreadModel
  import opened ThreadShapes
  import ThreadTurns
  import Turns
  import Terminals

  // ----- Cancelling -----

  /** An open call is canceled and otherwise the same; nothing else changes. */
  predicate Stopped(a: Entry, b: Entry) {
    if a.Tool? && (a.call.status.Pending? || a.call.status.Waiting? || a.call.status.InProgress?)
    then b == Tool(a.call.(status := Canceled)) else b == a
  }

  ghost predicate AllStopped(es: seq<Entry>, fs: seq<Entry>) {
    |fs| == |es| && forall i | 0 <= i < |es| :: Stopped(es[i], fs[i])
  }

  /** No call is pending, waiting or in progress. */
  ghost predicate NothingOpen(es: seq<Entry>) {
    forall i | 0 <= i < |es| && es[i].Tool? ::
      es[i].call.status in {Completed, Failed, Rejected, Canceled}
  }

  predicate Answered(s: Thread, t: nat, reason: Turns.StopReason) {
    Turns.Outcome(s.turns, t) == Some(Turns.Answered(reason))
  }

  lemma {:induction false} StoppedMeans(es: seq<Entry>, fs: seq<Entry>)
    requires AllStopped(es, fs)
    ensures NothingOpen(fs)
  {
    forall i | 0 <= i < |fs| && fs[i].Tool?
      ensures fs[i].call.status in {Completed, Failed, Rejected, Canceled}
    {
      assert Stopped(es[i], fs[i]);
    }
  }

  lemma {:induction false} MarkStops(s: Thread)
    ensures AllStopped(s.entries, MarkCanceled(s).entries)
  {
  }

  /** After a cancel, a follow-up or a turn that ended cancelled, open calls are canceled and nothing else changes. */
  lemma {:induction false} CancelStopsOpenCalls(s: Thread, e: Event)
    requires
      || ((e.EvCancel? || e.EvBegin?) && s.turns.running.Some?)
      || (e.EvComplete? && Answered(s, e.turn, Turns.Cancelled))
    ensures AllStopped(s.entries, Step(s, e).entries) && NothingOpen(Step(s, e).entries)
  {
    match e {
      case EvCancel => MarkStops(Flush(s));
      case EvBegin(_) => MarkStops(Flush(s.(plan := Unfinished(s.plan), hadError := false)));
      case EvComplete(t) => MarkStops(Flush(s.(turns := Turns.Complete(s.turns, t))));
    }
    StoppedMeans(s.entries, Step(s, e).entries);
  }

  /** With no turn running, neither changes an entry. */
  lemma {:induction false} IdleCancelKeeps(s: Thread, e: Event)
    requires (e.EvCancel? || e.EvBegin?) && s.turns.running.None?
    ensures Step(s, e).entries == s.entries
  {
  }

  // ----- Rewinding -----

  /** The message with the id stands at `ix`, and none before it has the id. */
  predicate FirstAt(es: seq<Entry>, id: Id, ix: nat) {
    && ix < |es| && es[ix].User? && es[ix].id == Some(id)
    && forall j | 0 <= j < ix :: es[j].User? ==> es[j].id != Some(id)
  }

  /** A rewind leaves what came before the message, and releases the terminals of what it drops. */
  lemma {:induction false} RewindCuts(s: Thread, id: Id, ix: nat)
    requires FirstAt(s.entries, id, ix)
    ensures
      var t := Step(s, EvRewindEnd(id));
      && t.entries == s.entries[..ix]
      && (forall i, j | ix <= i < |s.entries| && s.entries[i].Tool? && 0 <= j < |s.entries[i].call.content|
            && s.entries[i].call.content[j].TerminalContent? ::
            s.entries[i].call.content[j].terminal !in t.terms.live)
      && (forall x | x in t.terms.live :: x in s.terms.live && t.terms.live[x] == s.terms.live[x])
      && t == s.(entries := t.entries, ledger := t.ledger, terms := t.terms)
  {
    var found := FindUser(s.entries, id);
    assert found == Some(ix);
    var rest := s.entries[ix..];
    forall i, j | ix <= i < |s.entries| && s.entries[i].Tool? && 0 <= j < |s.entries[i].call.content|
      && s.entries[i].call.content[j].TerminalContent?
      ensures s.entries[i].call.content[j].terminal !in Step(s, EvRewindEnd(id)).terms.live
    {
      assert rest[i - ix] == s.entries[i];
      assert s.entries[i].call.content[j].terminal in TerminalIds(rest);
    }
  }

  /** A terminal goes only if a removed entry names it. */
  lemma {:induction false} RewindReleasesNoMore(s: Thread, id: Id, ix: nat, x: Id)
    requires FirstAt(s.entries, id, ix) && x in s.terms.live && x !in Step(s, EvRewindEnd(id)).terms.live
    ensures exists i, j :: ix <= i < |s.entries| && s.entries[i].Tool? && 0 <= j < |s.entries[i].call.content|
              && s.entries[i].call.content[j] == TerminalContent(x)
  {
    assert FindUser(s.entries, id) == Some(ix);
    var rest := s.entries[ix..];
    assert x in TerminalIds(rest);
    var i, j :| 0 <= i < |rest| && rest[i].Tool? && 0 <= j < |rest[i].call.content|
      && rest[i].call.content[j].TerminalContent? && rest[i].call.content[j].terminal == x;
    assert s.entries[ix + i] == rest[i] && s.entries[ix + i].call.content[j] == TerminalContent(x);
  }

  /** After a rewind no message has the id, in whatever state it was asked for; an unknown id changes nothing. */
  lemma {:induction false} RewoundMessageIsGone(s: Thread, id: Id)
    ensures
      var t := Step(s, EvRewindEnd(id));
      && (forall i | 0 <= i < |t.entries| && t.entries[i].User? :: t.entries[i].id != Some(id))
      && ((forall i | 0 <= i < |s.entries| && s.entries[i].User? :: s.entries[i].id != Some(id)) ==> t == s)
  {
    if FindUser(s.entries, id).Some? {
      RewindCuts(s, id, FindUser(s.entries, id).value);
    }
  }

  // ----- Plans -----

  /** The items that are not completed, in order. */
  function Undone(plan: seq<PlanItem>): seq<PlanItem> {
    if plan == [] then []
    else
      var rest := Undone(Init(plan));
      match Last(plan).status
      case PlanCompleted => rest
      case PlanPending => rest + [Last(plan)]
      case PlanInProgress => rest + [Last(plan)]
      case PlanOther => rest + [Last(plan)]
  }

  lemma {:induction false} UndoneCons(x: PlanItem, plan: seq<PlanItem>)
    ensures Undone([x] + plan) == (if x.status == PlanCompleted then [] else [x]) + Undone(plan)
  {
    if plan == [] {
      assert [x] + plan == [x] && Init([x]) == [];
    } else {
      UndoneCons(x, Init(plan));
      assert Init([x] + plan) == [x] + Init(plan) && Last([x] + plan) == Last(plan);
    }
  }

  lemma {:induction false} UnfinishedIsUndone(plan: seq<PlanItem>)
    ensures Unfinished(plan) == Undone(plan)
  {
    if plan != [] {
      UnfinishedIsUndone(plan[1..]);
      UndoneCons(plan[0], plan[1..]);
      assert [plan[0]] + plan[1..] == plan;
    }
  }

  /** There is a plan, and each of its items is completed or of a kind not known. */
  predicate Finished(plan: seq<PlanItem>) {
    plan != [] && forall i | 0 <= i < |plan| :: plan[i].status in {PlanCompleted, PlanOther}
  }

  /** The event is one that puts a finished plan into the transcript. */
  predicate Snapshots(s: Thread, e: Event) {
    || e.EvSnapshotPlan?
    || (e.EvComplete? && (Answered(s, e.turn, Turns.EndTurn) || Answered(s, e.turn, Turns.MaxTurnRequests)
                          || Answered(s, e.turn, Turns.Refusal)))
  }

  lemma {:induction false} SnapshotMeans(s: Thread)
    ensures
      var t := SnapshotPlan(s);
      if Finished(s.plan) then t.plan == [] && t.entries == s.entries + [CompletedPlan(s.plan)]
      else t == s
  {
    if StillPending(s.plan) {
      var i :| 0 <= i < |s.plan| && (s.plan[i].status.PlanPending? || s.plan[i].status.PlanInProgress?);
      assert s.plan[i].status !in {PlanCompleted, PlanOther};
    } else {
      forall i | 0 <= i < |s.plan|
        ensures s.plan[i].status in {PlanCompleted, PlanOther}
      {
        assert !(s.plan[i].status.PlanPending? || s.plan[i].status.PlanInProgress?);
      }
    }
  }

  lemma {:induction false} PlanKeptByMessages(s: Thread, e: Event)
    requires MessageEvent(e) && !e.EvSnapshotPlan?
    ensures Step(s, e).plan == s.plan
  {
  }

  function PlanAfter(s: Thread, e: Event): seq<PlanItem> {
    if e.EvUpdatePlan? then e.plan
    else if e.EvClearPlan? then []
    else if e.EvBegin? then Undone(s.plan)
    else if Snapshots(s, e) && Finished(s.plan) then []
    else s.plan
  }

  lemma {:induction false} OtherPlanFollows(s: Thread, e: Event)
    requires !ToolEvent(e) && !MessageEvent(e)
    ensures Step(s, e).plan == PlanAfter(s, e)
  {
    match e
    case EvBegin(_) => UnfinishedIsUndone(s.plan);
    case EvComplete(t) => CompletedPlanFollows(s, t);
    case _ =>
  }

  /** The plan after any event: given, cleared, stripped of what is done, or put into the transcript. */
  lemma {:induction false} PlanFollows(s: Thread, e: Event)
    ensures Step(s, e).plan == PlanAfter(s, e)
  {
    if ToolEvent(e) {
      ToolEventShape(s, e);
    } else if e.EvSnapshotPlan? {
      SnapshotMeans(s);
    } else if MessageEvent(e) {
      PlanKeptByMessages(s, e);
    } else {
      OtherPlanFollows(s, e);
    }
  }

  lemma {:induction false} CompletedPlanFollows(s: Thread, t: nat)
    ensures CompleteTurn(s, t).plan == if Snapshots(s, EvComplete(t)) && Finished(s.plan) then [] else s.plan
  {
    SnapshotMeans(Flush(s.(turns := Turns.Complete(s.turns, t))));
  }

  // ----- Ends of turns -----

  /** A call that has completed and has an output. */
  predicate Produced(e: Entry) {
    e.Tool? && e.call.status == Completed && e.call.rawOutput != None
  }

  /** The last user message stands at `ix`, and no call after it has produced anything. */
  predicate Retractable(es: seq<Entry>, ix: nat) {
    && ix < |es| && es[ix].User?
    && forall j | ix < j < |es| :: !es[j].User? && !Produced(es[j])
  }

  lemma {:induction false} RetractableMeans(es: seq<Entry>)
    ensures LastUser(es).Some? && NothingCompleted(es) ==> Retractable(es, LastUser(es).value)
    ensures forall ix: nat | Retractable(es, ix) :: LastUser(es) == Some(ix) && NothingCompleted(es)
  {
    if LastUser(es).Some? && NothingCompleted(es) {
      forall j | LastUser(es).value < j < |es|
        ensures !Produced(es[j])
      {
        assert !CompletedWithOutput(es[j]);
      }
    }
    forall ix: nat | Retractable(es, ix)
      ensures LastUser(es) == Some(ix) && NothingCompleted(es)
    {
      assert forall j | ix < j < |es| :: Produced(es[j]) == CompletedWithOutput(es[j]);
    }
  }

  /** A refusal cuts at the last user message, unless a call after it has produced something. */
  lemma {:induction false} RefusalCuts(s: Thread, t: nat, ix: nat)
    requires Answered(s, t, Turns.Refusal)
    ensures Retractable(s.entries, ix) ==> Step(s, EvComplete(t)).entries == s.entries[..ix]
    ensures (forall i | 0 <= i < |s.entries| :: !Retractable(s.entries, i)) ==>
      Step(s, EvComplete(t)).entries == s.entries + if Finished(s.plan) then [CompletedPlan(s.plan)] else []
  {
    var c := Flush(s.(turns := Turns.Complete(s.turns, t)));
    RefuseTruncates(c);
    RetractableMeans(s.entries);
    SnapshotMeans(c);
    if !(LastUser(s.entries).Some? && NothingCompleted(s.entries)) {
      RefusalKeeps(c);
    }
  }

  lemma {:induction false} RefusalKeeps(s: Thread)
    requires !(LastUser(s.entries).Some? && NothingCompleted(s.entries))
    ensures Refuse(SnapshotPlan(s)).entries == SnapshotPlan(s).entries
  {
    var c := SnapshotPlan(s);
    SnapshotShape(s);
    if c.entries != s.entries {
      PlanAtEnd(s.entries, Last(c.entries));
    }
    RefuseCuts(c);
  }

  /** A turn that ended in another way leaves the entries, and puts a finished plan behind them if it ended well. */
  lemma {:induction false} OtherEndsKeep(s: Thread, t: nat)
    requires Turns.Outcome(s.turns, t).Some? && !Answered(s, t, Turns.Refusal) && !Answered(s, t, Turns.Cancelled)
    ensures
      Step(s, EvComplete(t)).entries
      == s.entries + if Snapshots(s, EvComplete(t)) && Finished(s.plan) then [CompletedPlan(s.plan)] else []
  {
    SnapshotMeans(Flush(s.(turns := Turns.Complete(s.turns, t))));
    assert s.entries + [] == s.entries;
  }

  /** The turn ended badly: it failed, ran out of tokens, or was refused. */
  predicate EndedBadly(s: Thread, t: nat) {
    || Turns.Outcome(s.turns, t) == Some(Turns.Failure)
    || Answered(s, t, Turns.MaxTokens) || Answered(s, t, Turns.Refusal)
  }

  lemma {:induction false} CompletedErrorFollows(s: Thread, t: nat)
    ensures CompleteTurn(s, t).hadError == (EndedBadly(s, t) || s.hadError)
  {
  }

  lemma {:induction false} ErrorKeptByMessages(s: Thread, e: Event)
    requires MessageEvent(e)
    ensures Step(s, e).hadError == s.hadError
  {
  }

  /** A thread shows an error from a bad end until the next turn begins. */
  lemma {:induction false} ErrorFollows(s: Thread, e: Event)
    ensures
      Step(s, e).hadError
      == if e.EvBegin? then false else if e.EvComplete? && EndedBadly(s, e.turn) then true else s.hadError
  {
    if ToolEvent(e) {
      ToolEventShape(s, e);
    } else if MessageEvent(e) {
      ErrorKeptByMessages(s, e);
    } else if e.EvComplete? {
      CompletedErrorFollows(s, e.turn);
    }
  }

  // ----- User messages -----

  /** A user message with these data; what its block shows is another matter. */
  predicate IsMessage(e: Entry, id: Option<Id>, chunks: seq<ContentBlock>, indented: bool) {
    e.User? && e.id == id && e.chunks == chunks && e.indented == indented
  }

  predicate Goes(es: seq<Entry>, indented: bool) {
    es != [] && Last(es).User? && Last(es).indented == indented
  }

  lemma {:induction false} UserBlockGoes(s: Thread, id: Option<Id>, cb: ContentBlock, indented: bool)
    ensures
      var t := PushUser(s, id, cb, indented).entries;
      if Goes(s.entries, indented) then
        var d := Last(s.entries);
        && |t| == |s.entries| && Init(t) == Init(s.entries)
        && IsMessage(Last(t), if id == None then d.id else id, d.chunks + [cb], indented)
      else |t| == |s.entries| + 1 && Init(t) == s.entries && IsMessage(Last(t), id, [cb], indented)
  {
  }

  /** A block pushed by the user goes on with the last message if that is the user's with the same indentation. */
  lemma {:induction false} PushedBlockGoes(s: Thread, id: Option<Id>, cb: ContentBlock, indented: bool)
    ensures
      var t := Step(s, EvPushUser(id, cb, indented)).entries;
      if Goes(s.entries, indented) then
        var d := Last(s.entries);
        && |t| == |s.entries| && Init(t) == Init(s.entries)
        && IsMessage(Last(t), if id == None then d.id else id, d.chunks + [cb], indented)
      else |t| == |s.entries| + 1 && Init(t) == s.entries && IsMessage(Last(t), id, [cb], indented)
  {
    UserBlockGoes(s, id, cb, indented);
  }

  /** A chunk the agent reports of the user is dropped when the last message has it already. */
  lemma {:induction false} EchoIsDropped(s: Thread, cb: ContentBlock)
    ensures
      Step(s, EvUserChunk(cb))
      == if s.entries != [] && Last(s.entries).User?
            && (exists i | 0 <= i < |Last(s.entries).chunks| :: Last(s.entries).chunks[i] == cb)
         then s else Step(s, EvPushUser(None, cb, false))
  {
  }

  /** A message that is sent, or injected with at least one block, is always an entry of its own. */
  lemma {:induction false} MessageStandsAlone(s: Thread, id: Option<Id>, cbs: seq<ContentBlock>)
    ensures
      var t := Step(s, EvPushMessage(id, cbs));
      if cbs == [] then t == s
      else |t.entries| == |s.entries| + 1 && Init(t.entries) == s.entries && IsMessage(Last(t.entries), id, cbs, false)
  {
  }

  lemma {:induction false} SentMessageArrives(s: Thread, t: nat)
    requires Turns.CanStart(s.turns, t)
    ensures
      var u, p := Step(s, EvStart(t)).entries, s.turns.prompts[t - 1];
      if p.Retry? then u == s.entries
      else |u| == |s.entries| + 1 && Init(u) == s.entries && IsMessage(Last(u), Some(p.id), p.blocks, false)
  {
  }

  // ----- Subagents, and the buffer -----

  /** The last assistant message is marked as a subagent's output, and nothing else changes. */
  lemma {:induction false} LastReplyIsMarked(s: Thread, ix: nat)
    requires ix < |s.entries| && s.entries[ix].Assistant? && forall j | ix < j < |s.entries| :: !s.entries[j].Assistant?
    ensures Step(s, EvMarkSubagent) == s.(entries := s.entries[ix := s.entries[ix].(subagentOutput := true)])
  {
    assert LastAssistant(s.entries) == Some(ix);
  }

  lemma {:induction false} NoReplyToMark(s: Thread)
    requires forall j | 0 <= j < |s.entries| :: !s.entries[j].Assistant?
    ensures Step(s, EvMarkSubagent) == s
  {
  }

  /** The text that was pending for a block is in it, and nothing is pending any more. */
  predicate Settled(s: Thread, t: Thread) {
    && t.buffer == None && |s.texts| <= |t.texts|
    && forall b | 0 <= b < |s.texts| ::
         t.texts[b] == s.texts[b]
           + if s.buffer != None && s.buffer.value.target == b then s.buffer.value.pending else []
  }

  lemma {:induction false} FlushSettles(s: Thread)
    ensures Settled(s, Flush(s))
  {
    assert forall b | 0 <= b < |s.texts| :: s.texts[b] + [] == s.texts[b];
  }

  /** Nothing stays pending behind a cancel, a follow-up, the end of a turn, or a rewind. */
  lemma {:induction false} TextSettles(s: Thread, e: Event)
    requires
      || e.EvRewindBegin? || ((e.EvCancel? || e.EvBegin?) && s.turns.running.Some?)
      || (e.EvComplete? && Turns.Outcome(s.turns, e.turn).Some?)
    ensures Settled(s, Step(s, e))
  {
    FlushSettles(s);
    match e
    case EvRewindBegin =>
    case EvCancel => FlushSettles(s);
    case EvBegin(_) => FlushSettles(s.(plan := Unfinished(s.plan), hadError := false));
    case EvComplete(t) =>
      var c := s.(turns := Turns.Complete(s.turns, t));
      FlushSettles(c);
      HandledKeepsTexts(Flush(c), Turns.Outcome(s.turns, t).value);
  }

  lemma {:induction false} HandledKeepsTexts(s: Thread, r: Turns.Response)
    requires s.buffer.None?
    ensures HandleResponse(s, r).texts == s.texts && HandleResponse(s, r).buffer.None?
  {
  }

  // ----- Tool calls and permissions -----

  /** The call stands at `ix`, and none after it has its id. */
  predicate LastAt(es: seq<Entry>, id: Id, ix: nat) {
    && ix < |es| && es[ix].Tool? && es[ix].call.id == id
    && forall j | ix < j < |es| :: es[j].Tool? ==> es[j].call.id != id
  }

  predicate Unknown(es: seq<Entry>, id: Id) {
    forall j | 0 <= j < |es| :: es[j].Tool? ==> es[j].call.id != id
  }

  /** An answer sets the call's status, and goes out on the channel of the request it was waiting for, if any. */
  lemma {:induction false} AnswerGoesOut(s: Thread, id: Id, choice: Choice, ix: nat)
    requires LastAt(s.entries, id, ix)
    ensures
      var call := s.entries[ix].call;
      Step(s, EvAuthorize(id, choice))
      == s.(entries := s.entries[ix := Tool(call.(status := if choice.rejects then Rejected else InProgress))],
            ledger := Ledger(
              s.ledger.issued,
              s.ledger.answers + match call.status case Waiting(tx) => [(tx, Selected(choice))] case _ => []))
  {
    assert FindCall(s.entries, id) == Some(ix);
    assert s.ledger.answers + [] == s.ledger.answers;
  }

  lemma {:induction false} AnswerToNobody(s: Thread, id: Id, choice: Choice)
    requires Unknown(s.entries, id)
    ensures Step(s, EvAuthorize(id, choice)) == s
  {
    assert FindCall(s.entries, id) == None;
  }

  /** An update of an unknown call is recorded as a failed one. */
  lemma {:induction false} UnknownCallFails(s: Thread, u: ToolUpdate, now: nat)
    requires Unknown(s.entries, if u.FieldsUpdate? then u.update.id else u.id)
    ensures
      var t := Step(s, EvUpdateTool(u, now)).entries;
      && |t| == |s.entries| + 1 && Init(t) == s.entries && Last(t).Tool?
      && Last(t).call.id == (if u.FieldsUpdate? then u.update.id else u.id) && Last(t).call.status == Failed
  {
    assert FindCall(s.entries, UpdateId(u)) == None;
  }

  /** A request takes the next number, and its call, if it is recorded, comes to wait for it. */
  lemma {:induction false} RequestWaits(s: Thread, u: Update, now: nat)
    requires u.fields.content.None? && (Unknown(s.entries, u.id) ==> u.fields.title.Some?)
    ensures
      var t := Step(s, EvRequest(u, now));
      && t.ledger.issued == s.ledger.issued + 1
      && exists ix: nat :: LastAt(t.entries, u.id, ix) && t.entries[ix].call.status == Waiting(s.ledger.issued)
  {
    var t := Step(s, EvRequest(u, now));
    var found := FindCall(s.entries, u.id);
    var ix := if found.Some? then found.value else |s.entries|;
    assert LastAt(t.entries, u.id, ix);
  }

  /** The log grows by answers that this event can give: the user's choice, or none where a sender was dropped. */
  ghost predicate Logged(l: Ledger, m: Ledger, e: Event) {
    && l.answers <= m.answers
    && forall i | |l.answers| <= i < |m.answers| ::
         m.answers[i].1 == Unanswered || (e.EvAuthorize? && m.answers[i].1 == Selected(e.choice))
  }

  lemma {:induction false} RetiredUnanswered(es: seq<Entry>)
    ensures forall i | 0 <= i < |RetireAll(es)| :: RetireAll(es)[i].1 == Unanswered
  {
    if es != [] {
      RetiredUnanswered(Init(es));
    }
  }

  lemma {:induction false} CanceledLogged(s: Thread, e: Event)
    ensures Logged(s.ledger, MarkCanceled(s).ledger, e)
  {
    RetiredUnanswered(s.entries);
  }

  lemma {:induction false} TruncatedLogged(s: Thread, n: nat, e: Event)
    requires n <= |s.entries|
    ensures Logged(s.ledger, TruncateEntries(s, n).ledger, e)
  {
    RetiredUnanswered(s.entries[n..]);
  }

  lemma {:induction false} UpsertLogged(s: Thread, u: Update, status: Status, now: nat, e: Event)
    ensures Logged(s.ledger, UpsertTool(s, u, status, now).ledger, e)
  {
  }

  lemma {:induction false} ToolLogged(s: Thread, e: Event)
    requires ToolEvent(e)
    ensures Logged(s.ledger, Step(s, e).ledger, e)
  {
    match e
    case EvUpsertTool(u, status, now) =>
      UpsertLogged(s, u.(fields := u.fields.(status := Some(status))), FromAcp(status), now, e);
    case EvRequest(u, now) => UpsertLogged(Issue(s), u, Waiting(s.ledger.issued), now, e);
    case EvUpdateTool(_, _) =>
    case EvAuthorize(_, _) =>
  }

  lemma {:induction false} RefusedLogged(s: Thread, e: Event)
    ensures Logged(s.ledger, Refuse(SnapshotPlan(s)).ledger, e)
  {
    var c := SnapshotPlan(s).(hadError := true);
    SnapshotShape(s);
    if LastUser(c.entries).Some? {
      TruncatedLogged(c, LastUser(c.entries).value, e);
    }
  }

  lemma {:induction false} HandledLogged(s: Thread, r: Turns.Response, e: Event)
    ensures Logged(s.ledger, HandleResponse(s, r).ledger, e)
  {
    match r
    case Answered(Cancelled) => CanceledLogged(s, e);
    case Answered(Refusal) => RefusedLogged(s, e);
    case Answered(MaxTokens) =>
    case Answered(_) => SnapshotShape(s);
    case Failure =>
  }

  lemma {:induction false} OtherLogged(s: Thread, e: Event)
    requires !ToolEvent(e) && !MessageEvent(e)
    ensures Logged(s.ledger, Step(s, e).ledger, e)
  {
    match e
    case EvBegin(_) => CanceledLogged(Flush(s.(plan := Unfinished(s.plan), hadError := false)), e);
    case EvCancel => CanceledLogged(Flush(s), e);
    case EvComplete(t) =>
      if Turns.Outcome(s.turns, t).Some? {
        HandledLogged(Flush(s.(turns := Turns.Complete(s.turns, t))), Turns.Outcome(s.turns, t).value, e);
      }
    case EvRewindEnd(id) =>
      if FindUser(s.entries, id).Some? {
        TruncatedLogged(s, FindUser(s.entries, id).value, e);
      }
    case _ =>
  }

  lemma {:induction false} StepLogged(s: Thread, e: Event)
    ensures Logged(s.ledger, Step(s, e).ledger, e)
  {
    if ToolEvent(e) {
      ToolLogged(s, e);
    } else if MessageEvent(e) {
      MessageShape(s, e);
    } else {
      OtherLogged(s, e);
    }
  }

  predicate Chosen(es: seq<Event>, choice: Choice) {
    exists i | 0 <= i < |es| :: es[i].EvAuthorize? && es[i].choice == choice
  }

  /** In every run, whoever asked for permission is told a choice only if the user made it. */
  lemma {:induction false} AnswersWereGiven(es: seq<Event>, r: nat, choice: Choice)
    requires (r, Selected(choice)) in Run(INITIAL, es).ledger.answers
    ensures Chosen(es, choice)
  {
    var init, e := Init(es), Last(es);
    assert init + [e] == es;
    RunLast(INITIAL, init, e);
    var l, m := Run(INITIAL, init).ledger.answers, Run(INITIAL, es).ledger.answers;
    StepLogged(Run(INITIAL, init), e);
    var i :| 0 <= i < |m| && m[i] == (r, Selected(choice));
    if i < |l| {
      assert l[i] == m[i];
      AnswersWereGiven(init, r, choice);
      var k :| 0 <= k < |init| && init[k].EvAuthorize? && init[k].choice == choice;
      assert es[k] == init[k];
    } else {
      assert es[|es| - 1] == e;
    }
  }
}
