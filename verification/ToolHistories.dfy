/**
  The history of one tool call. Ids never repeat in a transcript, a call is the
  fold of the changes addressed to it, and changes to different calls commute.
 */
module ToolHistories {
  import opened Prelude
  import opened ContentBlocks
  import opened ToolCalls
  import opened ThreadModel
  import opened ThreadShapes
  import Turns

  // ----- Ids are distinct -----

  ghost predicate DistinctCalls(es: seq<Entry>) {
    forall i, j | 0 <= i < j < |es| && es[i].Tool? && es[j].Tool? :: es[i].call.id != es[j].call.id
  }

  lemma {:induction false} ShortenedDistinct(es: seq<Entry>, n: nat)
    requires DistinctCalls(es) && n <= |es|
    ensures DistinctCalls(es[..n])
  {
  }

  lemma {:induction false} EditedDistinct(es: seq<Entry>, fs: seq<Entry>)
    requires DistinctCalls(es) && MessageEdit(es, fs)
    ensures DistinctCalls(fs)
  {
  }

  lemma {:induction false} CanceledDistinct(es: seq<Entry>)
    requires DistinctCalls(es)
    ensures DistinctCalls(CancelEntries(es))
  {
  }

  lemma {:induction false} CompleteDistinct(s: Thread, t: nat)
    requires DistinctCalls(s.entries)
    ensures DistinctCalls(CompleteTurn(s, t).entries)
  {
    var f := Flush(s.(turns := Turns.Complete(s.turns, t)));
    var c := SnapshotPlan(f);
    SnapshotShape(f);
    CanceledDistinct(f.entries);
    EditedDistinct(f.entries, c.entries);
    if LastUser(c.entries).Some? {
      ShortenedDistinct(c.entries, LastUser(c.entries).value);
    }
  }

  lemma {:induction false} StepDistinct(s: Thread, e: Event)
    requires DistinctCalls(s.entries)
    ensures DistinctCalls(Step(s, e).entries)
  {
    if ToolEvent(e) {
      ToolEventShape(s, e);
    } else if MessageEvent(e) {
      MessageShape(s, e);
      EditedDistinct(s.entries, Step(s, e).entries);
    } else {
      match e
      case EvComplete(t) => CompleteDistinct(s, t);
      case EvBegin(_) => CanceledDistinct(s.entries);
      case EvCancel => CanceledDistinct(s.entries);
      case EvRewindEnd(id) =>
        if FindUser(s.entries, id).Some? {
          ShortenedDistinct(s.entries, FindUser(s.entries, id).value);
        }
      case _ =>
    }
  }

  lemma {:induction false} RunDistinct(s: Thread, es: seq<Event>)
    requires DistinctCalls(s.entries)
    ensures DistinctCalls(Run(s, es).entries)
    decreases |es|
  {
    if es != [] {
      StepDistinct(s, es[0]);
      RunDistinct(Step(s, es[0]), es[1..]);
    }
  }

  /** The call recorded under `id`. */
  function CallOf(s: Thread, id: Id): Option<ToolCall> {
    var ix := FindCall(s.entries, id);
    if ix.Some? then Some(s.entries[ix.value].call) else None
  }

  /** In every run ids are distinct, so the reverse scan finds the only call there is: a map lookup. */
  lemma {:induction false} ScanIsLookup(es: seq<Event>, id: Id)
    ensures
      var s := Run(INITIAL, es);
      DistinctCalls(s.entries) && forall i | 0 <= i < |s.entries| && IsCall(s.entries[i], id) ::
        FindCall(s.entries, id) == Some(i)
  {
    RunDistinct(INITIAL, es);
  }

  // ----- A call is the fold of its changes -----

  /** What can happen to the call with a given id. */
  datatype Change =
    | Amend(amendment: ToolUpdate, live: set<Id>, now: nat)
    | Place(update: Update, status: Status, live: set<Id>, now: nat)
    | Decide(choice: Choice)
    | CancelAll
    | Remove

  function Apply(c: Option<ToolCall>, ch: Change, id: Id): Option<ToolCall> {
    match ch
    case Amend(u, live, now) =>
      if c.None? then Some(NotFound(id, NOT_FOUND))
      else if u.FieldsUpdate? then Some(UpdateFields(c.value, u.update, live, now).0)
      else Some(c.value.(content := [u.content]))
    case Place(u, status, live, now) =>
      if c.None? then
        match NewCall(u, status, live, now)
        case Err => None
        case Ok(call) => Some(call)
      else
        var (call, ok) := UpdateFields(c.value, u, live, now);
        Some(if ok then call.(status := status) else call)
    case Decide(choice) =>
      if c.None? then None else Some(c.value.(status := if choice.rejects then Rejected else InProgress))
    case CancelAll => if c.None? then None else Some(Cancel(c.value))
    case Remove => None
  }

  function ApplyAll(c: Option<ToolCall>, chs: seq<Change>, id: Id): Option<ToolCall>
    decreases |chs|
  {
    if chs == [] then c else ApplyAll(Apply(c, chs[0], id), chs[1..], id)
  }

  /** The call with this id sits at `n` or later. */
  predicate Beyond(es: seq<Entry>, n: nat, id: Id) {
    FindCall(es, id).Some? && n <= FindCall(es, id).value
  }

  predicate RefusalDrops(es: seq<Entry>, id: Id) {
    LastUser(es).Some? && NothingCompleted(es) && Beyond(es, LastUser(es).value, id)
  }

  function If(b: bool, ch: Change): seq<Change> {
    if b then [ch] else []
  }

  /** The change an event brings for `id`: its own updates, cancels of everything, truncations. */
  function Changes(s: Thread, e: Event, id: Id): seq<Change> {
    match e
    case EvUpdateTool(u, now) => If(UpdateId(u) == id, Amend(u, s.terms.live.Keys, now))
    case EvUpsertTool(u, status, now) =>
      If(u.id == id, Place(u.(fields := u.fields.(status := Some(status))), FromAcp(status), s.terms.live.Keys, now))
    case EvRequest(u, now) => If(u.id == id, Place(u, Waiting(s.ledger.issued), s.terms.live.Keys, now))
    case EvAuthorize(call, choice) => If(call == id, Decide(choice))
    case EvBegin(_) => If(s.turns.running.Some?, CancelAll)
    case EvCancel => If(s.turns.running.Some?, CancelAll)
    case EvComplete(t) =>
      var r := Turns.Outcome(s.turns, t);
      If(r == Some(Turns.Answered(Turns.Cancelled)), CancelAll)
      + If(r == Some(Turns.Answered(Turns.Refusal)) && RefusalDrops(s.entries, id), Remove)
    case EvRewindEnd(u) =>
      If(FindUser(s.entries, u).Some? && Beyond(s.entries, FindUser(s.entries, u).value, id), Remove)
    case _ => []
  }

  function History(s: Thread, es: seq<Event>, id: Id): seq<Change>
    decreases |es|
  {
    if es == [] then [] else Changes(s, es[0], id) + History(Step(s, es[0]), es[1..], id)
  }

  lemma {:induction false} ApplyAllAppend(c: Option<ToolCall>, a: seq<Change>, b: seq<Change>, id: Id)
    ensures ApplyAll(c, a + b, id) == ApplyAll(ApplyAll(c, a, id), b, id)
    decreases |a|
  {
    if a == [] {
      assert a + b == b;
    } else {
      assert (a + b)[1..] == a[1..] + b;
      ApplyAllAppend(Apply(c, a[0], id), a[1..], b, id);
    }
  }

  lemma {:induction false} ApplyIf(c: Option<ToolCall>, b: bool, ch: Change, id: Id)
    ensures ApplyAll(c, If(b, ch), id) == if b then Apply(c, ch, id) else c
  {
    assert b ==> ApplyAll(Apply(c, ch, id), [ch][1..], id) == Apply(c, ch, id);
  }

  /** Where the call is found decides which call it is. */
  lemma {:induction false} FoundAt(s: Thread, i: nat, id: Id)
    requires i < |s.entries| && IsCall(s.entries[i], id) && forall j | i < j < |s.entries| :: !IsCall(s.entries[j], id)
    ensures FindCall(s.entries, id) == Some(i) && CallOf(s, id) == Some(s.entries[i].call)
  {
  }

  lemma {:induction false} ReplacedCall(s: Thread, t: Thread, i: nat, call: ToolCall, id: Id)
    requires i < |s.entries| && FindCall(s.entries, call.id) == Some(i) && t.entries == s.entries[i := Tool(call)]
    ensures CallOf(t, id) == if call.id == id then Some(call) else CallOf(s, id)
  {
    var other := FindCall(s.entries, id);
    if call.id == id {
      FoundAt(t, i, id);
    } else if other.Some? {
      FoundAt(t, other.value, id);
    }
  }

  lemma {:induction false} PushedEntry(s: Thread, t: Thread, e: Entry, id: Id)
    requires t.entries == s.entries + [e]
    ensures CallOf(t, id) == if IsCall(e, id) then Some(e.call) else CallOf(s, id)
    ensures !IsCall(e, id) ==> FindCall(t.entries, id) == FindCall(s.entries, id)
  {
    assert Init(s.entries + [e]) == s.entries;
  }

  lemma {:induction false} UntouchedCall(s: Thread, t: Thread, id: Id)
    requires MessageEdit(s.entries, t.entries)
    ensures CallOf(t, id) == CallOf(s, id)
  {
    if MoreMessage(s.entries, t.entries) {
      PushedEntry(s, t, Last(t.entries), id);
    } else if FindCall(s.entries, id).Some? {
      FoundAt(t, FindCall(s.entries, id).value, id);
    }
  }

  lemma {:induction false} TruncatedCall(s: Thread, n: nat, id: Id)
    requires DistinctCalls(s.entries) && n <= |s.entries|
    ensures CallOf(TruncateEntries(s, n), id) == if Beyond(s.entries, n, id) then None else CallOf(s, id)
  {
    var found := FindCall(s.entries, id);
    if found.Some? && found.value < n {
      FoundAt(TruncateEntries(s, n), found.value, id);
    }
  }

  lemma {:induction false} CanceledCall(s: Thread, id: Id)
    ensures CallOf(MarkCanceled(s), id) == Apply(CallOf(s, id), CancelAll, id)
  {
    var found := FindCall(s.entries, id);
    if found.Some? {
      FoundAt(MarkCanceled(s), found.value, id);
    }
  }

  lemma {:induction false} UpdatedCall(s: Thread, u: ToolUpdate, now: nat, id: Id)
    ensures CallOf(UpdateTool(s, u, now), id)
         == if UpdateId(u) == id then Apply(CallOf(s, id), Amend(u, s.terms.live.Keys, now), id) else CallOf(s, id)
  {
    var t := UpdateTool(s, u, now);
    var found := FindCall(s.entries, UpdateId(u));
    if found.None? {
      PushedEntry(s, t, Last(t.entries), id);
    } else {
      var call := s.entries[found.value].call;
      if u.FieldsUpdate? {
        UpdateFieldsKeepsId(call, u.update, s.terms.live.Keys, now);
      }
      ReplacedCall(s, t, found.value, t.entries[found.value].call, id);
    }
  }

  lemma {:induction false} PlacedKnownCall(s: Thread, ix: nat, u: Update, status: Status, now: nat, id: Id)
    requires FindCall(s.entries, u.id) == Some(ix)
    ensures CallOf(UpsertTool(s, u, status, now), id)
         == if u.id == id then Apply(CallOf(s, id), Place(u, status, s.terms.live.Keys, now), id) else CallOf(s, id)
  {
    var call := s.entries[ix].call;
    var (edited, ok) := UpdateFields(call, u, s.terms.live.Keys, now);
    UpdateFieldsKeepsId(call, u, s.terms.live.Keys, now);
    var placed := if ok then edited.(status := status) else edited;
    var t := UpsertTool(s, u, status, now);
    assert t.entries == s.entries[ix := Tool(placed)];
    ReplacedCall(s, t, ix, placed, id);
  }

  lemma {:induction false} PlacedCall(s: Thread, u: Update, status: Status, now: nat, id: Id)
    ensures CallOf(UpsertTool(s, u, status, now), id)
         == if u.id == id then Apply(CallOf(s, id), Place(u, status, s.terms.live.Keys, now), id) else CallOf(s, id)
  {
    var found := FindCall(s.entries, u.id);
    if found.Some? {
      PlacedKnownCall(s, found.value, u, status, now, id);
    } else {
      match NewCall(u, status, s.terms.live.Keys, now)
      case Err =>
      case Ok(call) => PushedEntry(s, UpsertTool(s, u, status, now), Tool(call), id);
    }
  }

  lemma {:induction false} DecidedCall(s: Thread, call: Id, choice: Choice, id: Id)
    ensures CallOf(Authorize(s, call, choice), id)
      == if call == id then Apply(CallOf(s, id), Decide(choice), id) else CallOf(s, id)
  {
    var t := Authorize(s, call, choice);
    var found := FindCall(s.entries, call);
    if found.Some? {
      ReplacedCall(s, t, found.value, t.entries[found.value].call, id);
    }
  }

  lemma {:induction false} RefusedCall(s: Thread, id: Id)
    requires DistinctCalls(s.entries)
    ensures CallOf(Refuse(SnapshotPlan(s)), id) == if RefusalDrops(s.entries, id) then None else CallOf(s, id)
  {
    var c := SnapshotPlan(s);
    SnapshotShape(s);
    if c.entries != s.entries {
      PushedEntry(s, c, Last(c.entries), id);
      PlanAtEnd(s.entries, Last(c.entries));
    }
    if LastUser(c.entries).Some? {
      TruncatedCall(c.(hadError := true), LastUser(c.entries).value, id);
    }
  }

  lemma {:induction false} HandledCall(s: Thread, r: Turns.Response, id: Id)
    requires DistinctCalls(s.entries)
    ensures CallOf(HandleResponse(s, r), id)
         == if r == Turns.Answered(Turns.Cancelled) then Apply(CallOf(s, id), CancelAll, id)
            else if r == Turns.Answered(Turns.Refusal) && RefusalDrops(s.entries, id) then None
            else CallOf(s, id)
  {
    match r
    case Failure =>
    case Answered(MaxTokens) =>
    case Answered(Cancelled) => CanceledCall(s, id);
    case Answered(Refusal) => RefusedCall(s, id);
    case Answered(_) =>
      SnapshotShape(s);
      UntouchedCall(s, SnapshotPlan(s), id);
  }

  lemma {:induction false} CompletionChanges(c: Option<ToolCall>, canceled: bool, removed: bool, id: Id)
    requires !(canceled && removed)
    ensures ApplyAll(c, If(canceled, CancelAll) + If(removed, Remove), id)
         == if canceled then Apply(c, CancelAll, id) else if removed then None else c
  {
    ApplyIf(c, canceled, CancelAll, id);
    ApplyIf(c, removed, Remove, id);
    assert If(canceled, CancelAll) + [] == If(canceled, CancelAll) && [] + If(removed, Remove) == If(removed, Remove);
  }

  lemma {:induction false} CompletedTurnCall(s: Thread, t: nat, id: Id)
    requires DistinctCalls(s.entries)
    ensures CallOf(CompleteTurn(s, t), id) == ApplyAll(CallOf(s, id), Changes(s, EvComplete(t), id), id)
  {
    var r := Turns.Outcome(s.turns, t);
    var f := Flush(s.(turns := Turns.Complete(s.turns, t)));
    assert CallOf(f, id) == CallOf(s, id) && f.entries == s.entries;
    if r.Some? {
      HandledCall(f, r.value, id);
    }
    CompletionChanges(
      CallOf(s, id), r == Some(Turns.Answered(Turns.Cancelled)),
      r == Some(Turns.Answered(Turns.Refusal)) && RefusalDrops(s.entries, id), id);
  }

  lemma {:induction false} CancelEffectsCall(s: Thread, id: Id)
    ensures CallOf(CancelEffects(s), id)
      == if s.turns.running.Some? then Apply(CallOf(s, id), CancelAll, id) else CallOf(s, id)
  {
    CanceledCall(Flush(s), id);
    assert CallOf(Flush(s), id) == CallOf(s, id);
  }

  lemma {:induction false} RewoundCall(s: Thread, u: Id, id: Id)
    requires DistinctCalls(s.entries)
    ensures CallOf(RewindEnd(s, u), id)
         == if FindUser(s.entries, u).Some? && Beyond(s.entries, FindUser(s.entries, u).value, id) then None
            else CallOf(s, id)
  {
    if FindUser(s.entries, u).Some? {
      TruncatedCall(s, FindUser(s.entries, u).value, id);
    }
  }

  lemma {:induction false} ToolStepApplies(s: Thread, e: Event, id: Id)
    requires ToolEvent(e)
    ensures CallOf(Step(s, e), id) == ApplyAll(CallOf(s, id), Changes(s, e, id), id)
  {
    var c := CallOf(s, id);
    match e
    case EvUpdateTool(u, now) =>
      UpdatedCall(s, u, now, id);
      ApplyIf(c, UpdateId(u) == id, Amend(u, s.terms.live.Keys, now), id);
    case EvUpsertTool(u, status, now) =>
      var v := u.(fields := u.fields.(status := Some(status)));
      PlacedCall(s, v, FromAcp(status), now, id);
      ApplyIf(c, u.id == id, Place(v, FromAcp(status), s.terms.live.Keys, now), id);
    case EvRequest(u, now) =>
      PlacedCall(Issue(s), u, Waiting(s.ledger.issued), now, id);
      ApplyIf(c, u.id == id, Place(u, Waiting(s.ledger.issued), s.terms.live.Keys, now), id);
    case EvAuthorize(call, choice) =>
      DecidedCall(s, call, choice, id);
      ApplyIf(c, call == id, Decide(choice), id);
  }

  lemma {:induction false} StepApplies(s: Thread, e: Event, id: Id)
    requires DistinctCalls(s.entries)
    ensures CallOf(Step(s, e), id) == ApplyAll(CallOf(s, id), Changes(s, e, id), id)
  {
    var c := CallOf(s, id);
    if ToolEvent(e) {
      ToolStepApplies(s, e, id);
    } else if MessageEvent(e) {
      MessageShape(s, e);
      UntouchedCall(s, Step(s, e), id);
    } else {
      match e
      case EvBegin(_) =>
        CancelEffectsCall(s.(plan := Unfinished(s.plan), hadError := false), id);
        ApplyIf(c, s.turns.running.Some?, CancelAll, id);
      case EvCancel =>
        CancelEffectsCall(s, id);
        ApplyIf(c, s.turns.running.Some?, CancelAll, id);
      case EvComplete(t) => CompletedTurnCall(s, t, id);
      case EvRewindEnd(u) =>
        RewoundCall(s, u, id);
        ApplyIf(c, FindUser(s.entries, u).Some? && Beyond(s.entries, FindUser(s.entries, u).value, id), Remove, id);
      case _ =>
    }
  }

  lemma {:induction false} RunApplies(s: Thread, es: seq<Event>, id: Id)
    requires DistinctCalls(s.entries)
    ensures CallOf(Run(s, es), id) == ApplyAll(CallOf(s, id), History(s, es, id), id)
    decreases |es|
  {
    if es != [] {
      StepApplies(s, es[0], id);
      StepDistinct(s, es[0]);
      RunApplies(Step(s, es[0]), es[1..], id);
      ApplyAllAppend(CallOf(s, id), Changes(s, es[0], id), History(Step(s, es[0]), es[1..], id), id);
    }
  }

  /** In every run the call recorded under an id is the fold of the changes addressed to that id. */
  lemma {:induction false} CallIsFoldOfItsChanges(es: seq<Event>, id: Id)
    ensures CallOf(Run(INITIAL, es), id) == ApplyAll(None, History(INITIAL, es, id), id)
  {
    RunApplies(INITIAL, es, id);
  }

  // ----- Changes to different calls commute -----

  function Target(e: Event): Id
    requires ToolEvent(e)
  {
    match e
    case EvUpdateTool(u, _) => UpdateId(u)
    case EvUpsertTool(u, _, _) => u.id
    case EvRequest(u, _) => u.id
    case EvAuthorize(id, _) => id
  }

  /** The answers an update to a recorded call gives. */
  function Answers(call: ToolCall, e: Event): seq<(nat, Answer)>
    requires ToolEvent(e)
  {
    match e
    case EvUpdateTool(u, _) => if u.FieldsUpdate? && u.update.fields.status.Some? then Retire(call.status) else []
    case EvUpsertTool(_, _, _) => Retire(call.status)
    case EvRequest(_, _) => []
    case EvAuthorize(_, choice) => if call.status.Waiting? then [(call.status.tx, Selected(choice))] else []
  }

  /** The call an event names, as the event leaves it. */
  function Edited(s: Thread, e: Event): (call: ToolCall)
    requires ToolEvent(e) && !e.EvRequest? && FindCall(s.entries, Target(e)).Some?
    ensures call.id == Target(e)
  {
    Apply(CallOf(s, Target(e)), Changes(s, e, Target(e))[0], Target(e)).value
  }

  /** The thread with the named call replaced and the answers logged. */
  function Replaced(s: Thread, e: Event): Thread
    requires ToolEvent(e) && !e.EvRequest? && FindCall(s.entries, Target(e)).Some?
  {
    var ix := FindCall(s.entries, Target(e)).value;
    s.(entries := s.entries[ix := Tool(Edited(s, e))], ledger := Log(s.ledger, Answers(s.entries[ix].call, e)))
  }

  lemma {:induction false} UpdateInPlace(s: Thread, u: ToolUpdate, now: nat)
    requires FindCall(s.entries, UpdateId(u)).Some?
    ensures UpdateTool(s, u, now) == Replaced(s, EvUpdateTool(u, now))
  {
    assert Log(s.ledger, []) == s.ledger;
  }

  lemma {:induction false} UpsertInPlace(s: Thread, u: Update, status: AcpStatus, now: nat)
    requires FindCall(s.entries, u.id).Some?
    ensures UpsertTool(s, u.(fields := u.fields.(status := Some(status))), FromAcp(status), now)
         == Replaced(s, EvUpsertTool(u, status, now))
  {
    var was := s.entries[FindCall(s.entries, u.id).value].call.status;
    assert Retire(FromAcp(status)) == [] && Retire(was) + [] == Retire(was);
  }

  /** The event only touches the call it names, and depends on nothing else but the live terminals. */
  lemma {:induction false} EditInPlace(s: Thread, e: Event)
    requires ToolEvent(e) && !e.EvRequest? && FindCall(s.entries, Target(e)).Some?
    ensures Step(s, e) == Replaced(s, e)
  {
    match e
    case EvUpdateTool(u, now) => UpdateInPlace(s, u, now);
    case EvUpsertTool(u, status, now) => UpsertInPlace(s, u, status, now);
    case EvAuthorize(_, _) => assert Log(s.ledger, []) == s.ledger;
  }

  lemma {:induction false} SameIds(es: seq<Entry>, ix: nat, call: ToolCall, id: Id)
    requires ix < |es| && IsCall(es[ix], call.id)
    ensures FindCall(es[ix := Tool(call)], id) == FindCall(es, id)
  {
    var fs := es[ix := Tool(call)];
    assert forall i | 0 <= i < |es| :: IsCall(es[i], id) == IsCall(fs[i], id);
  }

  lemma {:induction false} EditKeepsOthers(s: Thread, d: Event, e: Event)
    requires ToolEvent(d) && !d.EvRequest? && FindCall(s.entries, Target(d)).Some?
    requires ToolEvent(e) && !e.EvRequest? && FindCall(s.entries, Target(e)).Some? && Target(d) != Target(e)
    ensures
      var t := Step(s, d);
      && FindCall(t.entries, Target(e)) == FindCall(s.entries, Target(e))
      && CallOf(t, Target(e)) == CallOf(s, Target(e)) && Edited(t, e) == Edited(s, e)
  {
    EditInPlace(s, d);
    SameIds(s.entries, FindCall(s.entries, Target(d)).value, Edited(s, d), Target(e));
  }

  lemma {:induction false} SwapEdits(es: seq<Entry>, i: nat, x: Entry, j: nat, y: Entry)
    requires i < |es| && j < |es| && i != j
    ensures es[i := x][j := y] == es[j := y][i := x]
  {
  }

  /** Updates to different recorded calls give the same thread in either order, and the same answers. */
  lemma {:induction false} UpdatesCommute(s: Thread, d: Event, e: Event)
    requires ToolEvent(d) && !d.EvRequest? && FindCall(s.entries, Target(d)).Some?
    requires ToolEvent(e) && !e.EvRequest? && FindCall(s.entries, Target(e)).Some?
    requires Target(d) != Target(e)
    ensures
      var t, u := Step(Step(s, d), e), Step(Step(s, e), d);
      t == u.(ledger := t.ledger) && t.ledger.issued == u.ledger.issued
      && multiset(t.ledger.answers) == multiset(u.ledger.answers)
  {
    EditInPlace(s, d);
    EditInPlace(s, e);
    EditKeepsOthers(s, d, e);
    EditKeepsOthers(s, e, d);
    EditInPlace(Step(s, d), e);
    EditInPlace(Step(s, e), d);
    SwapEdits(
      s.entries, FindCall(s.entries, Target(d)).value, Tool(Edited(s, d)),
      FindCall(s.entries, Target(e)).value, Tool(Edited(s, e)));
  }
}
