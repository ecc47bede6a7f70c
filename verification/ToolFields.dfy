/**
  What a recorded tool call says, field by field: the last value given since the call was made,
  by a change that got as far as that field, or else the value it was made with.
 */
module ToolFields {
  import opened Prelude
  import opened Utf8
  import opened ContentBlocks
  import opened ToolCalls
  import opened ThreadModel
  import opened ToolHistories
  import Turns

  // ----- The changes to a call, read without applying them -----

  /** The update a change carries, if it is one of fields. */
  function UpdateOf(ch: Change): Option<Update> {
    match ch
    case Amend(u, _, _) => if u.FieldsUpdate? then Some(u.update) else None
    case Place(u, _, _, _) => Some(u)
    case _ => None
  }

  function LiveAt(ch: Change): set<Id> {
    if ch.Amend? || ch.Place? then ch.live else {}
  }

  /** The content, which is dealt with before locations, input and output, names no unknown terminal. */
  predicate GetsThrough(u: Update, live: set<Id>) {
    u.fields.content.Some? ==>
      forall i | 0 <= i < |u.fields.content.value| ::
        u.fields.content.value[i].AcpTerminal? ==> u.fields.content.value[i].terminal in live
  }

  predicate Makes(ch: Change) {
    match ch
    case Amend(_, _, _) => true
    case Place(u, _, live, _) => u.fields.title.Some? && GetsThrough(u, live)
    case _ => false
  }

  /** The call exists after these changes. */
  predicate Present(chs: seq<Change>) {
    chs != [] && !Last(chs).Remove? && (Present(Init(chs)) || Makes(Last(chs)))
  }

  /** The last value given since the call was made, or the one it was made with. */
  function LastWritten<T>(chs: seq<Change>, given: Change -> Option<T>, made: Change -> T): T
    requires Present(chs)
  {
    if !Present(Init(chs)) then made(Last(chs))
    else if given(Last(chs)).Some? then given(Last(chs)).value
    else LastWritten(Init(chs), given, made)
  }

  // ----- What is given, and what a call is made with -----

  function TitleGiven(ch: Change): Option<string> {
    if UpdateOf(ch).Some? then UpdateOf(ch).value.fields.title else None
  }

  function TitleMade(ch: Change): string {
    if ch.Place? && ch.update.fields.title.Some? then ch.update.fields.title.value else "Tool call not found"
  }

  function KindGiven(ch: Change): Option<string> {
    if UpdateOf(ch).Some? then UpdateOf(ch).value.fields.kind else None
  }

  function KindMade(ch: Change): string {
    if !ch.Place? then "fetch"
    else if ch.update.fields.kind.Some? then ch.update.fields.kind.value
    else "other"
  }

  function SessionGiven(ch: Change): Option<Option<Id>> {
    if UpdateOf(ch).Some? && UpdateOf(ch).value.meta.session.Some? then Some(UpdateOf(ch).value.meta.session) else None
  }

  function SessionMade(ch: Change): Option<Id> {
    if ch.Place? then ch.update.meta.session else None
  }

  /** The change gets as far as the fields after the content. */
  predicate Reaches(ch: Change) {
    UpdateOf(ch).Some? && GetsThrough(UpdateOf(ch).value, LiveAt(ch))
  }

  function LocationsGiven(ch: Change): Option<seq<string>> {
    if Reaches(ch) then UpdateOf(ch).value.fields.locations else None
  }

  function LocationsMade(ch: Change): seq<string> {
    if ch.Place? && ch.update.fields.locations.Some? then ch.update.fields.locations.value else []
  }

  function InputGiven(ch: Change): Option<Option<Json>> {
    if Reaches(ch) && UpdateOf(ch).value.fields.rawInput.Some? then Some(UpdateOf(ch).value.fields.rawInput) else None
  }

  function InputMade(ch: Change): Option<Json> {
    if ch.Place? then ch.update.fields.rawInput else None
  }

  function OutputGiven(ch: Change): Option<Option<Json>> {
    if Reaches(ch) && UpdateOf(ch).value.fields.rawOutput.Some? then Some(UpdateOf(ch).value.fields.rawOutput) else None
  }

  function OutputMade(ch: Change): Option<Json> {
    if ch.Place? then ch.update.fields.rawOutput else None
  }

  /** The tool's name and the subagent are set when the call is made, and stay. */
  function NeverGiven(ch: Change): Option<Option<Id>> {
    None
  }

  function ToolNameMade(ch: Change): Option<string> {
    if ch.Place? then ch.update.meta.toolName else None
  }

  function SubagentMade(ch: Change): Option<Id> {
    if ch.Place? then ch.update.meta.subagent else None
  }

  // ----- Status and start -----

  function Spelled(status: AcpStatus): Status {
    match status
    case AcpPending => Pending
    case AcpInProgress => InProgress
    case AcpCompleted => Completed
    case AcpFailed => Failed
    case AcpOther => Pending
  }

  /** The status in the fields of the change. */
  function StatusNamed(ch: Change): Option<AcpStatus> {
    if UpdateOf(ch).Some? then UpdateOf(ch).value.fields.status else None
  }

  /** A request places the sender it has issued; any other call is placed as its fields say. */
  function StatusPlaced(ch: Change): Status
    requires ch.Place?
  {
    if ch.status.Waiting? then ch.status
    else if StatusNamed(ch).Some? then Spelled(StatusNamed(ch).value)
    else ch.status
  }

  function StatusAfter(chs: seq<Change>): Status
    requires Present(chs)
  {
    var ch := Last(chs);
    if !Present(Init(chs)) then if ch.Place? then StatusPlaced(ch) else Failed
    else
      var before := StatusAfter(Init(chs));
      match ch
      case Decide(choice) => if choice.rejects then Rejected else InProgress
      case CancelAll =>
        (match before
         case Pending => Canceled
         case Waiting(_) => Canceled
         case InProgress => Canceled
         case _ => before)
      case Place(_, _, _, _) => if Reaches(ch) then StatusPlaced(ch) else Renamed(ch, before)
      case Amend(_, _, _) => Renamed(ch, before)
      case Remove => before
  }

  function Renamed(ch: Change, before: Status): Status {
    if StatusNamed(ch).Some? then Spelled(StatusNamed(ch).value) else before
  }

  /** A call is stamped when it is made in progress, and when its fields move it there. */
  function StartAfter(chs: seq<Change>): Option<nat>
    requires Present(chs)
  {
    var ch := Last(chs);
    if !Present(Init(chs)) then if ch.Place? && StatusPlaced(ch).InProgress? then Some(ch.now) else None
    else if StatusNamed(ch) == Some(AcpInProgress) && !StatusAfter(Init(chs)).InProgress? then Some(ch.now)
    else StartAfter(Init(chs))
  }

  // ----- One change -----

  /** An upsert that is no request says its status in its fields as well. */
  predicate Proper(ch: Change) {
    ch.Place? && !ch.status.Waiting? ==>
      ch.update.fields.status.Some? && ch.status == FromAcp(ch.update.fields.status.value)
  }

  lemma {:induction false} SpelledOut(status: AcpStatus)
    ensures FromAcp(status) == Spelled(status)
  {
  }

  lemma {:induction false} OverlayThrough(prior: seq<ToolContent>, items: seq<AcpContent>, live: set<Id>)
    ensures Overlay(prior, items, live).ok <==> TerminalsKnown(items, live)
    ensures Rebuild(items, live).Ok? <==> TerminalsKnown(items, live)
    decreases |items|
  {
    if items != [] {
      var rest := items[1..];
      assert TerminalsKnown(items, live)
        <==> (items[0].AcpTerminal? ==> items[0].terminal in live) && TerminalsKnown(rest, live) by {
        assert forall i | 0 <= i < |rest| :: rest[i] == items[i + 1];
        assert items == [items[0]] + rest;
      }
      OverlayThrough(OldTail(prior), rest, live);
    }
  }

  lemma {:induction false} RefillThrough(call: ToolCall, u: Update, live: set<Id>)
    ensures Refill(call, u.fields, live).1 <==> GetsThrough(u, live)
  {
    if u.fields.content.Some? {
      OverlayThrough(call.content, u.fields.content.value, live);
      assert TerminalsKnown(u.fields.content.value, live) <==> GetsThrough(u, live);
    }
  }

  lemma {:induction false} MadeThrough(u: Update, status: Status, live: set<Id>, now: nat)
    ensures NewCall(u, status, live, now).Ok? <==> u.fields.title.Some? && GetsThrough(u, live)
  {
    if u.fields.content.Some? {
      OverlayThrough([], u.fields.content.value, live);
      assert TerminalsKnown(u.fields.content.value, live) <==> GetsThrough(u, live);
    }
  }

  lemma {:induction false} ApplyPresent(c: Option<ToolCall>, ch: Change, id: Id)
    ensures Apply(c, ch, id).Some? <==> !ch.Remove? && (c.Some? || Makes(ch))
  {
    if ch.Place? && c.None? {
      MadeThrough(ch.update, ch.status, ch.live, ch.now);
    }
  }

  /** A call as the change makes it. */
  predicate MadeBy(d: ToolCall, ch: Change, id: Id) {
    && d.id == (if ch.Place? then ch.update.id else id) && d.title == TitleMade(ch) && d.kind == KindMade(ch)
    && d.session == SessionMade(ch) && d.locations == LocationsMade(ch)
    && d.rawInput == InputMade(ch) && d.rawOutput == OutputMade(ch)
    && d.toolName == ToolNameMade(ch) && d.subagent == SubagentMade(ch)
  }

  lemma {:induction false} MakeFields(ch: Change, id: Id)
    requires Makes(ch)
    ensures Apply(None, ch, id).Some? && MadeBy(Apply(None, ch, id).value, ch, id)
  {
    ApplyPresent(None, ch, id);
  }

  function Written<T>(given: Option<T>, before: T): T {
    if given.Some? then given.value else before
  }

  /** A call `c` as the change leaves it. */
  predicate WrittenBy(c: ToolCall, d: ToolCall, ch: Change) {
    && d.id == c.id && d.toolName == c.toolName && d.subagent == c.subagent
    && d.title == Written(TitleGiven(ch), c.title) && d.kind == Written(KindGiven(ch), c.kind)
    && d.session == Written(SessionGiven(ch), c.session) && d.locations == Written(LocationsGiven(ch), c.locations)
    && d.rawInput == Written(InputGiven(ch), c.rawInput) && d.rawOutput == Written(OutputGiven(ch), c.rawOutput)
  }

  lemma {:induction false} ChangeFields(c: ToolCall, ch: Change, id: Id)
    requires !ch.Remove?
    ensures Apply(Some(c), ch, id).Some? && WrittenBy(c, Apply(Some(c), ch, id).value, ch)
  {
    match ch
    case Amend(u, live, now) =>
      if u.FieldsUpdate? {
        RefillThrough(Restate(c, u.update, now), u.update, live);
      }
    case Place(u, _, live, now) => RefillThrough(Restate(c, u, now), u, live);
    case _ =>
  }

  /** The status of `d` follows from that of `c` and the change, and so does the stamp. */
  predicate StatusWritten(c: ToolCall, d: ToolCall, ch: Change) {
    && d.status ==
       (match ch
        case Decide(choice) => if choice.rejects then Rejected else InProgress
        case CancelAll =>
          (match c.status
           case Pending => Canceled
           case Waiting(_) => Canceled
           case InProgress => Canceled
           case _ => c.status)
        case Place(_, _, _, _) => if Reaches(ch) then StatusPlaced(ch) else Renamed(ch, c.status)
        case _ => Renamed(ch, c.status))
    && d.startedAt ==
       (if StatusNamed(ch) == Some(AcpInProgress) && !c.status.InProgress? then Some(ch.now) else c.startedAt)
  }

  lemma {:induction false} RestateStatus(c: ToolCall, u: Update, live: set<Id>, now: nat)
    ensures
      var d := UpdateFields(c, u, live, now).0;
      && d.status == (if u.fields.status.Some? then Spelled(u.fields.status.value) else c.status)
      && d.startedAt
      == (if u.fields.status == Some(AcpInProgress) && !c.status.InProgress? then Some(now) else c.startedAt)
  {
    if u.fields.status.Some? {
      SpelledOut(u.fields.status.value);
    }
  }

  lemma {:induction false} PlacedStatus(ch: Change)
    requires Proper(ch) && ch.Place?
    ensures ch.status == StatusPlaced(ch)
  {
    if !ch.status.Waiting? {
      SpelledOut(ch.update.fields.status.value);
    }
  }

  lemma {:induction false} ChangeStatus(c: ToolCall, ch: Change, id: Id)
    requires !ch.Remove? && Proper(ch)
    ensures Apply(Some(c), ch, id).Some? && StatusWritten(c, Apply(Some(c), ch, id).value, ch)
  {
    match ch
    case Amend(u, live, now) =>
      if u.FieldsUpdate? {
        RestateStatus(c, u.update, live, now);
      }
    case Place(u, _, live, now) =>
      RestateStatus(c, u, live, now);
      RefillThrough(Restate(c, u, now), u, live);
      PlacedStatus(ch);
    case _ =>
  }

  lemma {:induction false} MakeStatus(ch: Change, id: Id)
    requires Makes(ch) && Proper(ch)
    ensures
      var d := Apply(None, ch, id);
      && d.Some? && d.value.status == (if ch.Place? then StatusPlaced(ch) else Failed)
      && d.value.startedAt == (if ch.Place? && StatusPlaced(ch).InProgress? then Some(ch.now) else None)
  {
    ApplyPresent(None, ch, id);
    if ch.Place? {
      PlacedStatus(ch);
    }
  }

  // ----- Histories -----

  predicate AllProper(chs: seq<Change>) {
    forall i | 0 <= i < |chs| :: Proper(chs[i])
  }

  lemma {:induction false} ApplyLast(chs: seq<Change>, id: Id)
    requires chs != []
    ensures ApplyAll(None, chs, id) == Apply(ApplyAll(None, Init(chs), id), Last(chs), id)
  {
    assert Init(chs) + [Last(chs)] == chs;
    ApplyAllAppend(None, Init(chs), [Last(chs)], id);
    ApplyIf(ApplyAll(None, Init(chs), id), true, Last(chs), id);
  }

  lemma {:induction false} PresentFold(chs: seq<Change>, id: Id)
    ensures ApplyAll(None, chs, id).Some? <==> Present(chs)
  {
    if chs != [] {
      PresentFold(Init(chs), id);
      ApplyLast(chs, id);
      ApplyPresent(ApplyAll(None, Init(chs), id), Last(chs), id);
    }
  }

  /** Every field is its last written value. */
  predicate LastWriter(d: ToolCall, chs: seq<Change>)
    requires Present(chs)
  {
    && d.title == LastWritten(chs, TitleGiven, TitleMade) && d.kind == LastWritten(chs, KindGiven, KindMade)
    && d.session == LastWritten(chs, SessionGiven, SessionMade)
    && d.locations == LastWritten(chs, LocationsGiven, LocationsMade)
    && d.rawInput == LastWritten(chs, InputGiven, InputMade)
    && d.rawOutput == LastWritten(chs, OutputGiven, OutputMade)
    && d.toolName == LastWritten(chs, NeverGiven, ToolNameMade)
    && d.subagent == LastWritten(chs, NeverGiven, SubagentMade)
  }

  lemma {:induction false} FieldsFold(chs: seq<Change>, id: Id)
    requires Present(chs)
    ensures ApplyAll(None, chs, id).Some? && LastWriter(ApplyAll(None, chs, id).value, chs)
  {
    var init, ch := Init(chs), Last(chs);
    ApplyLast(chs, id);
    PresentFold(init, id);
    if Present(init) {
      FieldsFold(init, id);
      ChangeFields(ApplyAll(None, init, id).value, ch, id);
    } else {
      MakeFields(ch, id);
    }
  }

  lemma {:induction false} StatusFold(chs: seq<Change>, id: Id)
    requires Present(chs) && AllProper(chs)
    ensures
      var c := ApplyAll(None, chs, id);
      c.Some? && c.value.status == StatusAfter(chs) && c.value.startedAt == StartAfter(chs)
  {
    var init, ch := Init(chs), Last(chs);
    ApplyLast(chs, id);
    PresentFold(init, id);
    assert Proper(chs[|chs| - 1]);
    if Present(init) {
      StatusFold(init, id);
      ChangeStatus(ApplyAll(None, init, id).value, ch, id);
    } else {
      MakeStatus(ch, id);
    }
  }

  lemma {:induction false} ChangesProper(s: Thread, e: Event, id: Id)
    ensures AllProper(Changes(s, e, id))
  {
  }

  lemma {:induction false} HistoryProper(s: Thread, es: seq<Event>, id: Id)
    ensures AllProper(History(s, es, id))
    decreases |es|
  {
    if es != [] {
      ChangesProper(s, es[0], id);
      HistoryProper(Step(s, es[0]), es[1..], id);
    }
  }

  /**
    In every run, a call is recorded under an id exactly when the changes to that id say so, each
    of its fields is the last value written, and its status and start follow from the changes.
   */
  lemma {:induction false} FieldsAreLastWritten(es: seq<Event>, id: Id)
    ensures
      var c, chs := CallOf(Run(INITIAL, es), id), History(INITIAL, es, id);
      && (c.Some? <==> Present(chs))
      && (c.Some? ==>
            && LastWriter(c.value, chs) && c.value.id == id
            && c.value.status == StatusAfter(chs) && c.value.startedAt == StartAfter(chs))
  {
    var chs := History(INITIAL, es, id);
    CallIsFoldOfItsChanges(es, id);
    PresentFold(chs, id);
    HistoryProper(INITIAL, es, id);
    if Present(chs) {
      FieldsFold(chs, id);
      StatusFold(chs, id);
    }
  }

  // ----- The content -----

  /** The content an item stands for; a diff is known by its two texts. */
  predicate Became(item: AcpContent, c: ToolContent) {
    match item
    case AcpBlock(block) => c == BlockContent(block)
    case AcpDiff(_, oldText, newText) =>
      c.DiffContent? && c.oldText == (if oldText.Some? then oldText.value else []) && c.newText == newText
    case AcpTerminal(terminal) => c == TerminalContent(terminal)
    case AcpUnknown => false
  }

  predicate AllBecame(items: seq<AcpContent>, cs: seq<ToolContent>) {
    |cs| == |items| && forall i | 0 <= i < |items| :: Became(items[i], cs[i])
  }

  lemma {:induction false} RebuiltBecame(items: seq<AcpContent>, live: set<Id>)
    requires AllRecognised(items, live)
    ensures Rebuild(items, live).Ok? && AllBecame(items, Rebuild(items, live).value)
  {
    if items != [] {
      assert Recognised(items[0], live);
      assert forall i | 0 <= i < |items| - 1 :: items[1..][i] == items[i + 1];
      RebuiltBecame(items[1..], live);
    }
  }

  lemma {:induction false} UpdatedBecame(prior: seq<ToolContent>, items: seq<AcpContent>, live: set<Id>)
    requires AllRecognised(items, live)
    ensures UpdateContent(prior, items, live).1 && AllBecame(items, UpdateContent(prior, items, live).0)
  {
    UpdateEqualsRebuild(prior, items, live);
    RebuiltBecame(items, live);
    var a, b := UpdateContent(prior, items, live).0, Rebuild(items, live).value;
    forall i | 0 <= i < |items|
      ensures Became(items[i], a[i])
    {
      assert Agree(a[i], b[i]) && Became(items[i], b[i]);
    }
  }

  /** A raw output is shown as text where there is no content. */
  function OrOutput(cs: seq<ToolContent>, u: Update): seq<ToolContent> {
    if cs == [] && u.fields.rawOutput.Some? && u.fields.rawOutput.value.markdown.Some?
    then [BlockContent(TextBlock(u.fields.rawOutput.value.markdown.value))] else cs
  }

  /** The content after a change: replaced by the items given, or by the one piece given, or kept. */
  lemma {:induction false} ContentChange(c: ToolCall, ch: Change, id: Id)
    requires !ch.Remove?
    ensures
      var d, u := Apply(Some(c), ch, id), UpdateOf(ch);
      && d.Some?
      && (ch.Amend? && ch.amendment.ContentUpdate? ==> d.value.content == [ch.amendment.content])
      && (ch.Decide? || ch.CancelAll? ==> d.value.content == c.content)
      && (u.Some? && u.value.fields.content.None? ==> d.value.content == OrOutput(c.content, u.value))
      && (u.Some? && u.value.fields.content == Some([]) ==> d.value.content == OrOutput([], u.value))
      && (u.Some? && u.value.fields.content.Some? && u.value.fields.content.value != []
          && AllRecognised(u.value.fields.content.value, LiveAt(ch)) ==>
            AllBecame(u.value.fields.content.value, d.value.content))
  {
    var u := UpdateOf(ch);
    if u.Some? && u.value.fields.content.Some? && AllRecognised(u.value.fields.content.value, LiveAt(ch)) {
      UpdatedBecame(c.content, u.value.fields.content.value, LiveAt(ch));
    }
  }

  /** A call is made with exactly the items it was sent with, paths included, or with the notice that it is unknown. */
  lemma {:induction false} ContentMade(ch: Change, id: Id)
    requires Makes(ch)
    ensures
      var d := Apply(None, ch, id);
      && d.Some?
      && (ch.Amend? ==> d.value.content == [BlockContent(TextBlock(NOT_FOUND))])
      && (ch.Place? && ch.update.fields.content.None? ==> d.value.content == [])
      && (ch.Place? && ch.update.fields.content.Some? && AllRecognised(ch.update.fields.content.value, ch.live) ==>
            AllBecame(ch.update.fields.content.value, d.value.content))
  {
    ApplyPresent(None, ch, id);
    if ch.Place? && ch.update.fields.content.Some? && AllRecognised(ch.update.fields.content.value, ch.live) {
      RebuiltBecame(ch.update.fields.content.value, ch.live);
    }
  }

  // ----- One event -----

  /** An update to Completed that brings an output leaves the call completed with that output. */
  lemma {:induction false} CompletedWithItsOutput(s: Thread, u: Update, output: Json, now: nat)
    requires CallOf(s, u.id).Some? && GetsThrough(u, s.terms.live.Keys)
    requires u.fields.status == Some(AcpCompleted) && u.fields.rawOutput == Some(output)
    ensures
      var t := Step(s, EvUpdateTool(FieldsUpdate(u), now));
      var c := CallOf(t, u.id);
      && c.Some? && c.value.status == Completed && c.value.rawOutput == Some(output)
      && FindCall(t.entries, u.id).Some? && CompletedWithOutput(t.entries[FindCall(t.entries, u.id).value])
  {
    var ch := Amend(FieldsUpdate(u), s.terms.live.Keys, now);
    UpdatedCall(s, FieldsUpdate(u), now, u.id);
    ChangeFields(CallOf(s, u.id).value, ch, u.id);
    ChangeStatus(CallOf(s, u.id).value, ch, u.id);
  }
}
