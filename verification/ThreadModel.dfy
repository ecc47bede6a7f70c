/**
  The Agent Client Protocol thread as a state machine: its state, one function
  per operation, and the events that drive it. The class in AcpThread.dfy
  carries out the same operations in place and is proved against this model.
 */
module ThreadModel {
  import opened Prelude
  import opened Utf8
  import opened Float32
  import opened ContentBlocks
  import opened ToolCalls
  import Turns
  import Terminals

  datatype PlanStatus = PlanPending | PlanInProgress | PlanCompleted | PlanOther

  datatype PlanItem = PlanItem(content: Text, priority: int, status: PlanStatus)

  datatype Part = Part(thought: bool, block: Block)

  datatype Entry =
    | User(id: Option<Id>, content: Block, chunks: seq<ContentBlock>, indented: bool)
    | Assistant(parts: seq<Part>, indented: bool, subagentOutput: bool, subagent: Option<Id>)
    | Tool(call: ToolCall)
    | CompletedPlan(items: seq<PlanItem>)

  /** Text received but not yet shown, and the block it is meant for. */
  datatype Buffer = Buffer(pending: Text, perTick: nat, target: BlockId)

  datatype Choice = Choice(option: string, rejects: bool)

  datatype Answer = Selected(choice: Choice) | Unanswered

  /** Requests are numbered as they are issued; `answers` logs how their channels closed. */
  datatype Ledger = Ledger(issued: nat, answers: seq<(nat, Answer)>)

  datatype Thread = Thread(
    entries: seq<Entry>, texts: Store, buffer: Option<Buffer>, plan: seq<PlanItem>,
    turns: Turns.Turns, terms: Terminals.Terms, ledger: Ledger, hadError: bool)

  const INITIAL := Thread([], [], None, [], Turns.INITIAL, Terminals.INITIAL, Ledger(0, []), false)

  // ----- Streaming text -----

  function Flush(s: Thread): Thread {
    match s.buffer
    case None => s
    case Some(b) => s.(texts := AppendText(s.texts, b.target, b.pending), buffer := None)
  }

  function PushEntry(s: Thread, e: Entry): Thread {
    var f := Flush(s);
    f.(entries := f.entries + [e])
  }

  /** The last entry is an assistant message that a chunk with these tags joins. */
  predicate Joins(es: seq<Entry>, indented: bool, subagent: Option<Id>) {
    es != [] && Last(es).Assistant? && Last(es).indented == indented && Last(es).subagent == subagent
  }

  /** The chunk continues the last part of that message. */
  predicate Continues(es: seq<Entry>, thought: bool, indented: bool, subagent: Option<Id>) {
    Joins(es, indented, subagent) && Last(es).parts != [] && Last(Last(es).parts).thought == thought
  }

  predicate Streams(es: seq<Entry>, thought: bool, indented: bool, subagent: Option<Id>) {
    Continues(es, thought, indented, subagent) && Last(Last(es).parts).block.Markdown?
  }

  function BufferText(s: Thread, b: BlockId, text: Text): Thread {
    if s.buffer.Some? && s.buffer.value.target == b then
      var pending := s.buffer.value.pending + text;
      s.(buffer := Some(Buffer(pending, BytesPerTick(|pending|), b)))
    else
      Flush(s).(buffer := Some(Buffer(text, BytesPerTick(|text|), b)))
  }

  function SetLast(es: seq<Entry>, e: Entry): seq<Entry>
    requires es != []
  {
    Init(es) + [e]
  }

  /** The block a chunk with these tags goes to: an existing one, or an empty one to be added. */
  function TailBlock(es: seq<Entry>, thought: bool, indented: bool, subagent: Option<Id>): Block {
    if Continues(es, thought, indented, subagent) then Last(Last(es).parts).block else Empty
  }

  function SetTail(s: Thread, texts: Store, block: Block, thought: bool, indented: bool, subagent: Option<Id>): Thread {
    var part := Part(thought, block);
    if Joins(s.entries, indented, subagent) then
      var e := Last(s.entries);
      var kept := if Continues(s.entries, thought, indented, subagent) then Init(e.parts) else e.parts;
      s.(texts := texts, entries := SetLast(s.entries, e.(parts := kept + [part])))
    else
      PushEntry(s.(texts := texts), Assistant([part], indented, false, subagent))
  }

  /** A chunk put directly where it belongs, as a thread without a buffer would. */
  function Place(s: Thread, cb: ContentBlock, thought: bool, indented: bool, subagent: Option<Id>): Thread {
    var (texts, block) := Append(s.texts, TailBlock(s.entries, thought, indented, subagent), cb);
    SetTail(s, texts, block, thought, indented, subagent)
  }

  function PushAssistant(s: Thread, cb: ContentBlock, thought: bool, indented: bool, subagent: Option<Id>): Thread {
    if cb.TextBlock? && Streams(s.entries, thought, indented, subagent) then
      BufferText(s, Last(Last(s.entries).parts).block.id, cb.text)
    else if Joins(s.entries, indented, subagent) then
      Place(Flush(s), cb, thought, indented, subagent)
    else
      Place(s, cb, thought, indented, subagent)
  }

  /** One firing of the reveal timer. */
  function Tick(s: Thread): Thread {
    if s.buffer.None? || s.buffer.value.pending == [] then s
    else
      var b := s.buffer.value;
      var k := Ceil(b.pending, b.perTick);
      s.(texts := AppendText(s.texts, b.target, b.pending[..k]), buffer := Some(b.(pending := b.pending[k..])))
  }

  // ----- User messages -----

  function PushUser(s: Thread, id: Option<Id>, cb: ContentBlock, indented: bool): Thread {
    if s.entries != [] && Last(s.entries).User? && Last(s.entries).indented == indented then
      var f := Flush(s);
      var e := Last(f.entries);
      var (texts, block) := Append(f.texts, e.content, cb);
      f.(texts := texts,
         entries := SetLast(f.entries, User(if id.Some? then id else e.id, block, e.chunks + [cb], indented)))
    else
      var (texts, block) := Append(s.texts, Empty, cb);
      PushEntry(s.(texts := texts), User(id, block, [cb], indented))
  }

  /** A user chunk of a session update; one already in the current message is an echo. */
  function UserChunk(s: Thread, cb: ContentBlock): Thread {
    if s.entries != [] && Last(s.entries).User? && cb in Last(s.entries).chunks then s
    else PushUser(s, None, cb, false)
  }

  function PushMessage(s: Thread, id: Option<Id>, cbs: seq<ContentBlock>): Thread {
    var (texts, block) := Combined(s.texts, Empty, cbs);
    PushEntry(s.(texts := texts), User(id, block, cbs, false))
  }

  // ----- Tool calls and permissions -----

  predicate IsCall(e: Entry, id: Id) {
    e.Tool? && e.call.id == id
  }

  function FindCall(es: seq<Entry>, id: Id): (r: Option<nat>)
    ensures r.Some? ==> r.value < |es| && IsCall(es[r.value], id)
    ensures r.Some? ==> forall j | r.value < j < |es| :: !IsCall(es[j], id)
    ensures r.None? ==> forall j | 0 <= j < |es| :: !IsCall(es[j], id)
  {
    if es == [] then None
    else if IsCall(Last(es), id) then Some(|es| - 1)
    else FindCall(Init(es), id)
  }

  /** Overwriting or dropping a status drops the sender it owns. */
  function Retire(status: Status): seq<(nat, Answer)> {
    if status.Waiting? then [(status.tx, Unanswered)] else []
  }

  function RetireAll(es: seq<Entry>): seq<(nat, Answer)> {
    if es == [] then [] else RetireAll(Init(es)) + (if Last(es).Tool? then Retire(Last(es).call.status) else [])
  }

  function Log(l: Ledger, answers: seq<(nat, Answer)>): Ledger {
    l.(answers := l.answers + answers)
  }

  datatype ToolUpdate =
    | FieldsUpdate(update: Update)
    | ContentUpdate(id: Id, content: ToolContent)

  function UpdateId(u: ToolUpdate): Id {
    if u.FieldsUpdate? then u.update.id else u.id
  }

  const NOT_FOUND: Text := // Tool call not found
    [0x54, 0x6F, 0x6F, 0x6C, 0x20, 0x63, 0x61, 0x6C, 0x6C, 0x20, 0x6E, 0x6F, 0x74, 0x20, 0x66, 0x6F, 0x75, 0x6E, 0x64]

  function UpdateTool(s: Thread, u: ToolUpdate, now: nat): Thread {
    match FindCall(s.entries, UpdateId(u))
    case None => PushEntry(s, Tool(NotFound(UpdateId(u), NOT_FOUND)))
    case Some(ix) =>
      var call := s.entries[ix].call;
      match u
      case FieldsUpdate(update) =>
        var call' := UpdateFields(call, update, s.terms.live.Keys, now).0;
        s.(entries := s.entries[ix := Tool(call')],
           ledger := if update.fields.status.Some? then Log(s.ledger, Retire(call.status)) else s.ledger)
      case ContentUpdate(_, content) =>
        s.(entries := s.entries[ix := Tool(call.(content := [content]))])
  }

  /** `upsert_tool_call_inner`, which owns `status` and drops it when it fails. */
  function UpsertTool(s: Thread, u: Update, status: Status, now: nat): Thread {
    match FindCall(s.entries, u.id)
    case Some(ix) =>
      var call := s.entries[ix].call;
      var (call', ok) := UpdateFields(call, u, s.terms.live.Keys, now);
      if ok then
        s.(entries := s.entries[ix := Tool(call'.(status := status))], ledger := Log(s.ledger, Retire(call.status)))
      else
        s.(entries := s.entries[ix := Tool(call')],
           ledger := Log(s.ledger, (if u.fields.status.Some? then Retire(call.status) else []) + Retire(status)))
    case None =>
      match NewCall(u, status, s.terms.live.Keys, now)
      case Err => s.(ledger := Log(s.ledger, Retire(status)))
      case Ok(call) => PushEntry(s, Tool(call))
  }

  function Issue(s: Thread): Thread {
    s.(ledger := s.ledger.(issued := s.ledger.issued + 1))
  }

  function RequestPermission(s: Thread, u: Update, now: nat): Thread {
    UpsertTool(Issue(s), u, Waiting(s.ledger.issued), now)
  }

  /** The answer goes out on the old status's channel; the new status carries no time stamp. */
  function Authorize(s: Thread, id: Id, choice: Choice): Thread {
    match FindCall(s.entries, id)
    case None => s
    case Some(ix) =>
      var call := s.entries[ix].call;
      s.(entries := s.entries[ix := Tool(call.(status := if choice.rejects then Rejected else InProgress))],
         ledger := if call.status.Waiting? then Log(s.ledger, [(call.status.tx, Selected(choice))]) else s.ledger)
  }

  function CancelEntry(e: Entry): Entry {
    if e.Tool? then Tool(Cancel(e.call)) else e
  }

  function CancelEntries(es: seq<Entry>): (r: seq<Entry>)
  {
    seq(|es|, i requires 0 <= i < |es| => CancelEntry(es[i]))
  }

  function MarkCanceled(s: Thread): Thread {
    s.(entries := CancelEntries(s.entries), ledger := Log(s.ledger, RetireAll(s.entries)))
  }

  /** Entries from `n` on are dropped, and with them the senders they own. */
  function TruncateEntries(s: Thread, n: nat): Thread
    requires n <= |s.entries|
  {
    s.(entries := s.entries[..n], ledger := Log(s.ledger, RetireAll(s.entries[n..])))
  }

  // ----- Plans -----

  function Unfinished(plan: seq<PlanItem>): seq<PlanItem> {
    if plan == [] then []
    else (if plan[0].status.PlanCompleted? then [] else [plan[0]]) + Unfinished(plan[1..])
  }

  predicate StillPending(plan: seq<PlanItem>) {
    exists i | 0 <= i < |plan| :: plan[i].status.PlanPending? || plan[i].status.PlanInProgress?
  }

  function SnapshotPlan(s: Thread): Thread {
    if s.plan != [] && !StillPending(s.plan) then PushEntry(s.(plan := []), CompletedPlan(s.plan)) else s
  }

  // ----- Turns -----

  /** What `cancel` does to the transcript when a turn is running. */
  function CancelEffects(s: Thread): Thread {
    if s.turns.running.None? then s else MarkCanceled(Flush(s))
  }

  function BeginTurn(s: Thread, p: Turns.Prompt): Thread {
    var c := CancelEffects(s.(plan := Unfinished(s.plan), hadError := false));
    c.(turns := Turns.Begin(c.turns, p))
  }

  /** The send task stops waiting; a message enters the transcript only now. */
  function StartTurn(s: Thread, t: nat): Thread {
    if !Turns.CanStart(s.turns, t) then s
    else
      var c := s.(turns := Turns.Start(s.turns, t));
      match s.turns.prompts[t - 1]
      case Message(id, blocks) => PushMessage(c, Some(id), blocks)
      case Retry => c
  }

  function CancelTurn(s: Thread): Thread {
    var c := CancelEffects(s);
    c.(turns := Turns.Abandon(c.turns))
  }

  function LastUser(es: seq<Entry>): (r: Option<nat>)
    ensures r.Some? ==> r.value < |es| && es[r.value].User?
    ensures r.Some? ==> forall j | r.value < j < |es| :: !es[j].User?
    ensures r.None? ==> forall j | 0 <= j < |es| :: !es[j].User?
  {
    if es == [] then None else if Last(es).User? then Some(|es| - 1) else LastUser(Init(es))
  }

  predicate CompletedWithOutput(e: Entry) {
    e.Tool? && e.call.status.Completed? && e.call.rawOutput.Some?
  }

  predicate AnyCompleted(es: seq<Entry>, start: nat) {
    exists i | start <= i < |es| :: CompletedWithOutput(es[i])
  }

  function Refuse(s: Thread): Thread {
    var c := s.(hadError := true);
    match LastUser(c.entries)
    case None => c
    case Some(ix) => if AnyCompleted(c.entries, ix + 1) then c else TruncateEntries(c, ix)
  }

  function HandleResponse(s: Thread, response: Turns.Response): Thread {
    match response
    case Failure => s.(hadError := true)
    case Answered(MaxTokens) => s.(hadError := true)
    case Answered(Cancelled) => MarkCanceled(s)
    case Answered(Refusal) => Refuse(SnapshotPlan(s))
    case Answered(_) => SnapshotPlan(s)
  }

  /** Everything but the clearing of `running_turn` happens for superseded turns too. */
  function CompleteTurn(s: Thread, t: nat): Thread {
    match Turns.Outcome(s.turns, t)
    case None => s
    case Some(response) => HandleResponse(Flush(s.(turns := Turns.Complete(s.turns, t))), response)
  }

  function FindUser(es: seq<Entry>, id: Id): (r: Option<nat>)
    ensures r.Some? ==> r.value < |es| && es[r.value].User? && es[r.value].id == Some(id)
    ensures r.Some? ==> forall j | 0 <= j < r.value :: !(es[j].User? && es[j].id == Some(id))
    ensures r.None? ==> forall j | 0 <= j < |es| :: !(es[j].User? && es[j].id == Some(id))
  {
    if es == [] then None
    else
      var r := FindUser(Init(es), id);
      if r.Some? then r else if Last(es).User? && Last(es).id == Some(id) then Some(|es| - 1) else None
  }

  function TerminalIds(es: seq<Entry>): set<Id> {
    set i, j | 0 <= i < |es| && es[i].Tool? && 0 <= j < |es[i].call.content| && es[i].call.content[j].TerminalContent?
      :: es[i].call.content[j].terminal
  }

  /** The second half of `rewind`, once the agent has truncated its side. */
  function RewindEnd(s: Thread, id: Id): Thread {
    match FindUser(s.entries, id)
    case None => s
    case Some(ix) =>
      TruncateEntries(s, ix).(terms := Terminals.Step(s.terms, Terminals.Release(TerminalIds(s.entries[ix..]))))
  }

  function LastAssistant(es: seq<Entry>): (r: Option<nat>)
    ensures r.Some? ==> r.value < |es| && es[r.value].Assistant?
    ensures r.Some? ==> forall j | r.value < j < |es| :: !es[j].Assistant?
    ensures r.None? ==> forall j | 0 <= j < |es| :: !es[j].Assistant?
  {
    if es == [] then None else if Last(es).Assistant? then Some(|es| - 1) else LastAssistant(Init(es))
  }

  function MarkSubagent(s: Thread): Thread {
    match LastAssistant(s.entries)
    case None => s
    case Some(ix) => s.(entries := s.entries[ix := s.entries[ix].(subagentOutput := true)])
  }

  // ----- Runs -----

  datatype Event =
    | EvUserChunk(block: ContentBlock)
    | EvPushUser(message: Option<Id>, block: ContentBlock, indented: bool)
    | EvPushMessage(message: Option<Id>, blocks: seq<ContentBlock>)
    | EvAssistant(block: ContentBlock, thought: bool, indented: bool, subagent: Option<Id>)
    | EvTick
    | EvUpdateTool(toolUpdate: ToolUpdate, now: nat)
    | EvUpsertTool(update: Update, status: AcpStatus, now: nat)
    | EvRequest(update: Update, now: nat)
    | EvAuthorize(id: Id, choice: Choice)
    | EvUpdatePlan(plan: seq<PlanItem>)
    | EvSnapshotPlan
    | EvClearPlan
    | EvBegin(prompt: Turns.Prompt)
    | EvStart(turn: nat)
    | EvFinish(turn: nat, response: Turns.Response)
    | EvComplete(turn: nat)
    | EvCancel
    | EvDrop(turn: nat)
    | EvRewindBegin
    | EvRewindEnd(id: Id)
    | EvTerminal(event: Terminals.Event)
    | EvMarkSubagent

  function Step(s: Thread, e: Event): Thread {
    match e
    case EvUserChunk(cb) => UserChunk(s, cb)
    case EvPushUser(id, cb, indented) => PushUser(s, id, cb, indented)
    case EvPushMessage(id, cbs) => if cbs == [] then s else PushMessage(s, id, cbs)
    case EvAssistant(cb, thought, indented, subagent) => PushAssistant(s, cb, thought, indented, subagent)
    case EvTick => Tick(s)
    case EvUpdateTool(u, now) => UpdateTool(s, u, now)
    case EvUpsertTool(u, status, now) =>
      UpsertTool(s, u.(fields := u.fields.(status := Some(status))), FromAcp(status), now)
    case EvRequest(u, now) => RequestPermission(s, u, now)
    case EvAuthorize(id, choice) => Authorize(s, id, choice)
    case EvUpdatePlan(plan) => s.(plan := plan)
    case EvSnapshotPlan => SnapshotPlan(s)
    case EvClearPlan => s.(plan := [])
    case EvBegin(p) => BeginTurn(s, p)
    case EvStart(t) => StartTurn(s, t)
    case EvFinish(t, r) => s.(turns := Turns.Finish(s.turns, t, r))
    case EvComplete(t) => CompleteTurn(s, t)
    case EvCancel => CancelTurn(s)
    case EvDrop(t) => s.(turns := Turns.DropOrphan(s.turns, t))
    case EvRewindBegin => Flush(s)
    case EvRewindEnd(id) => RewindEnd(s, id)
    case EvTerminal(ev) => s.(terms := Terminals.Step(s.terms, ev))
    case EvMarkSubagent => MarkSubagent(s)
  }

  function Run(s: Thread, es: seq<Event>): Thread
    decreases |es|
  {
    if es == [] then s else Run(Step(s, es[0]), es[1..])
  }

  lemma {:induction false} RunAppend(s: Thread, a: seq<Event>, b: seq<Event>)
    ensures Run(s, a + b) == Run(Run(s, a), b)
    decreases |a|
  {
    if a == [] {
      assert a + b == b;
    } else {
      assert (a + b)[1..] == a[1..] + b;
      RunAppend(Step(s, a[0]), a[1..], b);
    }
  }

  lemma {:induction false} RunLast(s: Thread, es: seq<Event>, e: Event)
    ensures Run(s, es + [e]) == Step(Run(s, es), e)
  {
    RunAppend(s, es, [e]);
    assert Run(Run(s, es), [e]) == Run(Step(Run(s, es), e), []);
  }
}
