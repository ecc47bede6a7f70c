/** The reveal timer: how soon it empties the buffer, and that it never cuts a character. */
module Reveal {
  import opened Prelude
  import opened Utf8
  import opened Float32
  import opened ContentBlocks
  import opened ToolCalls
  import opened ThreadModel
  import opened ThreadShapes
  import opened Streaming
  import Turns

  // ----- Thirteen ticks -----

  function PendingLength(s: Thread): nat {
    if s.buffer.Some? then |s.buffer.value.pending| else 0
  }

  /** The rate was computed from a pending text at least as long as the present one. */
  ghost predicate Paced(s: Thread) {
    s.buffer.Some? ==> |s.buffer.value.pending| <= 13 * s.buffer.value.perTick
  }

  lemma {:induction false} TickPaced(s: Thread)
    requires Paced(s)
    ensures Paced(Tick(s))
    ensures PendingLength(s) > 0 ==> PendingLength(Tick(s)) < PendingLength(s)
    ensures s.buffer.Some? ==>
      Tick(s).buffer.Some? && Tick(s).buffer.value.perTick == s.buffer.value.perTick
      && (PendingLength(Tick(s)) == 0 || PendingLength(Tick(s)) + s.buffer.value.perTick <= PendingLength(s))
  {
  }

  lemma {:induction false} AssistantPaced(
    s: Thread, cb: ContentBlock, thought: bool, indented: bool, subagent: Option<Id>)
    requires Paced(s)
    ensures Paced(PushAssistant(s, cb, thought, indented, subagent))
  {
    if cb.TextBlock? && Streams(s.entries, thought, indented, subagent) {
      var t := BufferText(s, Last(Last(s.entries).parts).block.id, cb.text);
      ThirteenTicksCover(PendingLength(t));
    } else if Joins(s.entries, indented, subagent) {
      PlaceUnbuffered(Flush(s), cb, thought, indented, subagent);
    }
  }

  /** Only assistant text and ticks change a buffer; anything else keeps it or empties it. */
  lemma {:induction false} BufferKeptOrGone(s: Thread, e: Event)
    requires !e.EvAssistant? && !e.EvTick?
    ensures Step(s, e).buffer == s.buffer || Step(s, e).buffer.None?
  {
    if ToolEvent(e) {
      ToolEventShape(s, e);
    } else if MessageEvent(e) {
      MessageKeptOrGone(s, e);
    } else if e.EvComplete? {
      CompleteUnbuffered(s, e.turn);
    }
  }

  lemma {:induction false} MessageKeptOrGone(s: Thread, e: Event)
    requires MessageEvent(e) && !e.EvAssistant?
    ensures Step(s, e).buffer == s.buffer || Step(s, e).buffer.None?
  {
  }

  lemma {:induction false} CompleteUnbuffered(s: Thread, t: nat)
    ensures CompleteTurn(s, t).buffer == s.buffer || CompleteTurn(s, t).buffer.None?
  {
    if Turns.Outcome(s.turns, t).Some? {
      HandledUnbuffered(Flush(s.(turns := Turns.Complete(s.turns, t))), Turns.Outcome(s.turns, t).value);
    }
  }

  lemma {:induction false} HandledUnbuffered(s: Thread, r: Turns.Response)
    requires s.buffer.None?
    ensures HandleResponse(s, r).buffer.None?
  {
  }

  lemma {:induction false} RunPaced(s: Thread, es: seq<Event>)
    requires Paced(s)
    ensures Paced(Run(s, es))
    decreases |es|
  {
    if es != [] {
      match es[0] {
        case EvAssistant(cb, thought, indented, subagent) => AssistantPaced(s, cb, thought, indented, subagent);
        case EvTick => TickPaced(s);
        case _ => BufferKeptOrGone(s, es[0]);
      }
      RunPaced(Step(s, es[0]), es[1..]);
    }
  }

  function Ticks(s: Thread, n: nat): Thread
    decreases n
  {
    if n == 0 then s else Ticks(Tick(s), n - 1)
  }

  lemma {:induction false} TicksDrain(s: Thread, n: nat)
    requires Paced(s) && (s.buffer.Some? ==> PendingLength(s) <= n * s.buffer.value.perTick)
    ensures PendingLength(Ticks(s, n)) == 0
    decreases n
  {
    if n > 0 && s.buffer.Some? {
      TickPaced(s);
      var r := s.buffer.value.perTick;
      assert n * r == (n - 1) * r + r;
      TicksDrain(Tick(s), n - 1);
    } else if n > 0 {
      TicksDrain(Tick(s), n - 1);
    }
  }

  /** What a tick does: everything up to the first boundary at or after the rate goes to the block. */
  lemma {:induction false} TickShowsExactly(s: Thread, b: Buffer)
    requires s.buffer == Some(b) && b.target < |s.texts|
    ensures
      var t := Step(s, EvTick);
      exists k ::
        && 0 <= k <= |b.pending| && Boundary(b.pending, k)
        && (k == |b.pending| || b.perTick <= k) && (forall j | b.perTick <= j < k :: !Boundary(b.pending, j))
        && t == s.(texts := s.texts[b.target := s.texts[b.target] + b.pending[..k]],
                   buffer := Some(b.(pending := b.pending[k..])))
  {
    var k := Ceil(b.pending, b.perTick);
    if b.pending == [] {
      assert s.texts[b.target] + [] == s.texts[b.target];
      assert s.texts[b.target := s.texts[b.target]] == s.texts;
      assert b.pending[..k] == [] && b.pending[k..] == b.pending;
    }
    assert Boundary(b.pending, k);
  }

  /** From every reachable state, thirteen ticks without new text show everything there is. */
  lemma {:induction false} ThirteenTicksDrain(es: seq<Event>)
    ensures PendingLength(Ticks(Run(INITIAL, es), 13)) == 0
    ensures PendingLength(Run(INITIAL, es)) > 0 ==>
      PendingLength(Tick(Run(INITIAL, es))) < PendingLength(Run(INITIAL, es))
  {
    var s := Run(INITIAL, es);
    RunPaced(INITIAL, es);
    TicksDrain(s, 13);
    TickPaced(s);
  }

  // ----- Twelve are too few -----

  /** A tick shows its rate, and at most three bytes more to reach the end of a character. */
  lemma {:induction false} TickShows(s: Thread)
    requires s.buffer.Some? && WellFormed(s.buffer.value.pending)
    ensures
      var b, c := s.buffer.value, Tick(s).buffer;
      && c.Some? && c.value.perTick == b.perTick && WellFormed(c.value.pending)
      && |b.pending| <= |c.value.pending| + b.perTick + 3
  {
    var b := s.buffer.value;
    if b.pending != [] {
      SplitAtBoundary(b.pending, Ceil(b.pending, b.perTick));
      if b.perTick <= |b.pending| {
        CeilWithinThree(b.pending, b.perTick);
      }
    }
  }

  lemma {:induction false} TicksShow(s: Thread, n: nat)
    requires s.buffer.Some? && WellFormed(s.buffer.value.pending)
    ensures PendingLength(s) <= PendingLength(Ticks(s, n)) + n * (s.buffer.value.perTick + 3)
    decreases n
  {
    if n > 0 {
      TickShows(s);
      TicksShow(Tick(s), n - 1);
      var r := s.buffer.value.perTick + 3;
      assert n * r == (n - 1) * r + r;
    }
  }

  /** After a long text has been buffered at its rate, twelve ticks leave some of it to be shown. */
  lemma {:induction false} TwelveTicksLeaveText(s: Thread, target: BlockId, text: Text)
    requires WellFormed(text) && (s.buffer.Some? ==> WellFormed(s.buffer.value.pending)) && |text| > 1204
    ensures PendingLength(Ticks(BufferText(s, target, text), 12)) > 0
  {
    var t := BufferText(s, target, text);
    if s.buffer.Some? {
      JoinWellFormed(s.buffer.value.pending, text);
    }
    TicksShow(t, 12);
    TwelveTicksDoNot(PendingLength(t));
  }

  // ----- Characters stay whole -----

  predicate CleanBlock(cb: ContentBlock) {
    WellFormed(Rendered(cb)) && (cb.LinkBlock? ==> WellFormed(cb.markdown))
  }

  predicate CleanBlocks(cbs: seq<ContentBlock>) {
    forall i | 0 <= i < |cbs| :: CleanBlock(cbs[i])
  }

  predicate CleanPrompt(p: Turns.Prompt) {
    p.Message? ==> CleanBlocks(p.blocks)
  }

  /** All text an event brings in is a Rust string. */
  predicate CleanEvent(e: Event) {
    match e
    case EvUserChunk(cb) => CleanBlock(cb)
    case EvPushUser(_, cb, _) => CleanBlock(cb)
    case EvPushMessage(_, cbs) => CleanBlocks(cbs)
    case EvAssistant(cb, _, _, _) => CleanBlock(cb)
    case EvBegin(p) => CleanPrompt(p)
    case _ => true
  }

  predicate CleanStore(store: Store) {
    forall b | 0 <= b < |store| :: WellFormed(store[b])
  }

  predicate CleanHandle(block: Block) {
    block.Link? ==> WellFormed(block.markdown)
  }

  predicate CleanEntry(e: Entry) {
    forall k | 0 <= k < Slots(e) :: CleanHandle(Slot(e, k))
  }

  ghost predicate Clean(s: Thread) {
    && CleanStore(s.texts)
    && (s.buffer.Some? ==> WellFormed(s.buffer.value.pending))
    && (forall i | 0 <= i < |s.entries| :: CleanEntry(s.entries[i]))
    && (forall t | 0 <= t < |s.turns.prompts| :: CleanPrompt(s.turns.prompts[t]))
  }

  lemma {:induction false} StoredClean(store: Store, text: Text)
    requires CleanStore(store) && WellFormed(text)
    ensures CleanStore(store + [text])
  {
  }

  lemma {:induction false} AppendedClean(store: Store, b: BlockId, text: Text)
    requires CleanStore(store) && WellFormed(text)
    ensures CleanStore(AppendText(store, b, text))
  {
    if b < |store| {
      JoinWellFormed(store[b], text);
    }
  }

  lemma {:induction false} AppendClean(store: Store, block: Block, cb: ContentBlock)
    requires CleanStore(store) && CleanHandle(block) && CleanBlock(cb)
    ensures CleanStore(Append(store, block, cb).0) && CleanHandle(Append(store, block, cb).1)
  {
    SeparatorsClean();
    var text := Rendered(cb);
    match block
    case Markdown(b) => AppendedClean(store, b, text);
    case Link(md) =>
      JoinWellFormed(md, [NEWLINE]);
      JoinWellFormed(md + [NEWLINE], text);
      StoredClean(store, md + [NEWLINE] + text);
    case Image =>
      JoinWellFormed(IMAGE_MARKDOWN + [NEWLINE], text);
      StoredClean(store, IMAGE_MARKDOWN + [NEWLINE] + text);
    case Empty => StoredClean(store, text);
  }

  lemma {:induction false} SeparatorsClean()
    ensures WellFormed([NEWLINE]) && WellFormed(IMAGE_MARKDOWN + [NEWLINE])
  {
    Ascii([NEWLINE]);
    Ascii(IMAGE_MARKDOWN + [NEWLINE]);
  }

  lemma {:induction false} Ascii(s: Text)
    requires forall i | 0 <= i < |s| :: s[i] < 0x80
    ensures WellFormed(s)
  {
    if s != [] {
      Ascii(s[1..]);
      assert s[..1] == [s[0]];
    }
  }

  lemma {:induction false} CombinedClean(store: Store, block: Block, cbs: seq<ContentBlock>)
    requires CleanStore(store) && CleanHandle(block) && CleanBlocks(cbs)
    ensures CleanStore(Combined(store, block, cbs).0) && CleanHandle(Combined(store, block, cbs).1)
    decreases |cbs|
  {
    if cbs != [] {
      AppendClean(store, block, cbs[0]);
      var (store', block') := Append(store, block, cbs[0]);
      CombinedClean(store', block', cbs[1..]);
    }
  }

  lemma {:induction false} FlushClean(s: Thread)
    requires Clean(s)
    ensures Clean(Flush(s))
  {
    if s.buffer.Some? && s.buffer.value.target < |s.texts| {
      JoinWellFormed(s.texts[s.buffer.value.target], s.buffer.value.pending);
    }
  }

  lemma {:induction false} TickClean(s: Thread)
    requires Clean(s)
    ensures Clean(Tick(s))
  {
    if s.buffer.Some? && s.buffer.value.pending != [] {
      var b := s.buffer.value;
      var k := Ceil(b.pending, b.perTick);
      SplitAtBoundary(b.pending, k);
      if b.target < |s.texts| {
        JoinWellFormed(s.texts[b.target], b.pending[..k]);
      }
    }
  }

  lemma {:induction false} PushClean(s: Thread, e: Entry)
    requires Clean(s) && CleanEntry(e)
    ensures Clean(PushEntry(s, e))
  {
    FlushClean(s);
  }

  lemma {:induction false} SetTailClean(
    s: Thread, texts: Store, block: Block, thought: bool, indented: bool, subagent: Option<Id>)
    requires Clean(s.(texts := texts)) && CleanHandle(block)
    ensures Clean(SetTail(s, texts, block, thought, indented, subagent))
  {
    if Joins(s.entries, indented, subagent) {
      var n := |s.entries|;
      var d := s.entries[n - 1];
      var t := SetTail(s, texts, block, thought, indented, subagent);
      assert CleanEntry(d);
      assert CleanEntry(t.entries[n - 1]) by {
        var d' := t.entries[n - 1];
        assert forall k | 0 <= k < Slots(d') - 1 :: Slot(d', k) == Slot(d, k);
      }
      assert forall i | 0 <= i < n - 1 :: t.entries[i] == s.entries[i];
    } else {
      PushClean(s.(texts := texts), Assistant([Part(thought, block)], indented, false, subagent));
    }
  }

  lemma {:induction false} PlaceClean(s: Thread, cb: ContentBlock, thought: bool, indented: bool, subagent: Option<Id>)
    requires Clean(s) && CleanBlock(cb)
    ensures Clean(Place(s, cb, thought, indented, subagent))
  {
    var tail := TailBlock(s.entries, thought, indented, subagent);
    if Continues(s.entries, thought, indented, subagent) {
      assert CleanEntry(s.entries[|s.entries| - 1]);
      assert Slot(Last(s.entries), |Last(s.entries).parts| - 1) == tail;
    }
    AppendClean(s.texts, tail, cb);
    var (texts, block) := Append(s.texts, tail, cb);
    SetTailClean(s, texts, block, thought, indented, subagent);
  }

  lemma {:induction false} BufferClean(s: Thread, b: BlockId, text: Text)
    requires Clean(s) && WellFormed(text)
    ensures Clean(BufferText(s, b, text))
  {
    FlushClean(s);
    if s.buffer.Some? {
      JoinWellFormed(s.buffer.value.pending, text);
    }
  }

  lemma {:induction false} AssistantClean(
    s: Thread, cb: ContentBlock, thought: bool, indented: bool, subagent: Option<Id>)
    requires Clean(s) && CleanBlock(cb)
    ensures Clean(PushAssistant(s, cb, thought, indented, subagent))
  {
    FlushClean(s);
    if cb.TextBlock? && Streams(s.entries, thought, indented, subagent) {
      BufferClean(s, Last(Last(s.entries).parts).block.id, cb.text);
    } else if Joins(s.entries, indented, subagent) {
      PlaceClean(Flush(s), cb, thought, indented, subagent);
    } else {
      PlaceClean(s, cb, thought, indented, subagent);
    }
  }

  lemma {:induction false} UserClean(s: Thread, id: Option<Id>, cb: ContentBlock, indented: bool)
    requires Clean(s) && CleanBlock(cb)
    ensures Clean(PushUser(s, id, cb, indented))
  {
    if s.entries != [] && Last(s.entries).User? && Last(s.entries).indented == indented {
      FlushClean(s);
      var f := Flush(s);
      assert CleanEntry(f.entries[|f.entries| - 1]);
      assert Slot(Last(f.entries), 0) == Last(f.entries).content;
      AppendClean(f.texts, Last(f.entries).content, cb);
    } else {
      AppendClean(s.texts, Empty, cb);
      var (texts, block) := Append(s.texts, Empty, cb);
      PushClean(s.(texts := texts), User(id, block, [cb], indented));
    }
  }

  lemma {:induction false} MessageClean(s: Thread, id: Option<Id>, cbs: seq<ContentBlock>)
    requires Clean(s) && CleanBlocks(cbs)
    ensures Clean(PushMessage(s, id, cbs))
  {
    CombinedClean(s.texts, Empty, cbs);
    var (texts, block) := Combined(s.texts, Empty, cbs);
    PushClean(s.(texts := texts), User(id, block, cbs, false));
  }

  /** Entries only lose text-bearing slots, or keep them. */
  lemma {:induction false} EntriesClean(s: Thread, t: Thread)
    requires Clean(s) && t.texts == s.texts && t.buffer == s.buffer && t.turns.prompts == s.turns.prompts
    requires |t.entries| <= |s.entries| && forall i | 0 <= i < |t.entries| :: SameSlots(s.entries[i], t.entries[i])
    ensures Clean(t)
  {
    forall i | 0 <= i < |t.entries|
      ensures CleanEntry(t.entries[i])
    {
      assert CleanEntry(s.entries[i]) && SameSlots(s.entries[i], t.entries[i]);
    }
  }

  lemma {:induction false} ToolsClean(s: Thread, t: Thread)
    requires Clean(s) && (ToolEdit(s, t) || ToolPush(s, t))
    ensures Clean(t)
  {
    if ToolEdit(s, t) {
      EntriesClean(s, t);
    } else {
      PushClean(s.(ledger := t.ledger), Last(t.entries));
    }
  }

  lemma {:induction false} SnapshotClean(s: Thread)
    requires Clean(s)
    ensures Clean(SnapshotPlan(s))
  {
    if s.plan != [] && !StillPending(s.plan) {
      PushClean(s.(plan := []), CompletedPlan(s.plan));
    }
  }

  lemma {:induction false} CanceledClean(s: Thread)
    requires Clean(s)
    ensures Clean(MarkCanceled(s))
  {
    EntriesClean(s, MarkCanceled(s));
  }

  lemma {:induction false} RefuseClean(s: Thread)
    requires Clean(s)
    ensures Clean(Refuse(s))
  {
    EntriesClean(s, Refuse(s));
  }

  lemma {:induction false} HandledClean(s: Thread, r: Turns.Response)
    requires Clean(s)
    ensures Clean(HandleResponse(s, r))
  {
    match r
    case Answered(Cancelled) => CanceledClean(s);
    case Answered(Refusal) => SnapshotClean(s); RefuseClean(SnapshotPlan(s));
    case Answered(MaxTokens) =>
    case Answered(_) => SnapshotClean(s);
    case Failure =>
  }

  lemma {:induction false} CompleteClean(s: Thread, t: nat)
    requires Clean(s)
    ensures Clean(CompleteTurn(s, t))
  {
    var c := s.(turns := Turns.Complete(s.turns, t));
    FlushClean(c);
    if Turns.Outcome(s.turns, t).Some? {
      HandledClean(Flush(c), Turns.Outcome(s.turns, t).value);
    }
  }

  lemma {:induction false} CancelClean(s: Thread)
    requires Clean(s)
    ensures Clean(CancelEffects(s))
  {
    FlushClean(s);
    CanceledClean(Flush(s));
  }

  lemma {:induction false} StartClean(s: Thread, t: nat)
    requires Clean(s)
    ensures Clean(StartTurn(s, t))
  {
    if Turns.CanStart(s.turns, t) {
      var p := s.turns.prompts[t - 1];
      assert CleanPrompt(p);
      if p.Message? {
        MessageClean(s.(turns := Turns.Start(s.turns, t)), Some(p.id), p.blocks);
      }
    }
  }

  lemma {:induction false} StepClean(s: Thread, e: Event)
    requires Clean(s) && CleanEvent(e)
    ensures Clean(Step(s, e))
  {
    if ToolEvent(e) {
      ToolEventShape(s, e);
      ToolsClean(s, Step(s, e));
    } else if MessageEvent(e) {
      MessageStepClean(s, e);
    } else {
      OtherStepClean(s, e);
    }
  }

  lemma {:induction false} MessageStepClean(s: Thread, e: Event)
    requires Clean(s) && CleanEvent(e) && MessageEvent(e)
    ensures Clean(Step(s, e))
  {
    match e
    case EvUserChunk(cb) => UserClean(s, None, cb, false);
    case EvPushUser(id, cb, indented) => UserClean(s, id, cb, indented);
    case EvPushMessage(id, cbs) => MessageClean(s, id, cbs);
    case EvAssistant(cb, thought, indented, subagent) => AssistantClean(s, cb, thought, indented, subagent);
    case EvMarkSubagent => EntriesClean(s, MarkSubagent(s));
    case EvSnapshotPlan => SnapshotClean(s);
    case EvStart(t) => StartClean(s, t);
  }

  lemma {:induction false} OtherStepClean(s: Thread, e: Event)
    requires Clean(s) && CleanEvent(e) && !ToolEvent(e) && !MessageEvent(e)
    ensures Clean(Step(s, e))
  {
    match e
    case EvTick => TickClean(s);
    case EvBegin(p) => CancelClean(s.(plan := Unfinished(s.plan), hadError := false));
    case EvCancel => CancelClean(s);
    case EvComplete(t) => CompleteClean(s, t);
    case EvRewindBegin => FlushClean(s);
    case EvRewindEnd(_) => EntriesClean(s, Step(s, e));
    case _ =>
  }

  /** Fed with strings, every block and the buffer hold strings after any run: no tick splits a character. */
  lemma {:induction false} NoCharacterSplit(s: Thread, es: seq<Event>)
    requires Clean(s) && forall i | 0 <= i < |es| :: CleanEvent(es[i])
    ensures Clean(Run(s, es))
    decreases |es|
  {
    if es != [] {
      StepClean(s, es[0]);
      NoCharacterSplit(Step(s, es[0]), es[1..]);
    }
  }
}
