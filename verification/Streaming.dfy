/**
  The streaming buffer. In every run the thread is the unbuffered thread seen
  through a flush, and the buffer only ever aims at the very end of the transcript.
 */
module Streaming {
  import opened Prelude
  import opened Utf8
  import opened Float32
  import opened ContentBlocks
  import opened ToolCalls
  import opened ThreadModel
  import opened ThreadShapes
  import Turns

  // ----- Where blocks sit in the transcript -----

  function Slots(e: Entry): nat {
    if e.User? then 1 else if e.Assistant? then |e.parts| else 0
  }

  function Slot(e: Entry, k: nat): Block
    requires k < Slots(e)
  {
    if e.User? then e.content else e.parts[k].block
  }

  /** Handles grow along the transcript, so no block occurs in it twice. */
  ghost predicate Ordered(es: seq<Entry>, n: nat) {
    && (forall i, k | 0 <= i < |es| && 0 <= k < Slots(es[i]) && Slot(es[i], k).Markdown? :: Slot(es[i], k).id < n)
    && (forall i, k, j, l |
          && 0 <= i <= j < |es| && 0 <= k < Slots(es[i]) && 0 <= l < Slots(es[j]) && (i < j || k < l)
          && Slot(es[i], k).Markdown? && Slot(es[j], l).Markdown?
          :: Slot(es[i], k).id < Slot(es[j], l).id)
  }

  /** The last part of the last entry, when that is an assistant message. */
  predicate AtEnd(es: seq<Entry>, i: int, k: int) {
    0 <= i == |es| - 1 && es[i].Assistant? && k == |es[i].parts| - 1
  }

  ghost predicate AimedAtEnd(es: seq<Entry>, target: BlockId) {
    forall i, k | 0 <= i < |es| && 0 <= k < Slots(es[i]) && Slot(es[i], k) == Markdown(target) :: AtEnd(es, i, k)
  }

  ghost predicate Anchored(s: Thread) {
    && Ordered(s.entries, |s.texts|)
    && (s.buffer.Some? ==> s.buffer.value.target < |s.texts| && AimedAtEnd(s.entries, s.buffer.value.target))
  }

  // ----- Every operation keeps the buffer anchored -----

  predicate SameSlots(a: Entry, b: Entry) {
    a.Assistant? == b.Assistant? && Slots(a) == Slots(b) && forall k | 0 <= k < Slots(a) :: Slot(a, k) == Slot(b, k)
  }

  lemma {:induction false} SameSlotsAnchored(s: Thread, t: Thread)
    requires Anchored(s) && t.texts == s.texts && t.buffer == s.buffer
    requires |t.entries| == |s.entries| && forall i | 0 <= i < |s.entries| :: SameSlots(s.entries[i], t.entries[i])
    ensures Anchored(t)
  {
  }

  lemma {:induction false} PrefixAnchored(s: Thread, t: Thread)
    requires Anchored(s) && t.texts == s.texts && t.buffer == s.buffer
    requires t.entries <= s.entries
    ensures Anchored(t)
  {
    var n := |t.entries|;
    assert t.entries == s.entries[..n];
    assert forall i | 0 <= i < n :: t.entries[i] == s.entries[i];
  }

  lemma {:induction false} FlushAnchored(s: Thread)
    requires Anchored(s)
    ensures Anchored(Flush(s)) && |Flush(s).texts| == |s.texts|
  {
  }

  /** A block that is not in the store of size `n`, or no Markdown at all. */
  predicate FreshBlock(block: Block, n: nat, m: nat) {
    block.Markdown? ==> n <= block.id < m
  }

  lemma {:induction false} PushOrdered(es: seq<Entry>, e: Entry, n: nat, m: nat)
    requires Ordered(es, n) && n <= m && Slots(e) <= 1 && (Slots(e) == 1 ==> FreshBlock(Slot(e, 0), n, m))
    ensures Ordered(es + [e], m)
  {
    var t := es + [e];
    forall i, k, j, l |
      && 0 <= i <= j < |t| && 0 <= k < Slots(t[i]) && 0 <= l < Slots(t[j]) && (i < j || k < l)
      && Slot(t[i], k).Markdown? && Slot(t[j], l).Markdown?
      ensures Slot(t[i], k).id < Slot(t[j], l).id
    {
      assert i < |es| && t[i] == es[i];
      assert j < |es| ==> t[j] == es[j];
    }
    forall i, k | 0 <= i < |t| && 0 <= k < Slots(t[i]) && Slot(t[i], k).Markdown?
      ensures Slot(t[i], k).id < m
    {
      assert i < |es| ==> t[i] == es[i];
    }
  }

  lemma {:induction false} PushAnchored(s: Thread, texts: Store, e: Entry)
    requires Anchored(s) && |s.texts| <= |texts|
    requires Slots(e) <= 1 && (Slots(e) == 1 ==> FreshBlock(Slot(e, 0), |s.texts|, |texts|))
    ensures Anchored(PushEntry(s.(texts := texts), e))
  {
    PushOrdered(s.entries, e, |s.texts|, |texts|);
  }

  /** Entry `e` differs from `d` in its last slot only, which holds the same block or a fresh one. */
  ghost predicate Extends(d: Entry, e: Entry, n: nat, m: nat) {
    && Slots(d) <= Slots(e) <= Slots(d) + 1 && Slots(e) > 0
    && (forall k | 0 <= k < Slots(e) - 1 :: Slot(e, k) == Slot(d, k))
    && var b := Slot(e, Slots(e) - 1);
       FreshBlock(b, n, m) || (Slots(e) == Slots(d) && Slot(d, Slots(d) - 1) == b)
  }

  /** A slot is the new one, or was there before. */
  lemma {:induction false} SlotBefore(es: seq<Entry>, e: Entry, n: nat, m: nat, i: nat, k: nat)
    requires es != [] && Extends(Last(es), e, n, m) && i < |es| && k < Slots(SetLast(es, e)[i])
    ensures
      var b := Slot(SetLast(es, e)[i], k);
      || (i == |es| - 1 && k == Slots(e) - 1 && FreshBlock(b, n, m))
      || (k < Slots(es[i]) && Slot(es[i], k) == b)
  {
  }

  lemma {:induction false} SetLastOrdered(es: seq<Entry>, e: Entry, n: nat, m: nat)
    requires es != [] && Ordered(es, n) && n <= m && Extends(Last(es), e, n, m)
    ensures Ordered(SetLast(es, e), m)
  {
    var t := SetLast(es, e);
    forall i, k | 0 <= i < |t| && 0 <= k < Slots(t[i]) && Slot(t[i], k).Markdown?
      ensures Slot(t[i], k).id < m
    {
      SlotBefore(es, e, n, m, i, k);
    }
    forall i, k, j, l |
      && 0 <= i <= j < |t| && 0 <= k < Slots(t[i]) && 0 <= l < Slots(t[j]) && (i < j || k < l)
      && Slot(t[i], k).Markdown? && Slot(t[j], l).Markdown?
      ensures Slot(t[i], k).id < Slot(t[j], l).id
    {
      SlotBefore(es, e, n, m, i, k);
      SlotBefore(es, e, n, m, j, l);
    }
  }

  lemma {:induction false} SetLastAnchored(s: Thread, texts: Store, e: Entry)
    requires Anchored(s) && s.buffer.None? && s.entries != [] && |s.texts| <= |texts|
    requires Extends(Last(s.entries), e, |s.texts|, |texts|)
    ensures Anchored(s.(texts := texts, entries := SetLast(s.entries, e)))
  {
    SetLastOrdered(s.entries, e, |s.texts|, |texts|);
  }

  lemma AppendShape(store: Store, block: Block, cb: ContentBlock)
    requires block.Markdown? ==> block.id < |store|
    ensures
      var (store', block') := Append(store, block, cb);
      |store| <= |store'| && (block' == block || FreshBlock(block', |store|, |store'|))
      && (block'.Markdown? ==> block'.id < |store'|)
  {
  }

  lemma {:induction false} CombinedShape(store: Store, block: Block, cbs: seq<ContentBlock>, n: nat)
    requires n <= |store| && FreshBlock(block, n, |store|)
    ensures
      var (store', block') := Combined(store, block, cbs);
      |store| <= |store'| && FreshBlock(block', n, |store'|)
    decreases |cbs|
  {
    if cbs != [] {
      AppendShape(store, block, cbs[0]);
      var (store', block') := Append(store, block, cbs[0]);
      CombinedShape(store', block', cbs[1..], n);
    }
  }

  lemma {:induction false} PlaceAnchored(
    s: Thread, cb: ContentBlock, thought: bool, indented: bool, subagent: Option<Id>)
    requires Anchored(s) && (Joins(s.entries, indented, subagent) ==> s.buffer.None?)
    ensures Anchored(Place(s, cb, thought, indented, subagent))
  {
    if Continues(s.entries, thought, indented, subagent) {
      var d := Last(s.entries);
      var block := Last(d.parts).block;
      assert Slot(s.entries[|s.entries| - 1], |d.parts| - 1) == block;
      AppendShape(s.texts, block, cb);
      var (texts, block') := Append(s.texts, block, cb);
      SetLastAnchored(s, texts, d.(parts := Init(d.parts) + [Part(thought, block')]));
    } else {
      AppendShape(s.texts, Empty, cb);
      var (texts, block') := Append(s.texts, Empty, cb);
      if Joins(s.entries, indented, subagent) {
        var d := Last(s.entries);
        SetLastAnchored(s, texts, d.(parts := d.parts + [Part(thought, block')]));
      } else {
        PushAnchored(s, texts, Assistant([Part(thought, block')], indented, false, subagent));
      }
    }
  }

  lemma {:induction false} BufferAnchored(s: Thread, b: BlockId, text: Text)
    requires Anchored(s) && b < |s.texts| && AimedAtEnd(s.entries, b)
    ensures Anchored(BufferText(s, b, text))
  {
  }

  /** The block that text is streamed into is the very last one. */
  lemma {:induction false} StreamsAtEnd(s: Thread, thought: bool, indented: bool, subagent: Option<Id>)
    requires Anchored(s) && Streams(s.entries, thought, indented, subagent)
    ensures var b := Last(Last(s.entries).parts).block.id; b < |s.texts| && AimedAtEnd(s.entries, b)
  {
    var d := Last(s.entries);
    assert Slot(s.entries[|s.entries| - 1], |d.parts| - 1) == Last(d.parts).block;
  }

  lemma {:induction false} AssistantAnchored(
    s: Thread, cb: ContentBlock, thought: bool, indented: bool, subagent: Option<Id>)
    requires Anchored(s)
    ensures Anchored(PushAssistant(s, cb, thought, indented, subagent))
  {
    if cb.TextBlock? && Streams(s.entries, thought, indented, subagent) {
      StreamsAtEnd(s, thought, indented, subagent);
      BufferAnchored(s, Last(Last(s.entries).parts).block.id, cb.text);
    } else if Joins(s.entries, indented, subagent) {
      FlushAnchored(s);
      PlaceAnchored(Flush(s), cb, thought, indented, subagent);
    } else {
      PlaceAnchored(s, cb, thought, indented, subagent);
    }
  }

  lemma {:induction false} UserAnchored(s: Thread, id: Option<Id>, cb: ContentBlock, indented: bool)
    requires Anchored(s)
    ensures Anchored(PushUser(s, id, cb, indented))
  {
    if s.entries != [] && Last(s.entries).User? && Last(s.entries).indented == indented {
      var f := Flush(s);
      FlushAnchored(s);
      var d := Last(f.entries);
      assert Slot(f.entries[|f.entries| - 1], 0) == d.content;
      AppendShape(f.texts, d.content, cb);
      var (texts, block) := Append(f.texts, d.content, cb);
      SetLastAnchored(f, texts, User(if id.Some? then id else d.id, block, d.chunks + [cb], indented));
    } else {
      AppendShape(s.texts, Empty, cb);
      var (texts, block) := Append(s.texts, Empty, cb);
      PushAnchored(s, texts, User(id, block, [cb], indented));
    }
  }

  lemma {:induction false} MessageAnchored(s: Thread, id: Option<Id>, cbs: seq<ContentBlock>)
    requires Anchored(s)
    ensures Anchored(PushMessage(s, id, cbs))
  {
    CombinedShape(s.texts, Empty, cbs, |s.texts|);
    var (texts, block) := Combined(s.texts, Empty, cbs);
    PushAnchored(s, texts, User(id, block, cbs, false));
  }

  lemma {:induction false} PlainPushAnchored(s: Thread, e: Entry)
    requires Anchored(s) && Slots(e) == 0
    ensures Anchored(PushEntry(s, e))
  {
    PushAnchored(s, s.texts, e);
    assert s.(texts := s.texts) == s;
  }

  lemma {:induction false} ToolsAnchored(s: Thread, t: Thread)
    requires Anchored(s) && (ToolEdit(s, t) || ToolPush(s, t))
    ensures Anchored(t)
  {
    if ToolEdit(s, t) {
      SameSlotsAnchored(s, t);
    } else {
      PlainPushAnchored(s.(ledger := t.ledger), Last(t.entries));
    }
  }

  lemma {:induction false} CanceledAnchored(s: Thread)
    requires Anchored(s)
    ensures Anchored(MarkCanceled(s))
  {
    SameSlotsAnchored(s, MarkCanceled(s));
  }

  lemma {:induction false} SnapshotAnchored(s: Thread)
    requires Anchored(s)
    ensures Anchored(SnapshotPlan(s))
  {
    if s.plan != [] && !StillPending(s.plan) {
      PlainPushAnchored(s.(plan := []), CompletedPlan(s.plan));
    }
  }

  lemma {:induction false} RefuseAnchored(s: Thread)
    requires Anchored(s)
    ensures Anchored(Refuse(s))
  {
    PrefixAnchored(s, Refuse(s));
  }

  lemma {:induction false} HandledAnchored(s: Thread, r: Turns.Response)
    requires Anchored(s)
    ensures Anchored(HandleResponse(s, r))
  {
    match r
    case Answered(Cancelled) => CanceledAnchored(s);
    case Answered(Refusal) => SnapshotAnchored(s); RefuseAnchored(SnapshotPlan(s));
    case Answered(MaxTokens) =>
    case Answered(_) => SnapshotAnchored(s);
    case Failure =>
  }

  lemma {:induction false} CompleteAnchored(s: Thread, t: nat)
    requires Anchored(s)
    ensures Anchored(CompleteTurn(s, t))
  {
    var c := s.(turns := Turns.Complete(s.turns, t));
    FlushAnchored(c);
    if Turns.Outcome(s.turns, t).Some? {
      HandledAnchored(Flush(c), Turns.Outcome(s.turns, t).value);
    }
  }

  lemma {:induction false} CancelAnchored(s: Thread)
    requires Anchored(s)
    ensures Anchored(CancelEffects(s))
  {
    FlushAnchored(s);
    CanceledAnchored(Flush(s));
  }

  lemma {:induction false} StartAnchored(s: Thread, t: nat)
    requires Anchored(s)
    ensures Anchored(StartTurn(s, t))
  {
    if Turns.CanStart(s.turns, t) && s.turns.prompts[t - 1].Message? {
      var p := s.turns.prompts[t - 1];
      MessageAnchored(s.(turns := Turns.Start(s.turns, t)), Some(p.id), p.blocks);
    }
  }

  lemma {:induction false} StepAnchored(s: Thread, e: Event)
    requires Anchored(s)
    ensures Anchored(Step(s, e))
  {
    if ToolEvent(e) {
      ToolEventShape(s, e);
      ToolsAnchored(s, Step(s, e));
    } else if MessageEvent(e) {
      MessageStepAnchored(s, e);
    } else {
      OtherStepAnchored(s, e);
    }
  }

  lemma {:induction false} MessageStepAnchored(s: Thread, e: Event)
    requires Anchored(s) && MessageEvent(e)
    ensures Anchored(Step(s, e))
  {
    match e
    case EvUserChunk(cb) => UserAnchored(s, None, cb, false);
    case EvPushUser(id, cb, indented) => UserAnchored(s, id, cb, indented);
    case EvPushMessage(id, cbs) => MessageAnchored(s, id, cbs);
    case EvAssistant(cb, thought, indented, subagent) => AssistantAnchored(s, cb, thought, indented, subagent);
    case EvMarkSubagent => SameSlotsAnchored(s, MarkSubagent(s));
    case EvSnapshotPlan => SnapshotAnchored(s);
    case EvStart(t) => StartAnchored(s, t);
  }

  lemma {:induction false} OtherStepAnchored(s: Thread, e: Event)
    requires Anchored(s) && !ToolEvent(e) && !MessageEvent(e)
    ensures Anchored(Step(s, e))
  {
    match e
    case EvTick =>
    case EvBegin(_) => CancelAnchored(s.(plan := Unfinished(s.plan), hadError := false));
    case EvCancel => CancelAnchored(s);
    case EvComplete(t) => CompleteAnchored(s, t);
    case EvRewindBegin => FlushAnchored(s);
    case EvRewindEnd(_) => PrefixAnchored(s, Step(s, e));
    case _ =>
  }

  // ----- The unbuffered thread -----

  /** The same thread without a streaming buffer: text goes where it belongs at once and ticks do nothing. */
  function DirectStep(s: Thread, e: Event): Thread {
    match e
    case EvAssistant(cb, thought, indented, subagent) => Place(s, cb, thought, indented, subagent)
    case EvTick => s
    case _ => Step(s, e)
  }

  function DirectRun(s: Thread, es: seq<Event>): Thread
    decreases |es|
  {
    if es == [] then s else DirectRun(DirectStep(s, es[0]), es[1..])
  }

  lemma AppendCommutes(store: Store, block: Block, cb: ContentBlock, b: BlockId, text: Text)
    requires b < |store| && block != Markdown(b)
    ensures
      var (store', block') := Append(store, block, cb);
      Append(AppendText(store, b, text), block, cb) == (AppendText(store', b, text), block') && block' != Markdown(b)
  {
    var (store', block') := Append(store, block, cb);
    assert Append(AppendText(store, b, text), block, cb).0 == AppendText(store', b, text);
  }

  lemma {:induction false} CombinedCommutes(store: Store, block: Block, cbs: seq<ContentBlock>, b: BlockId, text: Text)
    requires b < |store| && block != Markdown(b)
    ensures
      var (store', block') := Combined(store, block, cbs);
      Combined(AppendText(store, b, text), block, cbs) == (AppendText(store', b, text), block')
    decreases |cbs|
  {
    if cbs != [] {
      AppendCommutes(store, block, cbs[0], b, text);
      AppendShapeGrows(store, block, cbs[0]);
      var (store', block') := Append(store, block, cbs[0]);
      CombinedCommutes(store', block', cbs[1..], b, text);
    }
  }

  lemma AppendShapeGrows(store: Store, block: Block, cb: ContentBlock)
    ensures |store| <= |Append(store, block, cb).0|
  {
  }

  lemma {:induction false} UserRefines(s: Thread, id: Option<Id>, cb: ContentBlock, indented: bool)
    requires Anchored(s)
    ensures Flush(PushUser(s, id, cb, indented)) == PushUser(Flush(s), id, cb, indented)
  {
    if s.buffer.Some? {
      AppendCommutes(s.texts, Empty, cb, s.buffer.value.target, s.buffer.value.pending);
    }
  }

  lemma {:induction false} MessageRefines(s: Thread, id: Option<Id>, cbs: seq<ContentBlock>)
    requires Anchored(s)
    ensures Flush(PushMessage(s, id, cbs)) == PushMessage(Flush(s), id, cbs)
  {
    if s.buffer.Some? {
      CombinedCommutes(s.texts, Empty, cbs, s.buffer.value.target, s.buffer.value.pending);
    }
  }

  /** Buffering text for the last block is, after a flush, appending it there. */
  lemma {:induction false} BufferRefines(s: Thread, b: BlockId, text: Text)
    requires b < |s.texts| && (s.buffer.Some? ==> s.buffer.value.target < |s.texts|)
    ensures Flush(BufferText(s, b, text)) == Flush(s).(texts := AppendText(Flush(s).texts, b, text))
  {
    if s.buffer.Some? && s.buffer.value.target == b {
      assert s.texts[b] + (s.buffer.value.pending + text) == s.texts[b] + s.buffer.value.pending + text;
    }
  }

  /** Without a buffer, text for the last block just lands there. */
  lemma {:induction false} PlaceStreams(s: Thread, text: Text, thought: bool, indented: bool, subagent: Option<Id>)
    requires Streams(s.entries, thought, indented, subagent)
    ensures Place(s, TextBlock(text), thought, indented, subagent)
         == s.(texts := AppendText(s.texts, Last(Last(s.entries).parts).block.id, text))
  {
    var d := Last(s.entries);
    assert Init(d.parts) + [Last(d.parts)] == d.parts;
    assert SetLast(s.entries, d) == s.entries;
  }

  lemma {:induction false} StreamRefines(s: Thread, text: Text, thought: bool, indented: bool, subagent: Option<Id>)
    requires Anchored(s) && Streams(s.entries, thought, indented, subagent)
    ensures Flush(PushAssistant(s, TextBlock(text), thought, indented, subagent))
         == Place(Flush(s), TextBlock(text), thought, indented, subagent)
  {
    var d := Last(s.entries);
    var b := Last(d.parts).block.id;
    assert Slot(s.entries[|s.entries| - 1], |d.parts| - 1) == Markdown(b);
    assert Flush(s).entries == s.entries;
    PlaceStreams(Flush(s), text, thought, indented, subagent);
    BufferRefines(s, b, text);
  }

  lemma {:induction false} AssistantRefines(
    s: Thread, cb: ContentBlock, thought: bool, indented: bool, subagent: Option<Id>)
    requires Anchored(s)
    ensures Flush(PushAssistant(s, cb, thought, indented, subagent)) == Place(Flush(s), cb, thought, indented, subagent)
  {
    if cb.TextBlock? && Streams(s.entries, thought, indented, subagent) {
      StreamRefines(s, cb.text, thought, indented, subagent);
    } else if Joins(s.entries, indented, subagent) {
      PlaceUnbuffered(Flush(s), cb, thought, indented, subagent);
    } else {
      NewEntryRefines(s, cb, thought, indented, subagent);
    }
  }

  lemma {:induction false} PlaceUnbuffered(
    s: Thread, cb: ContentBlock, thought: bool, indented: bool, subagent: Option<Id>)
    requires s.buffer.None?
    ensures Place(s, cb, thought, indented, subagent).buffer.None?
  {
  }

  lemma {:induction false} NewEntryRefines(
    s: Thread, cb: ContentBlock, thought: bool, indented: bool, subagent: Option<Id>)
    requires Anchored(s) && !Joins(s.entries, indented, subagent)
    ensures Flush(Place(s, cb, thought, indented, subagent)) == Place(Flush(s), cb, thought, indented, subagent)
  {
    if s.buffer.Some? {
      AppendCommutes(s.texts, Empty, cb, s.buffer.value.target, s.buffer.value.pending);
    }
  }

  lemma {:induction false} UpdateToolRefines(s: Thread, u: ToolUpdate, now: nat)
    ensures Flush(UpdateTool(s, u, now)) == UpdateTool(Flush(s), u, now)
  {
  }

  lemma {:induction false} UpsertToolRefines(s: Thread, u: Update, status: Status, now: nat)
    ensures Flush(UpsertTool(s, u, status, now)) == UpsertTool(Flush(s), u, status, now)
  {
  }

  lemma {:induction false} QuietRefines(s: Thread, e: Event)
    requires e.EvRewindEnd? || e.EvMarkSubagent? || e.EvAuthorize?
    ensures Flush(Step(s, e)) == Step(Flush(s), e)
  {
  }

  lemma {:induction false} CancelRefines(s: Thread, e: Event)
    requires e.EvBegin? || e.EvCancel?
    ensures Flush(Step(s, e)) == Step(Flush(s), e)
  {
  }

  lemma {:induction false} CompleteRefines(s: Thread, t: nat)
    ensures Flush(CompleteTurn(s, t)) == CompleteTurn(Flush(s), t)
  {
  }

  lemma {:induction false} TickRefines(s: Thread)
    ensures Flush(Tick(s)) == Flush(s)
  {
    if s.buffer.Some? && s.buffer.value.pending != [] && s.buffer.value.target < |s.texts| {
      var b := s.buffer.value;
      var k := Ceil(b.pending, b.perTick);
      assert b.pending[..k] + b.pending[k..] == b.pending;
      assert s.texts[b.target] + b.pending[..k] + b.pending[k..] == s.texts[b.target] + b.pending;
    }
  }

  /** One event of the buffered thread is, through a flush, the same event of the unbuffered one. */
  lemma {:induction false} StepRefines(s: Thread, e: Event)
    requires Anchored(s)
    ensures Flush(Step(s, e)) == DirectStep(Flush(s), e)
  {
    if ToolEvent(e) {
      ToolStepRefines(s, e);
    } else if MessageEvent(e) {
      MessageStepRefines(s, e);
    } else {
      OtherStepRefines(s, e);
    }
  }

  lemma {:induction false} ToolStepRefines(s: Thread, e: Event)
    requires ToolEvent(e)
    ensures Flush(Step(s, e)) == Step(Flush(s), e)
  {
    match e
    case EvUpdateTool(u, now) => UpdateToolRefines(s, u, now);
    case EvUpsertTool(u, status, now) =>
      UpsertToolRefines(s, u.(fields := u.fields.(status := Some(status))), FromAcp(status), now);
    case EvRequest(u, now) =>
      assert Flush(Issue(s)) == Issue(Flush(s));
      UpsertToolRefines(Issue(s), u, Waiting(s.ledger.issued), now);
    case EvAuthorize(_, _) => QuietRefines(s, e);
  }

  lemma {:induction false} StartRefines(s: Thread, t: nat)
    requires Anchored(s)
    ensures Flush(StartTurn(s, t)) == StartTurn(Flush(s), t)
  {
    if Turns.CanStart(s.turns, t) && s.turns.prompts[t - 1].Message? {
      var p := s.turns.prompts[t - 1];
      MessageRefines(s.(turns := Turns.Start(s.turns, t)), Some(p.id), p.blocks);
    }
  }

  lemma {:induction false} MessageStepRefines(s: Thread, e: Event)
    requires Anchored(s) && MessageEvent(e)
    ensures Flush(Step(s, e)) == DirectStep(Flush(s), e)
  {
    match e
    case EvUserChunk(cb) => UserRefines(s, None, cb, false);
    case EvPushUser(id, cb, indented) => UserRefines(s, id, cb, indented);
    case EvPushMessage(id, cbs) => MessageRefines(s, id, cbs);
    case EvAssistant(cb, thought, indented, subagent) => AssistantRefines(s, cb, thought, indented, subagent);
    case EvMarkSubagent => QuietRefines(s, e);
    case EvStart(t) => StartRefines(s, t);
    case EvSnapshotPlan =>
  }

  lemma {:induction false} OtherStepRefines(s: Thread, e: Event)
    requires Anchored(s) && !ToolEvent(e) && !MessageEvent(e)
    ensures Flush(Step(s, e)) == DirectStep(Flush(s), e)
  {
    match e
    case EvTick => TickRefines(s);
    case EvComplete(t) => CompleteRefines(s, t);
    case EvRewindEnd(_) => QuietRefines(s, e);
    case EvBegin(_) => CancelRefines(s, e);
    case EvCancel => CancelRefines(s, e);
    case _ =>
  }

  lemma {:induction false} RunRefines(s: Thread, es: seq<Event>)
    requires Anchored(s)
    ensures Anchored(Run(s, es))
    ensures Flush(Run(s, es)) == DirectRun(Flush(s), es)
    decreases |es|
  {
    if es != [] {
      StepAnchored(s, es[0]);
      StepRefines(s, es[0]);
      RunRefines(Step(s, es[0]), es[1..]);
    }
  }

  function PendingFor(s: Thread, b: BlockId): Text {
    if s.buffer.Some? && s.buffer.value.target == b then s.buffer.value.pending else []
  }

  /**
    In every run, each block's shown text followed by the text waiting for it is
    the text of the unbuffered thread; everything else about the two threads is
    equal; and the buffer aims at no block of the transcript but its very last.
   */
  lemma {:induction false} BufferedRefinesUnbuffered(es: seq<Event>)
    ensures
      var s, u := Run(INITIAL, es), DirectRun(INITIAL, es);
      && s == u.(texts := s.texts, buffer := s.buffer)
      && |s.texts| == |u.texts|
      && (forall b | 0 <= b < |s.texts| :: s.texts[b] + PendingFor(s, b) == u.texts[b])
    ensures
      var s := Run(INITIAL, es);
      s.buffer.Some? ==> s.buffer.value.target < |s.texts| && AimedAtEnd(s.entries, s.buffer.value.target)
  {
    RunRefines(INITIAL, es);
  }
}
