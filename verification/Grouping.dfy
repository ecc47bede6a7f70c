/** How chunks are grouped into assistant messages, and that the chunking itself leaves no trace. */
module Grouping {
  import opened Prelude
  import opened Utf8
  import opened ContentBlocks
  import opened ToolCalls
  import opened ThreadModel
  import opened ThreadShapes
  import opened Streaming
  import Turns

  // ----- Groups are maximal -----

  /** Inside one message, thoughts and text alternate. */
  predicate Alternating(e: Entry) {
    e.Assistant? ==> e.parts != [] && forall k | 0 <= k < |e.parts| - 1 :: e.parts[k].thought != e.parts[k + 1].thought
  }

  /** Two assistant messages in a row have different tags. */
  predicate Apart(a: Entry, b: Entry) {
    a.Assistant? && b.Assistant? ==> a.indented != b.indented || a.subagent != b.subagent
  }

  ghost predicate Grouped(es: seq<Entry>) {
    && (forall i | 0 <= i < |es| :: Alternating(es[i]))
    && (forall i | 0 <= i < |es| - 1 :: Apart(es[i], es[i + 1]))
  }

  predicate SameTags(a: Entry, b: Entry) {
    a.Assistant? == b.Assistant?
      && (a.Assistant? ==> a.parts == b.parts && a.indented == b.indented && a.subagent == b.subagent)
  }

  /** Entries are kept up to what grouping looks at, or dropped from the end. */
  lemma {:induction false} KeptGrouped(es: seq<Entry>, fs: seq<Entry>)
    requires Grouped(es) && |fs| <= |es| && forall i | 0 <= i < |fs| :: SameTags(es[i], fs[i])
    ensures Grouped(fs)
  {
    forall i | 0 <= i < |fs|
      ensures Alternating(fs[i])
    {
      assert SameTags(es[i], fs[i]);
    }
    forall i | 0 <= i < |fs| - 1
      ensures Apart(fs[i], fs[i + 1])
    {
      assert SameTags(es[i], fs[i]) && SameTags(es[i + 1], fs[i + 1]);
    }
  }

  lemma {:induction false} PushGrouped(es: seq<Entry>, e: Entry)
    requires Grouped(es) && Alternating(e) && (es != [] ==> Apart(Last(es), e))
    ensures Grouped(es + [e])
  {
  }

  lemma {:induction false} PlaceGrouped(
    s: Thread, cb: ContentBlock, thought: bool, indented: bool, subagent: Option<Id>)
    requires Grouped(s.entries)
    ensures Grouped(Place(s, cb, thought, indented, subagent).entries)
  {
    var t := Place(s, cb, thought, indented, subagent).entries;
    if Joins(s.entries, indented, subagent) {
      var n := |s.entries|;
      assert Alternating(s.entries[n - 1]) && Alternating(t[n - 1]);
      assert Grouped(Init(s.entries));
      assert t == Init(s.entries) + [t[n - 1]];
      if n > 1 {
        assert Apart(s.entries[n - 2], s.entries[n - 2 + 1]);
      }
      PushGrouped(Init(s.entries), t[n - 1]);
    } else {
      PushGrouped(s.entries, Last(t));
    }
  }

  /** Events other than assistant text and tool events neither move an assistant message nor add one. */
  ghost predicate Quiet(es: seq<Entry>, fs: seq<Entry>) {
    || (fs != [] && fs == es + [Last(fs)] && !Last(fs).Assistant?)
    || (|fs| <= |es| && forall i | 0 <= i < |fs| :: SameTags(es[i], fs[i]))
  }

  lemma {:induction false} QuietGrouped(es: seq<Entry>, fs: seq<Entry>)
    requires Grouped(es) && Quiet(es, fs)
    ensures Grouped(fs)
  {
    if |fs| > |es| {
      PushGrouped(es, Last(fs));
    } else {
      KeptGrouped(es, fs);
    }
  }

  lemma {:induction false} AssistantGrouped(
    s: Thread, cb: ContentBlock, thought: bool, indented: bool, subagent: Option<Id>)
    requires Grouped(s.entries)
    ensures Grouped(PushAssistant(s, cb, thought, indented, subagent).entries)
  {
    PlaceGrouped(s, cb, thought, indented, subagent);
    PlaceGrouped(Flush(s), cb, thought, indented, subagent);
  }

  lemma {:induction false} ToolsGrouped(s: Thread, t: Thread)
    requires Grouped(s.entries) && (ToolEdit(s, t) || ToolPush(s, t))
    ensures Grouped(t.entries)
  {
    if ToolEdit(s, t) {
      KeptGrouped(s.entries, t.entries);
    } else {
      PushGrouped(s.entries, Last(t.entries));
    }
  }

  lemma {:induction false} MessageQuiet(s: Thread, e: Event)
    requires MessageEvent(e) && !e.EvAssistant?
    ensures Quiet(s.entries, Step(s, e).entries)
  {
    match e
    case EvUserChunk(cb) => if Step(s, e) != s { UserQuiet(s, None, cb, false); }
    case EvPushUser(id, cb, indented) => UserQuiet(s, id, cb, indented);
    case EvSnapshotPlan => SnapshotShape(s);
    case _ =>
  }

  lemma {:induction false} OtherGrouped(s: Thread, e: Event)
    requires Grouped(s.entries) && !ToolEvent(e) && !MessageEvent(e)
    ensures Grouped(Step(s, e).entries)
  {
    match e
    case EvComplete(t) => CompleteGrouped(s, t);
    case EvBegin(_) =>
      CancelKeeps(s.(plan := Unfinished(s.plan), hadError := false));
      KeptGrouped(s.entries, Step(s, e).entries);
    case EvCancel =>
      CancelKeeps(s);
      KeptGrouped(s.entries, Step(s, e).entries);
    case EvRewindEnd(_) => KeptGrouped(s.entries, Step(s, e).entries);
    case _ =>
  }

  lemma {:induction false} StepGrouped(s: Thread, e: Event)
    requires Grouped(s.entries)
    ensures Grouped(Step(s, e).entries)
  {
    if e.EvAssistant? {
      AssistantGrouped(s, e.block, e.thought, e.indented, e.subagent);
    } else if ToolEvent(e) {
      ToolEventShape(s, e);
      ToolsGrouped(s, Step(s, e));
    } else if MessageEvent(e) {
      MessageQuiet(s, e);
      QuietGrouped(s.entries, Step(s, e).entries);
    } else {
      OtherGrouped(s, e);
    }
  }

  lemma {:induction false} CancelKeeps(s: Thread)
    ensures var t := CancelEffects(s).entries;
      |t| == |s.entries| && forall i | 0 <= i < |t| :: SameTags(s.entries[i], t[i])
  {
  }

  lemma {:induction false} UserQuiet(s: Thread, id: Option<Id>, cb: ContentBlock, indented: bool)
    ensures Quiet(s.entries, PushUser(s, id, cb, indented).entries)
  {
  }

  lemma {:induction false} SnapshotGrouped(s: Thread)
    requires Grouped(s.entries)
    ensures Grouped(SnapshotPlan(s).entries)
  {
    SnapshotShape(s);
    if SnapshotPlan(s).entries != s.entries {
      PushGrouped(s.entries, Last(SnapshotPlan(s).entries));
    }
  }

  lemma {:induction false} RefuseGrouped(s: Thread)
    requires Grouped(s.entries)
    ensures Grouped(Refuse(s).entries)
  {
    KeptGrouped(s.entries, Refuse(s).entries);
  }

  lemma {:induction false} HandledGrouped(s: Thread, r: Turns.Response)
    requires Grouped(s.entries)
    ensures Grouped(HandleResponse(s, r).entries)
  {
    SnapshotGrouped(s);
    match r
    case Answered(Cancelled) => KeptGrouped(s.entries, MarkCanceled(s).entries);
    case Answered(Refusal) => RefuseGrouped(SnapshotPlan(s));
    case _ =>
  }

  lemma {:induction false} CompleteGrouped(s: Thread, t: nat)
    requires Grouped(s.entries)
    ensures Grouped(CompleteTurn(s, t).entries)
  {
    if Turns.Outcome(s.turns, t).Some? {
      HandledGrouped(Flush(s.(turns := Turns.Complete(s.turns, t))), Turns.Outcome(s.turns, t).value);
    }
  }

  lemma {:induction false} RunGrouped(s: Thread, es: seq<Event>)
    requires Grouped(s.entries)
    ensures Grouped(Run(s, es).entries)
    decreases |es|
  {
    if es != [] {
      StepGrouped(s, es[0]);
      RunGrouped(Step(s, es[0]), es[1..]);
    }
  }

  // ----- Chunking leaves no trace -----

  datatype Tags = Tags(thought: bool, indented: bool, subagent: Option<Id>)

  function Piece(text: Text, g: Tags): Event {
    EvAssistant(TextBlock(text), g.thought, g.indented, g.subagent)
  }

  /** Pieces of text under the same tags, with ticks wherever the timer happened to fire. */
  predicate Piecewise(es: seq<Event>, g: Tags) {
    forall i | 0 <= i < |es| ::
      es[i].EvTick? || (es[i].EvAssistant? && es[i].block.TextBlock? && es[i] == Piece(es[i].block.text, g))
  }

  function TextOf(es: seq<Event>): Text {
    if es == [] then []
    else TextOf(es[..|es| - 1]) + (if Last(es).EvAssistant? then Rendered(Last(es).block) else [])
  }

  predicate HasPiece(es: seq<Event>) {
    exists i | 0 <= i < |es| :: es[i].EvAssistant?
  }

  function Front(es: seq<Entry>, g: Tags): seq<Entry> {
    if Joins(es, g.indented, g.subagent) then Init(es) else es
  }

  function Base(es: seq<Entry>, g: Tags): (e: Entry)
    ensures e.Assistant?
  {
    if Joins(es, g.indented, g.subagent) then Last(es) else Assistant([], g.indented, false, g.subagent)
  }

  function Kept(es: seq<Entry>, g: Tags): seq<Part> {
    if Continues(es, g.thought, g.indented, g.subagent) then Init(Last(es).parts) else Base(es, g).parts
  }

  /** Setting the tail leaves the front, and the last message with its kept parts and one more. */
  lemma {:induction false} SetTailShape(s: Thread, texts: Store, block: Block, g: Tags)
    requires s.buffer.None?
    ensures SetTail(s, texts, block, g.thought, g.indented, g.subagent)
         == s.(texts := texts,
               entries := Front(s.entries, g)
                          + [Base(s.entries, g).(parts := Kept(s.entries, g) + [Part(g.thought, block)])])
  {
    if !Joins(s.entries, g.indented, g.subagent) {
      assert Kept(s.entries, g) + [Part(g.thought, block)] == [Part(g.thought, block)];
    }
  }

  lemma {:induction false} TailAgain(front: seq<Entry>, base: Entry, kept: seq<Part>, block: Block, g: Tags)
    requires base.Assistant? && base.indented == g.indented && base.subagent == g.subagent
    ensures
      var es := front + [base.(parts := kept + [Part(g.thought, block)])];
      && Front(es, g) == front && Base(es, g) == base.(parts := kept + [Part(g.thought, block)]) && Kept(es, g) == kept
      && TailBlock(es, g.thought, g.indented, g.subagent) == block
  {
  }

  lemma {:induction false} SetTailTwice(s: Thread, t1: Store, b1: Block, t2: Store, b2: Block, g: Tags)
    requires s.buffer.None?
    ensures
      var s1 := SetTail(s, t1, b1, g.thought, g.indented, g.subagent);
      && s1.texts == t1 && TailBlock(s1.entries, g.thought, g.indented, g.subagent) == b1
      && SetTail(s1, t2, b2, g.thought, g.indented, g.subagent) == SetTail(s, t2, b2, g.thought, g.indented, g.subagent)
  {
    SetTailShape(s, t1, b1, g);
    SetTailShape(s, t2, b2, g);
    TailAgain(Front(s.entries, g), Base(s.entries, g), Kept(s.entries, g), b1, g);
    SetTailShape(SetTail(s, t1, b1, g.thought, g.indented, g.subagent), t2, b2, g);
  }

  lemma AppendTwice(store: Store, block: Block, a: Text, b: Text)
    requires block.Markdown? ==> block.id < |store|
    ensures
      var (t1, b1) := Append(store, block, TextBlock(a));
      Append(t1, b1, TextBlock(b)) == Append(store, block, TextBlock(a + b))
  {
    var (t1, b1) := Append(store, block, TextBlock(a));
    var text := if block.Markdown? then store[block.id] else if block.Link? then block.markdown + [NEWLINE]
                else if block.Image? then IMAGE_MARKDOWN + [NEWLINE] else [];
    assert text + a + b == text + (a + b);
    assert Append(t1, b1, TextBlock(b)).0 == Append(store, block, TextBlock(a + b)).0;
  }

  /** Two texts placed one after the other are one text placed once. */
  lemma {:induction false} PlaceTwice(s: Thread, a: Text, b: Text, g: Tags)
    requires Ordered(s.entries, |s.texts|) && s.buffer.None?
    ensures
      var s1 := Place(s, TextBlock(a), g.thought, g.indented, g.subagent);
      Place(s1, TextBlock(b), g.thought, g.indented, g.subagent)
      == Place(s, TextBlock(a + b), g.thought, g.indented, g.subagent)
  {
    var tail := TailBlock(s.entries, g.thought, g.indented, g.subagent);
    if tail.Markdown? {
      assert Slot(s.entries[|s.entries| - 1], |Last(s.entries).parts| - 1) == tail;
    }
    var (t1, b1) := Append(s.texts, tail, TextBlock(a));
    var (t2, b2) := Append(t1, b1, TextBlock(b));
    AppendTwice(s.texts, tail, a, b);
    SetTailTwice(s, t1, b1, t2, b2, g);
  }

  lemma {:induction false} DirectPieces(s: Thread, es: seq<Event>, g: Tags)
    requires Anchored(s) && s.buffer.None? && Piecewise(es, g)
    ensures DirectRun(s, es) == if HasPiece(es) then DirectStep(s, Piece(TextOf(es), g)) else s
    decreases |es|
  {
    if es != [] {
      var n := |es| - 1;
      var init := es[..n];
      assert es == init + [es[n]];
      DirectRunAppend(s, init, [es[n]]);
      DirectPieces(s, init, g);
      assert DirectRun(DirectRun(s, init), [es[n]]) == DirectStep(DirectRun(s, init), es[n]);
      if es[n].EvAssistant? {
        assert HasPiece(es);
        if HasPiece(init) {
          PlaceTwice(s, TextOf(init), es[n].block.text, g);
        } else {
          NoText(init);
          assert TextOf(es) == es[n].block.text;
        }
      } else {
        assert HasPiece(es) == HasPiece(init);
        assert TextOf(es) == TextOf(init);
      }
    }
  }

  lemma {:induction false} NoText(es: seq<Event>)
    requires !HasPiece(es)
    ensures TextOf(es) == []
  {
    if es != [] {
      assert !Last(es).EvAssistant?;
      NoText(es[..|es| - 1]);
    }
  }

  lemma {:induction false} DirectRunAppend(s: Thread, a: seq<Event>, b: seq<Event>)
    ensures DirectRun(s, a + b) == DirectRun(DirectRun(s, a), b)
    decreases |a|
  {
    if a == [] {
      assert a + b == b;
    } else {
      assert (a + b)[1..] == a[1..] + b;
      DirectRunAppend(DirectStep(s, a[0]), a[1..], b);
    }
  }

  /** However a text was cut and whenever the timer fired, the flushed thread is that of the whole text. */
  lemma {:induction false} ChunkingLeavesNoTrace(before: seq<Event>, es: seq<Event>, g: Tags)
    requires Piecewise(es, g) && HasPiece(es)
    ensures
      var s := Run(INITIAL, before);
      Flush(Run(s, es)) == Flush(Step(s, Piece(TextOf(es), g)))
  {
    RunRefines(INITIAL, before);
    var s := Run(INITIAL, before);
    RunRefines(s, es);
    StepRefines(s, Piece(TextOf(es), g));
    FlushAnchored(s);
    DirectPieces(Flush(s), es, g);
  }

  /** In every reachable state messages are maximal groups. */
  lemma {:induction false} GroupsAreMaximal(es: seq<Event>)
    ensures Grouped(Run(INITIAL, es).entries)
  {
    RunGrouped(INITIAL, es);
  }
}
