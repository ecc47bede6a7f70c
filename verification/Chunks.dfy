/**
  Where chunks go and what the messages say. A message shows the blocks it was given, one after
  the other, and a part of an assistant message holds only chunks sent under its own tags.
 */
module Chunks {
  import opened Prelude
  import opened Utf8
  import opened Float32
  import opened ContentBlocks
  import opened ToolCalls
  import opened ThreadModel
  import opened ThreadShapes
  import opened Streaming
  import Turns

  // ----- What a list of blocks looks like -----

  const BACKTICK_IMAGE: Text := [0x60, 0x49, 0x6D, 0x61, 0x67, 0x65, 0x60] // `Image`

  function Face(cb: ContentBlock): Text {
    match cb
    case TextBlock(text) => text
    case LinkBlock(_, markdown) => markdown
    case ImageBlock(_, _) => BACKTICK_IMAGE
    case OtherBlock(markdown) => markdown
  }

  function Faces(cbs: seq<ContentBlock>): Text {
    if cbs == [] then [] else Faces(Init(cbs)) + Face(Last(cbs))
  }

  /** A link or an image, which is shown by itself until more comes. */
  predicate StandsAlone(cb: ContentBlock) {
    cb.LinkBlock? || (cb.ImageBlock? && cb.decodes)
  }

  /** The blocks one after the other; a link or image at the front gets a line of its own. */
  function Shown(cbs: seq<ContentBlock>): Text {
    if cbs == [] then []
    else if |cbs| > 1 && StandsAlone(cbs[0]) then Face(cbs[0]) + [NEWLINE] + Faces(cbs[1..])
    else Faces(cbs)
  }

  function BlockText(store: Store, block: Block): Text {
    match block
    case Empty => []
    case Markdown(b) => if b < |store| then store[b] else []
    case Link(markdown) => markdown
    case Image => BACKTICK_IMAGE
  }

  /** The block is what the blocks `cbs` have become. */
  predicate Shows(store: Store, block: Block, cbs: seq<ContentBlock>) {
    && (block.Markdown? ==> block.id < |store|)
    && (block.Empty? <==> cbs == [])
    && (block.Link? || block.Image? <==> |cbs| == 1 && StandsAlone(cbs[0]))
    && BlockText(store, block) == Shown(cbs)
  }

  lemma {:induction false} ShownOne(cb: ContentBlock)
    ensures Shown([cb]) == Face(cb)
  {
    assert Init([cb]) == [] && Faces([cb]) == [] + Face(cb) == Face(cb);
  }

  lemma {:induction false} FacesMore(cbs: seq<ContentBlock>, cb: ContentBlock)
    ensures Faces(cbs + [cb]) == Faces(cbs) + Face(cb)
  {
    assert Init(cbs + [cb]) == cbs && Last(cbs + [cb]) == cb;
  }

  lemma {:induction false} Assoc<T>(a: seq<T>, b: seq<T>, c: seq<T>)
    ensures a + b + c == a + (b + c)
  {
  }

  lemma {:induction false} ShownMore(cbs: seq<ContentBlock>, cb: ContentBlock)
    requires cbs != []
    ensures
      Shown(cbs + [cb])
      == if |cbs| == 1 && StandsAlone(cbs[0]) then Face(cbs[0]) + [NEWLINE] + Face(cb) else Shown(cbs) + Face(cb)
  {
    var more, rest := cbs + [cb], cbs[1..];
    assert more[0] == cbs[0] && |more| > 1;
    if StandsAlone(cbs[0]) {
      var front := Face(cbs[0]) + [NEWLINE];
      assert more[1..] == rest + [cb];
      FacesMore(rest, cb);
      assert Shown(more) == front + (Faces(rest) + Face(cb));
      if |cbs| > 1 {
        Assoc(front, Faces(rest), Face(cb));
      } else {
        assert rest == [] && [] + Face(cb) == Face(cb);
      }
    } else {
      FacesMore(cbs, cb);
    }
  }

  lemma {:induction false} FirstShows(store: Store, cb: ContentBlock)
    ensures var (store', block') := Append(store, Empty, cb); Shows(store', block', [cb])
  {
    ShownOne(cb);
  }

  lemma {:induction false} MoreShows(
    store: Store, block: Block, cbs: seq<ContentBlock>, cb: ContentBlock, more: seq<ContentBlock>)
    requires Shows(store, block, cbs) && cbs != [] && more == cbs + [cb]
    ensures var (store', block') := Append(store, block, cb); Shows(store', block', more)
  {
    ShownMore(cbs, cb);
    if block.Link? || block.Image? {
      assert cbs == [cbs[0]];
      ShownOne(cbs[0]);
    }
  }

  lemma {:induction false} AppendShows(store: Store, block: Block, cbs: seq<ContentBlock>, cb: ContentBlock)
    requires Shows(store, block, cbs)
    ensures var (store', block') := Append(store, block, cb); Shows(store', block', cbs + [cb])
  {
    if cbs == [] {
      assert cbs + [cb] == [cb];
      FirstShows(store, cb);
    } else {
      MoreShows(store, block, cbs, cb, cbs + [cb]);
    }
  }

  /** Appending to one block leaves the others as they were. */
  lemma {:induction false} AppendKeeps(store: Store, block: Block, cb: ContentBlock)
    ensures
      var (store', block') := Append(store, block, cb);
      && |store| <= |store'|
      && (forall b | 0 <= b < |store| && block != Markdown(b) :: store'[b] == store[b])
      && (block' == block || (block'.Markdown? ==> block'.id >= |store|))
  {
  }

  lemma {:induction false} CombinedShows(
    store: Store, block: Block, done: seq<ContentBlock>, cbs: seq<ContentBlock>, all: seq<ContentBlock>)
    requires Shows(store, block, done) && all == done + cbs
    ensures var (store', block') := Combined(store, block, cbs); Shows(store', block', all)
    decreases |cbs|
  {
    if cbs == [] {
      assert all == done;
    } else {
      AppendShows(store, block, done, cbs[0]);
      var (store', block') := Append(store, block, cbs[0]);
      assert all == done + [cbs[0]] + cbs[1..];
      CombinedShows(store', block', done + [cbs[0]], cbs[1..], all);
    }
  }

  lemma {:induction false} CombinedKeeps(store: Store, block: Block, cbs: seq<ContentBlock>, n: nat)
    requires n <= |store| && (block.Markdown? ==> n <= block.id)
    ensures var store' := Combined(store, block, cbs).0; |store| <= |store'| && store'[..n] == store[..n]
    decreases |cbs|
  {
    if cbs != [] {
      AppendKeeps(store, block, cbs[0]);
      var (store', block') := Append(store, block, cbs[0]);
      assert store'[..n] == store[..n];
      CombinedKeeps(store', block', cbs[1..], n);
    }
  }

  // ----- Which chunks went where -----

  /** For each entry, for each of its parts, the events whose chunks it was given. */
  type Log = seq<seq<seq<Event>>>

  /** A chunk went where the transcript grew: a new entry, a new part, or else the last part. */
  function Route(log: Log, e: Event, after: seq<Entry>): Log {
    if |after| < |log| then log[..|after|]
    else if !e.EvAssistant? then if |after| == |log| then log else log + [[]]
    else if |after| > |log| then log + [[[e]]]
    else if log == [] then log
    else
      var last := Last(log);
      if Slots(Last(after)) > |last| then Init(log) + [last + [[e]]]
      else if last == [] then log
      else Init(log) + [Init(last) + [Last(last) + [e]]]
  }

  function RouteAll(log: Log, s: Thread, es: seq<Event>): Log
    decreases |es|
  {
    if es == [] then log else RouteAll(Route(log, es[0], Step(s, es[0]).entries), Step(s, es[0]), es[1..])
  }

  function Routes(es: seq<Event>): Log {
    RouteAll([], INITIAL, es)
  }

  function Blocks(evs: seq<Event>): seq<ContentBlock>
    requires forall j | 0 <= j < |evs| :: evs[j].EvAssistant?
  {
    seq(|evs|, j requires 0 <= j < |evs| => evs[j].block)
  }

  predicate SentAs(e: Event, indented: bool, subagent: Option<Id>, thought: bool) {
    e.EvAssistant? && e.indented == indented && e.subagent == subagent && e.thought == thought
  }

  /** The part was given these chunks, all sent under its own tags, and shows them in order. */
  predicate PartHolds(texts: Store, m: Entry, part: Part, evs: seq<Event>)
    requires m.Assistant?
  {
    && evs != [] && (forall j | 0 <= j < |evs| :: SentAs(evs[j], m.indented, m.subagent, part.thought))
    && Shows(texts, part.block, Blocks(evs))
  }

  predicate EntryHolds(texts: Store, m: Entry, given: seq<seq<Event>>) {
    match m
    case User(_, content, chunks, _) => given == [] && Shows(texts, content, chunks)
    case Assistant(parts, _, _, _) =>
      parts != [] && |given| == |parts| && forall k | 0 <= k < |parts| :: PartHolds(texts, m, parts[k], given[k])
    case _ => given == []
  }

  predicate Accounted(s: Thread, log: Log) {
    |log| == |s.entries| && forall i | 0 <= i < |log| :: EntryHolds(s.texts, s.entries[i], log[i])
  }

  // ----- One event of the unbuffered thread -----

  /** The texts of the entry's own blocks are unchanged. */
  predicate TextsKept(m: Entry, texts: Store, texts': Store) {
    |texts| <= |texts'| &&
    forall k | 0 <= k < Slots(m) && Slot(m, k).Markdown? && Slot(m, k).id < |texts| ::
      texts'[Slot(m, k).id] == texts[Slot(m, k).id]
  }

  lemma {:induction false} StillHolds(texts: Store, texts': Store, m: Entry, given: seq<seq<Event>>)
    requires EntryHolds(texts, m, given) && TextsKept(m, texts, texts')
    ensures EntryHolds(texts', m, given)
  {
    match m
    case User(_, content, chunks, _) => assert Slot(m, 0) == content;
    case Assistant(parts, _, _, _) =>
      forall k | 0 <= k < |parts|
        ensures PartHolds(texts', m, parts[k], given[k])
      {
        assert PartHolds(texts, m, parts[k], given[k]) && Slot(m, k) == parts[k].block;
      }
    case _ =>
  }

  /** Entries that hold the same text: equal, both without any, or one marked as a subagent's output. */
  predicate SameFace(a: Entry, b: Entry) {
    || a == b
    || (!a.User? && !a.Assistant? && !b.User? && !b.Assistant?)
    || (a.Assistant? && b.Assistant? && b == a.(subagentOutput := b.subagentOutput))
  }

  lemma {:induction false} KeptAccounted(s: Thread, t: Thread, log: Log)
    requires Accounted(s, log) && t.texts == s.texts && |t.entries| <= |s.entries|
    requires forall i | 0 <= i < |t.entries| :: SameFace(s.entries[i], t.entries[i])
    ensures Accounted(t, log[..|t.entries|])
  {
    forall i | 0 <= i < |t.entries|
      ensures EntryHolds(t.texts, t.entries[i], log[i])
    {
      var a, b := s.entries[i], t.entries[i];
      assert EntryHolds(s.texts, a, log[i]) && SameFace(a, b);
      if a.Assistant? {
        forall k | 0 <= k < |a.parts|
          ensures PartHolds(t.texts, b, b.parts[k], log[i][k])
        {
          assert PartHolds(s.texts, a, a.parts[k], log[i][k]);
        }
      }
    }
  }

  lemma {:induction false} PushAccounted(s: Thread, texts: Store, m: Entry, log: Log, given: seq<seq<Event>>)
    requires Accounted(s, log) && s.buffer.None? && s.texts <= texts && EntryHolds(texts, m, given)
    ensures Accounted(PushEntry(s.(texts := texts), m), log + [given])
  {
    var t := PushEntry(s.(texts := texts), m);
    forall i | 0 <= i < |log|
      ensures EntryHolds(t.texts, t.entries[i], (log + [given])[i])
    {
      assert EntryHolds(s.texts, s.entries[i], log[i]);
      StillHolds(s.texts, texts, s.entries[i], log[i]);
    }
  }

  /** Only the block at the very end of the transcript may have changed in the store. */
  lemma {:induction false} SetLastAccounted(s: Thread, texts: Store, m: Entry, log: Log, given: seq<seq<Event>>)
    requires Accounted(s, log) && s.entries != [] && EntryHolds(texts, m, given)
    requires forall i | 0 <= i < |s.entries| - 1 :: TextsKept(s.entries[i], s.texts, texts)
    ensures Accounted(s.(texts := texts, entries := SetLast(s.entries, m)), Init(log) + [given])
  {
    var t := s.(texts := texts, entries := SetLast(s.entries, m));
    forall i | 0 <= i < |log| - 1
      ensures EntryHolds(t.texts, t.entries[i], (Init(log) + [given])[i])
    {
      assert EntryHolds(s.texts, s.entries[i], log[i]) && TextsKept(s.entries[i], s.texts, texts);
      StillHolds(s.texts, texts, s.entries[i], log[i]);
    }
  }

  /** Appending to a slot of the last entry leaves every earlier slot as it was. */
  lemma {:induction false} EarlierKept(s: Thread, i: nat, k: nat, cb: ContentBlock)
    requires Ordered(s.entries, |s.texts|) && i < |s.entries| && k < Slots(s.entries[i])
    ensures
      var texts := Append(s.texts, Slot(s.entries[i], k), cb).0;
      && (forall j | 0 <= j < i :: TextsKept(s.entries[j], s.texts, texts))
      && (forall l | 0 <= l < k && Slot(s.entries[i], l).Markdown? && Slot(s.entries[i], l).id < |s.texts| ::
            texts[Slot(s.entries[i], l).id] == s.texts[Slot(s.entries[i], l).id])
      && |s.texts| <= |texts|
  {
    AppendKeeps(s.texts, Slot(s.entries[i], k), cb);
  }

  lemma {:induction false} FreshKept(s: Thread, cb: ContentBlock)
    ensures s.texts <= Append(s.texts, Empty, cb).0
    ensures Shows(Append(s.texts, Empty, cb).0, Append(s.texts, Empty, cb).1, [cb])
  {
    AppendShows(s.texts, Empty, [], cb);
    assert [] + [cb] == [cb];
  }

  lemma {:induction false} OnePart(texts: Store, block: Block, e: Event)
    requires e.EvAssistant? && Shows(texts, block, [e.block])
    ensures EntryHolds(texts, Assistant([Part(e.thought, block)], e.indented, false, e.subagent), [[e]])
  {
    assert Blocks([e]) == [e.block];
  }

  lemma {:induction false} NewMessageAccounted(s: Thread, e: Event, log: Log)
    requires e.EvAssistant? && Accounted(s, log) && s.buffer.None? && !Joins(s.entries, e.indented, e.subagent)
    ensures
      var t := Place(s, e.block, e.thought, e.indented, e.subagent);
      Accounted(t, log + [[[e]]]) && |t.entries| == |s.entries| + 1
  {
    FreshKept(s, e.block);
    var (texts, block) := Append(s.texts, Empty, e.block);
    OnePart(texts, block, e);
    PushAccounted(s, texts, Assistant([Part(e.thought, block)], e.indented, false, e.subagent), log, [[e]]);
  }

  lemma {:induction false} PartAppended(texts: Store, d: Entry, given: seq<seq<Event>>, part: Part, e: Event)
    requires d.Assistant? && EntryHolds(texts, d, given) && SentAs(e, d.indented, d.subagent, part.thought)
    requires Shows(texts, part.block, [e.block])
    ensures EntryHolds(texts, d.(parts := d.parts + [part]), given + [[e]])
  {
    var m, now := d.(parts := d.parts + [part]), given + [[e]];
    assert Blocks([e]) == [e.block];
    forall k | 0 <= k < |m.parts|
      ensures PartHolds(texts, m, m.parts[k], now[k])
    {
      if k < |d.parts| {
        assert PartHolds(texts, d, d.parts[k], given[k]) && m.parts[k] == d.parts[k] && now[k] == given[k];
      } else {
        assert m.parts[k] == part && now[k] == [e];
      }
    }
  }

  lemma {:induction false} PlacedInNewPart(s: Thread, e: Event, texts: Store, block: Block)
    requires e.EvAssistant? && (texts, block) == Append(s.texts, Empty, e.block)
    requires Joins(s.entries, e.indented, e.subagent) && !Continues(s.entries, e.thought, e.indented, e.subagent)
    ensures
      var d := Last(s.entries);
      Place(s, e.block, e.thought, e.indented, e.subagent)
      == s.(texts := texts, entries := SetLast(s.entries, d.(parts := d.parts + [Part(e.thought, block)])))
  {
  }

  lemma {:induction false} FreshTextsKept(s: Thread, texts: Store)
    requires s.texts <= texts
    ensures forall i | 0 <= i < |s.entries| :: TextsKept(s.entries[i], s.texts, texts)
  {
  }

  lemma {:induction false} NewPartAccounted(s: Thread, e: Event, log: Log)
    requires e.EvAssistant? && Accounted(s, log) && s.buffer.None?
    requires Joins(s.entries, e.indented, e.subagent) && !Continues(s.entries, e.thought, e.indented, e.subagent)
    ensures
      var t := Place(s, e.block, e.thought, e.indented, e.subagent);
      && |t.entries| == |s.entries| && Slots(Last(t.entries)) == |Last(log)| + 1
      && Accounted(t, Init(log) + [Last(log) + [[e]]])
  {
    var n := |s.entries| - 1;
    var d, given := s.entries[n], log[n];
    var (texts, block) := Append(s.texts, Empty, e.block);
    PlacedInNewPart(s, e, texts, block);
    FreshKept(s, e.block);
    var m, now := d.(parts := d.parts + [Part(e.thought, block)]), given + [[e]];
    assert EntryHolds(texts, m, now) by {
      assert EntryHolds(s.texts, d, given);
      StillHolds(s.texts, texts, d, given);
      PartAppended(texts, d, given, Part(e.thought, block), e);
    }
    FreshTextsKept(s, texts);
    SetLastAccounted(s, texts, m, log, now);
  }

  lemma {:induction false} LastPartHolds(
    texts: Store, m: Entry, part: Part, evs: seq<Event>, e: Event, texts': Store, block: Block)
    requires m.Assistant? && PartHolds(texts, m, part, evs) && SentAs(e, m.indented, m.subagent, part.thought)
    requires (texts', block) == Append(texts, part.block, e.block)
    ensures PartHolds(texts', m, Part(part.thought, block), evs + [e])
  {
    AppendShows(texts, part.block, Blocks(evs), e.block);
    assert Blocks(evs + [e]) == Blocks(evs) + [e.block];
  }

  lemma {:induction false} OtherPartHolds(texts: Store, texts': Store, d: Entry, m: Entry, part: Part, evs: seq<Event>)
    requires d.Assistant? && m.Assistant? && m.indented == d.indented && m.subagent == d.subagent
    requires PartHolds(texts, d, part, evs) && |texts| <= |texts'|
    requires part.block.Markdown? && part.block.id < |texts| ==> texts'[part.block.id] == texts[part.block.id]
    ensures PartHolds(texts', m, part, evs)
  {
  }

  lemma {:induction false} LastPartReplaced(
    texts: Store, texts': Store, d: Entry, given: seq<seq<Event>>, part: Part, evs: seq<Event>)
    requires d.Assistant? && EntryHolds(texts, d, given) && PartHolds(texts', d, part, evs) && |texts| <= |texts'|
    requires forall k | 0 <= k < |d.parts| - 1 && d.parts[k].block.Markdown? && d.parts[k].block.id < |texts| ::
               texts'[d.parts[k].block.id] == texts[d.parts[k].block.id]
    ensures EntryHolds(texts', d.(parts := Init(d.parts) + [part]), Init(given) + [evs])
  {
    var m, now := d.(parts := Init(d.parts) + [part]), Init(given) + [evs];
    forall k | 0 <= k < |m.parts|
      ensures PartHolds(texts', m, m.parts[k], now[k])
    {
      if k < |d.parts| - 1 {
        assert PartHolds(texts, d, d.parts[k], given[k]);
        OtherPartHolds(texts, texts', d, m, d.parts[k], given[k]);
      } else {
        assert m.parts[k] == part && now[k] == evs;
      }
    }
  }

  /** Appending to the last part leaves the other parts of the message as they were. */
  lemma {:induction false} EarlierPartsKept(s: Thread, d: Entry, cb: ContentBlock)
    requires Ordered(s.entries, |s.texts|) && s.entries != [] && d == Last(s.entries) && d.Assistant? && d.parts != []
    ensures
      var texts := Append(s.texts, Last(d.parts).block, cb).0;
      && |s.texts| <= |texts|
      && forall k | 0 <= k < |d.parts| - 1 && d.parts[k].block.Markdown? && d.parts[k].block.id < |s.texts| ::
           texts[d.parts[k].block.id] == s.texts[d.parts[k].block.id]
  {
    var n := |s.entries| - 1;
    EarlierKept(s, n, |d.parts| - 1, cb);
    assert forall k | 0 <= k < |d.parts| :: Slot(s.entries[n], k) == d.parts[k].block;
  }

  lemma {:induction false} SamePartHolds(
    s: Thread, d: Entry, e: Event, given: seq<seq<Event>>, texts: Store, block: Block)
    requires Ordered(s.entries, |s.texts|) && s.entries != [] && d == Last(s.entries) && d.Assistant? && d.parts != []
    requires SentAs(e, d.indented, d.subagent, Last(d.parts).thought)
    requires EntryHolds(s.texts, d, given) && (texts, block) == Append(s.texts, Last(d.parts).block, e.block)
    ensures given != []
    ensures EntryHolds(texts, d.(parts := Init(d.parts) + [Part(e.thought, block)]), Init(given) + [Last(given) + [e]])
  {
    var part, evs := Last(d.parts), Last(given);
    assert PartHolds(s.texts, d, part, evs) by {
      assert PartHolds(s.texts, d, d.parts[|d.parts| - 1], given[|given| - 1]);
    }
    LastPartHolds(s.texts, d, part, evs, e, texts, block);
    EarlierPartsKept(s, d, e.block);
    LastPartReplaced(s.texts, texts, d, given, Part(e.thought, block), evs + [e]);
  }

  lemma {:induction false} PlacedInPart(s: Thread, e: Event, texts: Store, block: Block)
    requires e.EvAssistant? && Continues(s.entries, e.thought, e.indented, e.subagent)
    requires (texts, block) == Append(s.texts, Last(Last(s.entries).parts).block, e.block)
    ensures
      var d := Last(s.entries);
      Place(s, e.block, e.thought, e.indented, e.subagent)
      == s.(texts := texts, entries := SetLast(s.entries, d.(parts := Init(d.parts) + [Part(e.thought, block)])))
  {
  }

  lemma {:induction false} SamePartAccounted(s: Thread, e: Event, log: Log)
    requires e.EvAssistant? && Accounted(s, log) && s.buffer.None? && Anchored(s)
    requires Continues(s.entries, e.thought, e.indented, e.subagent)
    ensures
      var t := Place(s, e.block, e.thought, e.indented, e.subagent);
      && |t.entries| == |s.entries| && Slots(Last(t.entries)) == |Last(log)| && Last(log) != []
      && Accounted(t, Init(log) + [Init(Last(log)) + [Last(Last(log)) + [e]]])
  {
    var n := |s.entries| - 1;
    var d, given := s.entries[n], log[n];
    assert EntryHolds(s.texts, d, given);
    var (texts, block) := Append(s.texts, Last(d.parts).block, e.block);
    PlacedInPart(s, e, texts, block);
    SamePartHolds(s, d, e, given, texts, block);
    assert forall i | 0 <= i < n :: TextsKept(s.entries[i], s.texts, texts) by {
      assert Slot(d, |d.parts| - 1) == Last(d.parts).block;
      EarlierKept(s, n, |d.parts| - 1, e.block);
    }
    var m, now := d.(parts := Init(d.parts) + [Part(e.thought, block)]), Init(given) + [Last(given) + [e]];
    SetLastAccounted(s, texts, m, log, now);
  }

  lemma {:induction false} AssistantAccounted(s: Thread, e: Event, log: Log)
    requires e.EvAssistant? && Accounted(s, log) && s.buffer.None? && Anchored(s)
    ensures
      var t := Place(s, e.block, e.thought, e.indented, e.subagent);
      Accounted(t, Route(log, e, t.entries))
  {
    if Continues(s.entries, e.thought, e.indented, e.subagent) {
      SamePartAccounted(s, e, log);
    } else if Joins(s.entries, e.indented, e.subagent) {
      NewPartAccounted(s, e, log);
    } else {
      NewMessageAccounted(s, e, log);
    }
  }

  lemma {:induction false} PushedInMessage(s: Thread, id: Option<Id>, cb: ContentBlock, texts: Store, block: Block)
    requires s.buffer.None? && s.entries != [] && Last(s.entries).User?
    requires (texts, block) == Append(s.texts, Last(s.entries).content, cb)
    ensures
      var d := Last(s.entries);
      PushUser(s, id, cb, d.indented)
      == s.(texts := texts,
            entries := SetLast(s.entries, User(if id.Some? then id else d.id, block, d.chunks + [cb], d.indented)))
  {
  }

  lemma {:induction false} MoreOfMessageAccounted(s: Thread, id: Option<Id>, cb: ContentBlock, log: Log)
    requires Accounted(s, log) && s.buffer.None? && Anchored(s) && s.entries != [] && Last(s.entries).User?
    ensures Accounted(PushUser(s, id, cb, Last(s.entries).indented), log)
  {
    var n := |s.entries| - 1;
    var d := s.entries[n];
    assert EntryHolds(s.texts, d, log[n]);
    var (texts, block) := Append(s.texts, d.content, cb);
    PushedInMessage(s, id, cb, texts, block);
    var m := User(if id.Some? then id else d.id, block, d.chunks + [cb], d.indented);
    assert EntryHolds(texts, m, []) by {
      AppendShows(s.texts, d.content, d.chunks, cb);
    }
    assert forall i | 0 <= i < n :: TextsKept(s.entries[i], s.texts, texts) by {
      assert Slot(d, 0) == d.content;
      EarlierKept(s, n, 0, cb);
    }
    SetLastAccounted(s, texts, m, log, []);
    assert Init(log) + [[]] == log;
  }

  lemma {:induction false} NewUserAccounted(s: Thread, id: Option<Id>, cb: ContentBlock, indented: bool, log: Log)
    requires Accounted(s, log) && s.buffer.None?
    requires !(s.entries != [] && Last(s.entries).User? && Last(s.entries).indented == indented)
    ensures Accounted(PushUser(s, id, cb, indented), log + [[]])
  {
    FreshKept(s, cb);
    var (texts, block) := Append(s.texts, Empty, cb);
    PushAccounted(s, texts, User(id, block, [cb], indented), log, []);
  }

  lemma {:induction false} UserAccounted(s: Thread, id: Option<Id>, cb: ContentBlock, indented: bool, log: Log)
    requires Accounted(s, log) && s.buffer.None? && Anchored(s)
    ensures
      var t := PushUser(s, id, cb, indented);
      |log| <= |t.entries| <= |log| + 1 && Accounted(t, if |t.entries| == |log| then log else log + [[]])
  {
    if s.entries != [] && Last(s.entries).User? && Last(s.entries).indented == indented {
      MoreOfMessageAccounted(s, id, cb, log);
    } else {
      NewUserAccounted(s, id, cb, indented, log);
    }
  }

  lemma {:induction false} MessageAccounted(s: Thread, id: Option<Id>, cbs: seq<ContentBlock>, log: Log)
    requires Accounted(s, log) && s.buffer.None?
    ensures Accounted(PushMessage(s, id, cbs), log + [[]])
  {
    CombinedShows(s.texts, Empty, [], cbs, cbs);
    CombinedKeeps(s.texts, Empty, cbs, |s.texts|);
    var (texts, block) := Combined(s.texts, Empty, cbs);
    PushAccounted(s, texts, User(id, block, cbs, false), log, []);
  }

  /** What the log becomes when an event is no assistant chunk. */
  function Others(log: Log, n: nat): Log {
    if n <= |log| then log[..n] else log + [[]]
  }

  lemma {:induction false} PlainPushAccounted(s: Thread, m: Entry, log: Log)
    requires Accounted(s, log) && s.buffer.None? && !m.User? && !m.Assistant?
    ensures Accounted(PushEntry(s, m), Others(log, |s.entries| + 1))
  {
    PushAccounted(s, s.texts, m, log, []);
    assert s.(texts := s.texts) == s;
  }

  lemma {:induction false} ToolsAccounted(s: Thread, t: Thread, log: Log)
    requires Accounted(s, log) && s.buffer.None? && (ToolEdit(s, t) || ToolPush(s, t))
    ensures Accounted(t, Others(log, |t.entries|))
  {
    if ToolEdit(s, t) {
      KeptAccounted(s, t, log);
    } else {
      PlainPushAccounted(s.(ledger := t.ledger), Last(t.entries), log);
    }
  }

  lemma {:induction false} SnapshotAccounted(s: Thread, log: Log)
    requires Accounted(s, log) && s.buffer.None?
    ensures var t := SnapshotPlan(s); t.buffer.None? && Accounted(t, Others(log, |t.entries|))
  {
    if s.plan != [] && !StillPending(s.plan) {
      PlainPushAccounted(s.(plan := []), CompletedPlan(s.plan), log);
    }
  }

  lemma {:induction false} MessageStepAccounted(s: Thread, e: Event, log: Log)
    requires MessageEvent(e) && !e.EvAssistant? && Accounted(s, log) && s.buffer.None? && Anchored(s)
    ensures Accounted(Step(s, e), Others(log, |Step(s, e).entries|))
  {
    assert log[..|log|] == log;
    match e
    case EvUserChunk(cb) => UserAccounted(s, None, cb, false, log);
    case EvPushUser(id, cb, indented) => UserAccounted(s, id, cb, indented, log);
    case EvPushMessage(id, cbs) => MessageAccounted(s, id, cbs, log);
    case EvSnapshotPlan => SnapshotAccounted(s, log);
    case EvMarkSubagent => KeptAccounted(s, MarkSubagent(s), log);
    case EvStart(t) => StartAccounted(s, t, log);
  }

  lemma {:induction false} StartAccounted(s: Thread, t: nat, log: Log)
    requires Accounted(s, log) && s.buffer.None?
    ensures var u := StartTurn(s, t); Accounted(u, Others(log, |u.entries|))
  {
    assert log[..|log|] == log;
    if Turns.CanStart(s.turns, t) && s.turns.prompts[t - 1].Message? {
      var p := s.turns.prompts[t - 1];
      MessageAccounted(s.(turns := Turns.Start(s.turns, t)), Some(p.id), p.blocks, log);
    }
  }

  lemma {:induction false} HandledAccounted(s: Thread, r: Turns.Response, log: Log)
    requires Accounted(s, log) && s.buffer.None?
    ensures var t := HandleResponse(s, r); Accounted(t, Others(log, |t.entries|))
  {
    assert log[..|log|] == log;
    SnapshotAccounted(s, log);
    match r
    case Answered(Cancelled) => KeptAccounted(s, MarkCanceled(s), log);
    case Answered(Refusal) =>
      var c := SnapshotPlan(s);
      KeptAccounted(c, Refuse(c), Others(log, |c.entries|));
      RefuseTruncates(s);
    case _ =>
  }

  lemma {:induction false} CanceledAccounted(s: Thread, log: Log)
    requires Accounted(s, log) && s.buffer.None?
    ensures var t := CancelEffects(s); Accounted(t, Others(log, |t.entries|))
  {
    KeptAccounted(s, CancelEffects(s), log);
  }

  lemma {:induction false} OtherStepAccounted(s: Thread, e: Event, log: Log)
    requires !ToolEvent(e) && !MessageEvent(e) && !e.EvTick? && Accounted(s, log) && s.buffer.None?
    ensures Accounted(Step(s, e), Others(log, |Step(s, e).entries|))
  {
    assert log[..|log|] == log;
    match e
    case EvComplete(t) =>
      if Turns.Outcome(s.turns, t).Some? {
        HandledAccounted(s.(turns := Turns.Complete(s.turns, t)), Turns.Outcome(s.turns, t).value, log);
      }
    case EvBegin(_) => CanceledAccounted(s.(plan := Unfinished(s.plan), hadError := false), log);
    case EvCancel => CanceledAccounted(s, log);
    case EvRewindEnd(_) => KeptAccounted(s, Step(s, e), log);
    case _ =>
  }

  lemma {:induction false} StepAccounted(s: Thread, e: Event, log: Log)
    requires Accounted(s, log) && s.buffer.None? && Anchored(s)
    ensures Accounted(DirectStep(s, e), Route(log, e, DirectStep(s, e).entries))
  {
    if e.EvAssistant? {
      AssistantAccounted(s, e, log);
    } else if ToolEvent(e) {
      ToolEventShape(s, e);
      ToolsAccounted(s, Step(s, e), log);
    } else if MessageEvent(e) {
      MessageStepAccounted(s, e, log);
    } else if !e.EvTick? {
      OtherStepAccounted(s, e, log);
    }
    SameRoute(log, e, DirectStep(s, e).entries);
  }

  lemma {:induction false} SameRoute(log: Log, e: Event, after: seq<Entry>)
    ensures !e.EvAssistant? && |after| <= |log| + 1 ==> Route(log, e, after) == Others(log, |after|)
  {
    assert log[..|log|] == log;
  }

  lemma {:induction false} FlushedAnchored(s: Thread)
    requires Anchored(s)
    ensures Anchored(Flush(s)) && Flush(s).buffer.None? && Flush(s).entries == s.entries
  {
    FlushAnchored(s);
  }

  lemma {:induction false} BufferedAccounted(s: Thread, e: Event, log: Log)
    requires Anchored(s) && Accounted(Flush(s), log)
    ensures
      var t := Step(s, e);
      Anchored(t) && Accounted(Flush(t), Route(log, e, t.entries)) && |Route(log, e, t.entries)| == |t.entries|
  {
    var t := Step(s, e);
    FlushedAnchored(s);
    StepAccounted(Flush(s), e, log);
    StepRefines(s, e);
    StepAnchored(s, e);
    FlushedAnchored(t);
  }

  lemma {:induction false} RunAccounted(s: Thread, es: seq<Event>, log: Log)
    requires Anchored(s) && Accounted(Flush(s), log)
    ensures Accounted(Flush(Run(s, es)), RouteAll(log, s, es))
    decreases |es|
  {
    if es != [] {
      BufferedAccounted(s, es[0], log);
      RunAccounted(Step(s, es[0]), es[1..], Route(log, es[0], Step(s, es[0]).entries));
    }
  }

  /**
    In every run, once the buffer is flushed, a user message shows the blocks it was given, and
    each part of an assistant message shows the chunks that were routed to it, in order, all of
    which were sent under its own tags.
   */
  lemma {:induction false} PartsHoldTheirOwn(es: seq<Event>)
    ensures Accounted(Flush(Run(INITIAL, es)), Routes(es))
  {
    StartsAccounted();
    RunAccounted(INITIAL, es, []);
  }

  lemma {:induction false} StartsAccounted()
    ensures Anchored(INITIAL) && Accounted(Flush(INITIAL), [])
  {
  }

  // ----- Every chunk lands, once -----

  predicate Tagged(m: Entry, indented: bool, subagent: Option<Id>) {
    m.Assistant? && m.indented == indented && m.subagent == subagent
  }

  /** From `es` to `fs` a chunk with these tags has come to the end of the transcript, and nowhere else. */
  ghost predicate Landed(es: seq<Entry>, fs: seq<Entry>, thought: bool, indented: bool, subagent: Option<Id>) {
    && fs != [] && Tagged(Last(fs), indented, subagent)
    && Last(fs).parts != [] && Last(Last(fs).parts).thought == thought
    && if es != [] && Tagged(Last(es), indented, subagent)
       then |fs| == |es| && Init(fs) == Init(es) && Joined(Last(es), Last(fs), thought)
       else fs == es + [Last(fs)] && |Last(fs).parts| == 1 && !Last(fs).subagentOutput
  }

  predicate Joined(d: Entry, m: Entry, thought: bool)
    requires d.Assistant? && m.Assistant? && m.parts != []
  {
    && m.subagentOutput == d.subagentOutput
    && if d.parts != [] && Last(d.parts).thought == thought
       then |m.parts| == |d.parts| && Init(m.parts) == Init(d.parts)
       else m.parts == d.parts + [Last(m.parts)]
  }

  lemma {:induction false} TailLands(
    s: Thread, texts: Store, block: Block, thought: bool, indented: bool, subagent: Option<Id>)
    ensures
      Landed(s.entries, SetTail(s, texts, block, thought, indented, subagent).entries, thought, indented, subagent)
  {
    var fs := SetTail(s, texts, block, thought, indented, subagent).entries;
    var part := Part(thought, block);
    if Joins(s.entries, indented, subagent) {
      var d := Last(s.entries);
      var kept := if Continues(s.entries, thought, indented, subagent) then Init(d.parts) else d.parts;
      assert Init(fs) == Init(s.entries) && Last(fs) == d.(parts := kept + [part]);
      assert Init(kept + [part]) == kept && Last(kept + [part]) == part;
    } else {
      assert fs == s.entries + [Assistant([part], indented, false, subagent)];
      assert Last([part]) == part;
    }
  }

  lemma {:induction false} PlaceLands(s: Thread, cb: ContentBlock, thought: bool, indented: bool, subagent: Option<Id>)
    ensures Landed(s.entries, Place(s, cb, thought, indented, subagent).entries, thought, indented, subagent)
  {
    var (texts, block) := Append(s.texts, TailBlock(s.entries, thought, indented, subagent), cb);
    TailLands(s, texts, block, thought, indented, subagent);
  }

  lemma {:induction false} StreamLands(es: seq<Entry>, thought: bool, indented: bool, subagent: Option<Id>)
    requires Streams(es, thought, indented, subagent)
    ensures Landed(es, es, thought, indented, subagent)
  {
  }

  lemma {:induction false} PushLands(s: Thread, cb: ContentBlock, thought: bool, indented: bool, subagent: Option<Id>)
    ensures Landed(s.entries, PushAssistant(s, cb, thought, indented, subagent).entries, thought, indented, subagent)
  {
    if cb.TextBlock? && Streams(s.entries, thought, indented, subagent) {
      StreamLands(s.entries, thought, indented, subagent);
    } else if Joins(s.entries, indented, subagent) {
      PlaceLands(Flush(s), cb, thought, indented, subagent);
    } else {
      PlaceLands(s, cb, thought, indented, subagent);
    }
  }

  /**
    After a chunk, the last entry is an assistant message with exactly its tags and the last
    part has its kind. An entry is added exactly when the last one was no such message, a part
    exactly when the last one was of the other kind; everything before is as it was.
   */
  lemma {:induction false} ChunkLands(s: Thread, cb: ContentBlock, thought: bool, indented: bool, subagent: Option<Id>)
    ensures
      var t := Step(s, EvAssistant(cb, thought, indented, subagent));
      Landed(s.entries, t.entries, thought, indented, subagent)
  {
    PushLands(s, cb, thought, indented, subagent);
  }

  /** Text that goes on in a text already there is not shown at once: it waits behind what waits for that text. */
  lemma {:induction false} TextWaits(
    s: Thread, text: Text, thought: bool, indented: bool, subagent: Option<Id>, b: BlockId)
    requires s.entries != [] && Tagged(Last(s.entries), indented, subagent)
    requires Last(s.entries).parts != [] && Last(Last(s.entries).parts) == Part(thought, Markdown(b))
    ensures
      var t := Step(s, EvAssistant(TextBlock(text), thought, indented, subagent));
      && t.entries == s.entries && t.buffer.Some? && t.buffer.value.target == b
      && t.buffer.value.pending == PendingFor(s, b) + text
      && t.buffer.value.perTick == BytesPerTick(|t.buffer.value.pending|)
      && (s.buffer.Some? && s.buffer.value.target == b ==> t.texts == s.texts)
      && (s.buffer.None? ==> t.texts == s.texts)
  {
    assert [] + text == text;
  }

  function AllIn(log: Log): seq<Event> {
    Concat(Concat(log))
  }

  lemma {:induction false} AllInAppend(a: Log, b: Log)
    ensures AllIn(a + b) == AllIn(a) + AllIn(b)
  {
    ConcatAppend(a, b);
    ConcatAppend(Concat(a), Concat(b));
  }

  lemma {:induction false} AllInOne(given: seq<seq<Event>>)
    ensures AllIn([given]) == Concat(given)
  {
    assert [given][1..] == [] && Concat([given]) == given + [] == given;
  }

  lemma {:induction false} AllInLast(given: seq<seq<Event>>, evs: seq<Event>)
    ensures Concat(given + [evs]) == Concat(given) + evs
  {
    ConcatAppend(given, [evs]);
    assert [evs][1..] == [] && Concat([evs]) == evs + [] == evs;
  }

  lemma {:induction false} NewEntryFlat(log: Log, given: seq<seq<Event>>)
    ensures AllIn(log + [given]) == AllIn(log) + Concat(given)
  {
    AllInAppend(log, [given]);
    AllInOne(given);
  }

  lemma {:induction false} LastEntryFlat(log: Log, given: seq<seq<Event>>, e: Event)
    requires log != [] && Concat(given) == Concat(Last(log)) + [e]
    ensures AllIn(Init(log) + [given]) == AllIn(log) + [e]
  {
    NewEntryFlat(Init(log), given);
    NewEntryFlat(Init(log), Last(log));
    assert Init(log) + [Last(log)] == log;
    assert AllIn(Init(log)) + (Concat(Last(log)) + [e]) == AllIn(Init(log)) + Concat(Last(log)) + [e];
  }

  /** One event adds its own chunk to the log, and nothing else, unless it shortens the transcript. */
  lemma {:induction false} RouteFlat(log: Log, e: Event, after: seq<Entry>)
    requires |log| <= |after| && (e.EvAssistant? ==> after != [] && Slots(Last(after)) > 0)
    ensures AllIn(Route(log, e, after)) == AllIn(log) + if e.EvAssistant? then [e] else []
  {
    if !e.EvAssistant? {
      NewEntryFlat(log, []);
      assert AllIn(log) + [] == AllIn(log);
    } else if |after| > |log| {
      NewEntryFlat(log, [[e]]);
      AllInLast([], [e]);
      assert [] + [[e]] == [[e]] && [] + [e] == [e];
    } else {
      var last := Last(log);
      if Slots(Last(after)) > |last| {
        AllInLast(last, [e]);
        LastEntryFlat(log, last + [[e]], e);
      } else {
        AllInLast(Init(last), Last(last) + [e]);
        AllInLast(Init(last), Last(last));
        assert Init(last) + [Last(last)] == last;
        assert Concat(Init(last)) + (Last(last) + [e]) == Concat(Init(last)) + Last(last) + [e];
        LastEntryFlat(log, Init(last) + [Last(last) + [e]], e);
      }
    }
  }

  lemma {:induction false} NothingIn(es: seq<Event>)
    ensures AllIn([]) + es == es
  {
    var none: Log := [];
    assert Concat(none) == [] && AllIn(none) == [];
  }

  /** No event shortens the transcript. */
  predicate NeverShorter(s: Thread, es: seq<Event>)
    decreases |es|
  {
    es == [] || (|s.entries| <= |Step(s, es[0]).entries| && NeverShorter(Step(s, es[0]), es[1..]))
  }

  function ChunkEvents(es: seq<Event>): seq<Event> {
    if es == [] then [] else (if es[0].EvAssistant? then [es[0]] else []) + ChunkEvents(es[1..])
  }

  lemma {:induction false} StepRouted(s: Thread, e: Event, log: Log)
    requires Anchored(s) && Accounted(Flush(s), log) && |s.entries| <= |Step(s, e).entries|
    ensures AllIn(Route(log, e, Step(s, e).entries)) == AllIn(log) + if e.EvAssistant? then [e] else []
  {
    FlushedAnchored(s);
    if e.EvAssistant? {
      ChunkLands(s, e.block, e.thought, e.indented, e.subagent);
    }
    RouteFlat(log, e, Step(s, e).entries);
  }

  lemma {:induction false} RunRouted(s: Thread, es: seq<Event>, log: Log)
    requires Anchored(s) && Accounted(Flush(s), log) && NeverShorter(s, es)
    ensures AllIn(RouteAll(log, s, es)) == AllIn(log) + ChunkEvents(es)
    decreases |es|
  {
    if es == [] {
      assert AllIn(log) + [] == AllIn(log);
    } else {
      var e, rest := es[0], es[1..];
      var now := Route(log, e, Step(s, e).entries);
      BufferedAccounted(s, e, log);
      StepRouted(s, e, log);
      RunRouted(Step(s, e), rest, now);
      Assoc(AllIn(log), if e.EvAssistant? then [e] else [], ChunkEvents(rest));
    }
  }

  /** In every run that does not shorten the transcript, every chunk is in exactly one part, and they are in order. */
  lemma {:induction false} EveryChunkLands(es: seq<Event>)
    requires NeverShorter(INITIAL, es)
    ensures AllIn(Routes(es)) == ChunkEvents(es)
  {
    StartsAccounted();
    RunRouted(INITIAL, es, []);
    NothingIn(ChunkEvents(es));
  }
}
