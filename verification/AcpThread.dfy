/**
  The thread as an object that changes in place. `Handle` takes it from one state of the
  model to the next and records the event, so a valid object is in the state of the run it
  has lived through, and what the other modules prove about runs holds of it.
 */
module AcpThreads {
  import opened Prelude
  import opened Utf8
  import opened Float32
  import opened ContentBlocks
  import opened ToolCalls
  import opened ThreadModel
  import opened ThreadShapes
  import Permissions
  import ThreadTurns
  import ToolHistories
  import Turns
  import Terminals

  // ----- The content of a tool call -----

  ghost function Onto(done: seq<ToolContent>, dropped: nat, rest: Overlaid): Overlaid {
    Overlaid(done + rest.content, dropped + rest.dropped, rest.ok)
  }

  /** One item more is done. */
  lemma {:induction false} OneItem(
    done: seq<ToolContent>, dropped: nat, prior: seq<ToolContent>, items: seq<AcpContent>, live: set<Id>)
    requires items != []
    ensures
      var rest := Overlay(OldTail(prior), items[1..], live);
      Onto(done, dropped, Overlay(prior, items, live)) ==
      match Convert(items[0], live)
      case Err => Overlaid(done + prior, dropped, false)
      case Ok(None) => Onto(done + prior[..|prior| - |OldTail(prior)|], dropped + 1, rest)
      case Ok(Some(c)) => Onto(done + [if prior == [] then c else Reuse(prior[0], c)], dropped, rest)
  {
  }

  /** What is known while the first `n` items lie over the old ones. */
  ghost predicate Zipped(
    prior: seq<ToolContent>, items: seq<AcpContent>, live: set<Id>, content: seq<ToolContent>, dropped: nat, n: nat) {
    && n <= |prior| && n <= |items| && dropped <= n && |content| == |prior| && content[n..] == prior[n..]
    && Overlay(prior, items, live) == Onto(content[..n], dropped, Overlay(prior[n..], items[n..], live))
  }

  lemma {:induction false} ZipOne(
    prior: seq<ToolContent>, items: seq<AcpContent>, live: set<Id>, content: seq<ToolContent>, dropped: nat, n: nat)
    requires Zipped(prior, items, live, content, dropped, n) && n < |prior| && n < |items|
    ensures
      match Convert(items[n], live)
      case Err => Overlay(prior, items, live) == Overlaid(content, dropped, false)
      case Ok(None) => Zipped(prior, items, live, content, dropped + 1, n + 1)
      case Ok(Some(c)) => Zipped(prior, items, live, content[n := Reuse(content[n], c)], dropped, n + 1)
  {
    OneItem(content[..n], dropped, prior[n..], items[n..], live);
    assert prior[n..][1..] == prior[n + 1..] && items[n..][1..] == items[n + 1..];
    assert content[n] == prior[n] && content[..n] + prior[n..][..1] == content[..n + 1];
    match Convert(items[n], live)
    case Err => assert content == content[..n] + prior[n..];
    case Ok(None) =>
    case Ok(Some(c)) =>
      var after := content[n := Reuse(content[n], c)];
      assert after[..n + 1] == content[..n] + [after[n]] && after[n + 1..] == content[n + 1..];
  }

  /** New items over old ones; stops where either list ends. */
  method Zip(prior: seq<ToolContent>, items: seq<AcpContent>, live: set<Id>)
    returns (content: seq<ToolContent>, dropped: nat, n: nat, ok: bool)
    ensures ok ==> Zipped(prior, items, live, content, dropped, n) && (n == |prior| || n == |items|)
    ensures !ok ==> !Overlay(prior, items, live).ok && Overlay(prior, items, live).content == content
  {
    content, dropped, n, ok := prior, 0, 0, true;
    assert Onto([], 0, Overlay(prior, items, live)) == Overlay(prior, items, live);
    while n < |prior| && n < |items|
      invariant Zipped(prior, items, live, content, dropped, n)
    {
      ZipOne(prior, items, live, content, dropped, n);
      match Convert(items[n], live) {
        case Err => return content, dropped, n, false;
        case Ok(None) => dropped := dropped + 1;
        case Ok(Some(c)) => content := content[n := Reuse(content[n], c)];
      }
      n := n + 1;
    }
  }

  method Extend(content0: seq<ToolContent>, dropped0: nat, items: seq<AcpContent>, live: set<Id>)
    returns (content: seq<ToolContent>, dropped: nat, ok: bool)
    ensures Onto(content0, dropped0, Overlay([], items, live)) == Overlaid(content, dropped, ok)
    ensures dropped <= dropped0 + |items|
  {
    content, dropped, ok := content0, dropped0, true;
    var i := 0;
    while i < |items|
      invariant i <= |items| && dropped <= dropped0 + i
      invariant Onto(content0, dropped0, Overlay([], items, live))
        == Onto(content, dropped, Overlay([], items[i..], live))
    {
      OneItem(content, dropped, [], items[i..], live);
      assert items[i..][1..] == items[i + 1..];
      match Convert(items[i], live) {
        case Err =>
          assert content + [] == content;
          return content, dropped, false;
        case Ok(None) =>
          assert content + [] == content;
          dropped := dropped + 1;
        case Ok(Some(c)) =>
          content := content + [c];
      }
      i := i + 1;
    }
    assert content + [] == content;
  }

  /** The new content list laid over the old one in place: zip, extend, truncate. */
  method UpdateContentInPlace(prior: seq<ToolContent>, items: seq<AcpContent>, live: set<Id>)
    returns (content: seq<ToolContent>, ok: bool)
    ensures (content, ok) == UpdateContent(prior, items, live)
  {
    var dropped, n;
    content, dropped, n, ok := Zip(prior, items, live);
    if !ok {
      return;
    }
    if n < |items| {
      assert prior[n..] == [] && content[..n] == content;
      content, dropped, ok := Extend(content, dropped, items[n..], live);
    } else {
      assert items[n..] == [] && content == content[..n] + prior[n..];
    }
    if ok {
      content := Truncate(content, |items| - dropped);
    }
  }

  method RestateInPlace(call: ToolCall, u: Update, now: nat) returns (c: ToolCall)
    ensures c == Restate(call, u, now)
  {
    var f := u.fields;
    c := call;
    if f.kind.Some? {
      c := c.(kind := f.kind.value);
    }
    if f.status.Some? {
      var status := FromAcp(f.status.value);
      if status.InProgress? && !c.status.InProgress? {
        c := c.(startedAt := Some(now));
      }
      c := c.(status := status);
    }
    if u.meta.session.Some? {
      c := c.(session := u.meta.session);
    }
    if f.title.Some? {
      c := c.(title := f.title.value);
    }
  }

  method RefillInPlace(call: ToolCall, f: Fields, live: set<Id>) returns (c: ToolCall, ok: bool)
    ensures (c, ok) == Refill(call, f, live)
  {
    c, ok := call, true;
    if f.content.Some? {
      var content;
      content, ok := UpdateContentInPlace(c.content, f.content.value, live);
      c := c.(content := content);
      if !ok {
        return;
      }
    }
    if f.locations.Some? {
      c := c.(locations := f.locations.value);
    }
    if f.rawInput.Some? {
      c := c.(rawInput := f.rawInput);
    }
    if f.rawOutput.Some? {
      if c.content == [] && f.rawOutput.value.markdown.Some? {
        c := c.(content := [BlockContent(TextBlock(f.rawOutput.value.markdown.value))]);
      }
      c := c.(rawOutput := f.rawOutput);
    }
  }

  lemma {:induction false} CancelOne(es: seq<Entry>, i: nat)
    requires i < |es|
    ensures (CancelEntries(es[..i]) + es[i..])[i := CancelEntry(es[i])] == CancelEntries(es[..i + 1]) + es[i + 1..]
    ensures RetireAll(es[..i + 1]) == RetireAll(es[..i]) + if es[i].Tool? then Retire(es[i].call.status) else []
  {
    assert Init(es[..i + 1]) == es[..i] && Last(es[..i + 1]) == es[i];
  }

  lemma {:induction false} KeepOne(kept: seq<PlanItem>, plan: seq<PlanItem>, i: nat)
    requires i < |plan|
    ensures kept + Unfinished(plan[i..])
         == (if plan[i].status.PlanCompleted? then kept else kept + [plan[i]]) + Unfinished(plan[i + 1..])
  {
    assert plan[i..][0] == plan[i] && plan[i..][1..] == plan[i + 1..];
  }

  class AcpThread {
    var entries: seq<Entry>
    var texts: Store
    var buffer: Option<Buffer>
    var plan: seq<PlanItem>
    var turnId: nat
    var runningTurn: Option<nat>
    var terminals: map<Id, nat>
    var pendingTerminalOutput: map<Id, seq<Text>>
    var pendingTerminalExit: map<Id, int>
    var hadError: bool
    // The executor's view of the send tasks, and what has gone out on channels and terminals.
    var tasks: seq<Turns.Task>
    var prompts: seq<Turns.Prompt>
    var orphans: set<nat>
    var started: seq<nat>
    var entities: nat
    var writes: seq<Terminals.Write>
    var ledger: Ledger
    ghost var history: seq<Event>

    ghost function State(): Thread
      reads this
    {
      Thread(entries, texts, buffer, plan,
             Turns.Turns(turnId, runningTurn, tasks, prompts, orphans, started),
             Terminals.Terms(terminals, entities, pendingTerminalOutput, pendingTerminalExit, writes),
             ledger, hadError)
    }

    /** The object is where its history has led. */
    ghost predicate Valid()
      reads this
    {
      State() == Run(INITIAL, history)
    }

    constructor ()
      ensures Valid() && history == []
    {
      history := [];
      entries, texts, buffer, plan := [], [], None, [];
      turnId, runningTurn, tasks, prompts, orphans, started := 0, None, [], [], {}, [];
      terminals, entities, pendingTerminalOutput, pendingTerminalExit, writes := map[], 0, map[], map[], [];
      ledger, hadError := Ledger(0, []), false;
    }

    // ----- Streaming text -----

    method FlushStreamingText()
      modifies this`texts, this`buffer
      ensures State() == Flush(old(State()))
    {
      if buffer.Some? {
        texts := AppendText(texts, buffer.value.target, buffer.value.pending);
        buffer := None;
      }
    }

    method PushNewEntry(e: Entry)
      modifies this`texts, this`buffer, this`entries
      ensures State() == PushEntry(old(State()), e)
    {
      FlushStreamingText();
      entries := entries + [e];
    }

    method BufferStreamingText(target: BlockId, text: Text)
      modifies this`texts, this`buffer
      ensures State() == BufferText(old(State()), target, text)
    {
      if buffer.Some? {
        if buffer.value.target == target {
          var pending := buffer.value.pending + text;
          buffer := Some(Buffer(pending, BytesPerTick(|pending|), target));
          return;
        }
        FlushStreamingText();
      }
      buffer := Some(Buffer(text, BytesPerTick(|text|), target));
    }

    /** One turn of the reveal task's loop. */
    method RevealTick()
      modifies this`texts, this`buffer
      ensures State() == Tick(old(State()))
    {
      if buffer.None? || buffer.value.pending == [] {
        return;
      }
      var b := buffer.value;
      var boundary := Ceil(b.pending, b.perTick);
      texts := AppendText(texts, b.target, b.pending[..boundary]);
      buffer := Some(b.(pending := b.pending[boundary..]));
    }

    method PlaceInLastMessage(cb: ContentBlock, thought: bool, indented: bool, subagent: Option<Id>)
      requires Joins(entries, indented, subagent)
      modifies this`texts, this`entries
      ensures State() == Place(old(State()), cb, thought, indented, subagent)
    {
      var message := Last(entries);
      if Continues(entries, thought, indented, subagent) {
        var (store, block) := Append(texts, Last(message.parts).block, cb);
        texts, entries := store, SetLast(entries, message.(parts := Init(message.parts) + [Part(thought, block)]));
      } else {
        var (store, block) := Append(texts, Empty, cb);
        texts, entries := store, SetLast(entries, message.(parts := message.parts + [Part(thought, block)]));
      }
    }

    method PlaceInNewMessage(cb: ContentBlock, thought: bool, indented: bool, subagent: Option<Id>)
      requires !Joins(entries, indented, subagent)
      modifies this`texts, this`buffer, this`entries
      ensures State() == Place(old(State()), cb, thought, indented, subagent)
    {
      var (store, block) := Append(texts, Empty, cb);
      texts := store;
      PushNewEntry(Assistant([Part(thought, block)], indented, false, subagent));
    }

    method PushAssistantContentBlock(cb: ContentBlock, thought: bool, indented: bool, subagent: Option<Id>)
      modifies this`texts, this`buffer, this`entries
      ensures State() == PushAssistant(old(State()), cb, thought, indented, subagent)
    {
      if cb.TextBlock? && Streams(entries, thought, indented, subagent) {
        BufferStreamingText(Last(Last(entries).parts).block.id, cb.text);
      } else if Joins(entries, indented, subagent) {
        FlushStreamingText();
        PlaceInLastMessage(cb, thought, indented, subagent);
      } else {
        PlaceInNewMessage(cb, thought, indented, subagent);
      }
    }

    // ----- User messages -----

    method PushUserContentBlock(id: Option<Id>, cb: ContentBlock, indented: bool)
      modifies this`texts, this`buffer, this`entries
      ensures State() == PushUser(old(State()), id, cb, indented)
    {
      if entries != [] && Last(entries).User? && Last(entries).indented == indented {
        FlushStreamingText();
        var message := Last(entries);
        var (store, block) := Append(texts, message.content, cb);
        texts := store;
        entries := SetLast(entries, User(if id.Some? then id else message.id, block, message.chunks + [cb], indented));
      } else {
        var (store, block) := Append(texts, Empty, cb);
        texts := store;
        PushNewEntry(User(id, block, [cb], indented));
      }
    }

    method PushUserMessageEntry(id: Option<Id>, blocks: seq<ContentBlock>)
      modifies this`texts, this`buffer, this`entries
      ensures State() == PushMessage(old(State()), id, blocks)
    {
      var content := Empty;
      var i := 0;
      while i < |blocks|
        invariant i <= |blocks|
        invariant State() == old(State()).(texts := texts)
        invariant Combined(texts, content, blocks[i..]) == Combined(old(texts), Empty, blocks)
      {
        assert blocks[i..][0] == blocks[i] && blocks[i..][1..] == blocks[i + 1..];
        var (store, block) := Append(texts, content, blocks[i]);
        texts, content, i := store, block, i + 1;
      }
      PushNewEntry(User(id, content, blocks, false));
    }

    /** A user chunk of a session update; one already in the current message is an echo. */
    method HandleUserChunk(cb: ContentBlock)
      modifies this`texts, this`buffer, this`entries
      ensures State() == UserChunk(old(State()), cb)
    {
      if !(entries != [] && Last(entries).User? && cb in Last(entries).chunks) {
        PushUserContentBlock(None, cb, false);
      }
    }

    // ----- Tool calls and permissions -----

    method IndexForToolCall(id: Id) returns (ix: Option<nat>)
      ensures ix == FindCall(entries, id)
    {
      var i := |entries|;
      while i > 0
        invariant 0 <= i <= |entries|
        invariant forall j | i <= j < |entries| :: !IsCall(entries[j], id)
      {
        i := i - 1;
        if IsCall(entries[i], id) {
          return Some(i);
        }
      }
      return None;
    }

    /** The old status is dropped, and with it the sender it may own. */
    method SetCall(ix: nat, call: ToolCall, dropped: Status)
      requires ix < |entries|
      modifies this`entries, this`ledger
      ensures State()
           == old(State()).(entries := old(entries)[ix := Tool(call)], ledger := Log(old(ledger), Retire(dropped)))
    {
      entries := entries[ix := Tool(call)];
      ledger := Log(ledger, Retire(dropped));
    }

    method UpdateCallFields(call: ToolCall, u: Update, now: nat) returns (call': ToolCall, ok: bool)
      ensures (call', ok) == UpdateFields(call, u, terminals.Keys, now)
    {
      var c := RestateInPlace(call, u, now);
      call', ok := RefillInPlace(c, u.fields, terminals.Keys);
    }

    method UpdateToolCall(u: ToolUpdate, now: nat)
      modifies this`texts, this`buffer, this`entries, this`ledger
      ensures State() == UpdateTool(old(State()), u, now)
    {
      var found := IndexForToolCall(UpdateId(u));
      if found.None? {
        PushNewEntry(Tool(NotFound(UpdateId(u), NOT_FOUND)));
        return;
      }
      var ix := found.value;
      var call := entries[ix].call;
      match u
      case FieldsUpdate(update) =>
        var call', ok := UpdateCallFields(call, update, now);
        if update.fields.status.Some? {
          SetCall(ix, call', call.status);
        } else {
          entries := entries[ix := Tool(call')];
        }
      case ContentUpdate(_, content) =>
        entries := entries[ix := Tool(call.(content := [content]))];
    }

    method UpsertKnownCall(ix: nat, u: Update, status: Status, now: nat)
      requires FindCall(entries, u.id) == Some(ix)
      modifies this`entries, this`ledger
      ensures State() == UpsertTool(old(State()), u, status, now)
    {
      var call := entries[ix].call;
      var call', ok := UpdateCallFields(call, u, now);
      if ok {
        SetCall(ix, call'.(status := status), call.status);
      } else {
        entries := entries[ix := Tool(call')];
        ledger := Log(ledger, (if u.fields.status.Some? then Retire(call.status) else []) + Retire(status));
      }
    }

    method UpsertToolCall(u: Update, status: Status, now: nat)
      modifies this`texts, this`buffer, this`entries, this`ledger
      ensures State() == UpsertTool(old(State()), u, status, now)
    {
      var found := IndexForToolCall(u.id);
      if found.Some? {
        UpsertKnownCall(found.value, u, status, now);
      } else {
        match NewCall(u, status, terminals.Keys, now)
        case Err => ledger := Log(ledger, Retire(status));
        case Ok(call) => PushNewEntry(Tool(call));
      }
    }

    method RequestToolCallAuthorization(u: Update, now: nat) returns (request: nat)
      modifies this`texts, this`buffer, this`entries, this`ledger
      ensures State() == RequestPermission(old(State()), u, now) && request == old(ledger.issued)
    {
      request := ledger.issued;
      ledger := ledger.(issued := request + 1);
      assert State() == Issue(old(State()));
      UpsertToolCall(u, Waiting(request), now);
    }

    method AuthorizeToolCall(id: Id, choice: Choice)
      modifies this`entries, this`ledger
      ensures State() == Authorize(old(State()), id, choice)
    {
      var found := IndexForToolCall(id);
      if found.None? {
        return;
      }
      var call := entries[found.value].call;
      var status := call.status;
      entries := entries[found.value := Tool(call.(status := if choice.rejects then Rejected else InProgress))];
      if status.Waiting? {
        ledger := Log(ledger, [(status.tx, Selected(choice))]);
      }
    }

    method MarkPendingToolsAsCanceled()
      modifies this`entries, this`ledger
      ensures State() == MarkCanceled(old(State()))
    {
      var i := 0;
      ghost var before := entries;
      assert CancelEntries(before[..0]) + before[0..] == before && RetireAll(before[..0]) == [];
      while i < |entries|
        invariant i <= |entries| == |before|
        invariant entries == CancelEntries(before[..i]) + before[i..]
        invariant ledger == Log(old(ledger), RetireAll(before[..i]))
      {
        CancelOne(before, i);
        var e := entries[i];
        if e.Tool? && Cancellable(e.call.status) {
          ledger := Log(ledger, Retire(e.call.status));
          entries := entries[i := Tool(e.call.(status := Canceled))];
        }
        i := i + 1;
      }
      assert before[..i] == before && before[i..] == [];
    }

    // ----- Plans -----

    method UpdatePlan(request: seq<PlanItem>)
      modifies this`plan
      ensures State() == old(State()).(plan := request)
    {
      var i := 0;
      while i < |plan| && i < |request|
        invariant i <= |request| && i <= |plan| == |old(plan)|
        invariant plan[..i] == request[..i]
      {
        plan := plan[i := PlanItem(request[i].content, request[i].priority, request[i].status)];
        i := i + 1;
      }
      while i < |request|
        invariant i <= |request| && i <= |plan| && plan[..i] == request[..i]
        invariant i < |request| ==> i == |plan|
      {
        plan := plan + [request[i]];
        i := i + 1;
      }
      plan := Truncate(plan, |request|);
    }

    method SnapshotCompletedPlan()
      modifies this`texts, this`buffer, this`entries, this`plan
      ensures State() == SnapshotPlan(old(State()))
    {
      if plan != [] && !StillPending(plan) {
        var completed := plan;
        plan := [];
        PushNewEntry(CompletedPlan(completed));
      }
    }

    method ClearCompletedPlanEntries()
      modifies this`plan
      ensures State() == old(State()).(plan := Unfinished(old(plan)))
    {
      var kept, i := [], 0;
      assert [] + Unfinished(plan) == Unfinished(plan) && plan[0..] == plan;
      while i < |plan|
        invariant i <= |plan| && plan == old(plan)
        invariant kept + Unfinished(plan[i..]) == Unfinished(plan)
      {
        KeepOne(kept, plan, i);
        if !plan[i].status.PlanCompleted? {
          kept := kept + [plan[i]];
        }
        i := i + 1;
      }
      assert kept + [] == kept;
      plan := kept;
    }

    // ----- Turns -----

    /** What `cancel` does when a turn is running, apart from taking it. */
    method StopGenerating()
      modifies this`texts, this`buffer, this`entries, this`ledger
      ensures State() == CancelEffects(old(State()))
    {
      if runningTurn.Some? {
        FlushStreamingText();
        MarkPendingToolsAsCanceled();
      }
    }

    method CancelRunningTurn()
      modifies this`texts, this`buffer, this`entries, this`ledger, this`runningTurn, this`orphans
      ensures State() == CancelTurn(old(State()))
    {
      StopGenerating();
      if runningTurn.Some? {
        orphans := orphans + {runningTurn.value};
        runningTurn := None;
      }
    }

    method PrepareTurn()
      modifies this`plan, this`hadError, this`texts, this`buffer, this`entries, this`ledger
      ensures State() == CancelEffects(old(State()).(plan := Unfinished(old(plan)), hadError := false))
    {
      ClearCompletedPlanEntries();
      hadError := false;
      StopGenerating();
    }

    method RunTurn(p: Turns.Prompt) returns (turn: nat)
      modifies this`plan, this`hadError, this`texts, this`buffer, this`entries, this`ledger
      modifies this`turnId, this`runningTurn, this`tasks, this`prompts
      ensures State() == BeginTurn(old(State()), p) && turn == old(turnId) + 1
    {
      PrepareTurn();
      var previous := runningTurn;
      turnId := turnId + 1;
      turn := turnId;
      runningTurn := Some(turn);
      tasks, prompts := tasks + [Turns.Waiting(previous)], prompts + [p];
    }

    /** The send task has stopped waiting and runs its prompt body up to the call of the agent. */
    method StartBody(t: nat)
      modifies this`texts, this`buffer, this`entries, this`tasks, this`started
      ensures State() == StartTurn(old(State()), t)
    {
      if !Turns.CanStart(Turns.Turns(turnId, runningTurn, tasks, prompts, orphans, started), t) {
        return;
      }
      tasks, started := tasks[t - 1 := Turns.Running], started + [t];
      match prompts[t - 1]
      case Message(id, blocks) => PushUserMessageEntry(Some(id), blocks);
      case Retry =>
    }

    method LastUserMessage() returns (ix: Option<nat>)
      ensures ix == LastUser(entries)
    {
      var i := |entries|;
      while i > 0
        invariant 0 <= i <= |entries|
        invariant forall j | i <= j < |entries| :: !entries[j].User?
      {
        i := i - 1;
        if entries[i].User? {
          return Some(i);
        }
      }
      return None;
    }

    method TruncateTo(n: nat)
      requires n <= |entries|
      modifies this`entries, this`ledger
      ensures State() == TruncateEntries(old(State()), n)
    {
      ledger := Log(ledger, RetireAll(entries[n..]));
      entries := entries[..n];
    }

    method HandleRefusal()
      modifies this`entries, this`ledger, this`hadError
      ensures State() == Refuse(old(State()))
    {
      hadError := true;
      var user := LastUserMessage();
      if user.None? {
        return;
      }
      var i := user.value + 1;
      while i < |entries|
        invariant user.value + 1 <= i <= |entries|
        invariant forall j | user.value + 1 <= j < i :: !CompletedWithOutput(entries[j])
      {
        if CompletedWithOutput(entries[i]) {
          return;
        }
        i := i + 1;
      }
      TruncateTo(user.value);
    }

    method HandleOutcome(response: Turns.Response)
      modifies this`texts, this`buffer, this`entries, this`plan, this`ledger, this`hadError
      ensures State() == HandleResponse(old(State()), response)
    {
      match response
      case Failure => hadError := true;
      case Answered(reason) =>
        if reason.MaxTokens? {
          hadError := true;
          return;
        }
        if reason.Cancelled? {
          MarkPendingToolsAsCanceled();
        } else {
          SnapshotCompletedPlan();
        }
        if reason.Refusal? {
          HandleRefusal();
        }
    }

    method TurnCompleted(t: nat)
      modifies this`texts, this`buffer, this`entries, this`plan, this`ledger, this`hadError
      modifies this`tasks, this`runningTurn
      ensures State() == CompleteTurn(old(State()), t)
    {
      if !(1 <= t <= |tasks| && tasks[t - 1].Finished?) {
        return;
      }
      var response := tasks[t - 1].response;
      tasks := tasks[t - 1 := Turns.Handled];
      if runningTurn == Some(t) {
        runningTurn := None;
      }
      FlushStreamingText();
      HandleOutcome(response);
    }

    // ----- Rewinding -----

    method UserMessageIndex(id: Id) returns (ix: Option<nat>)
      ensures ix == FindUser(entries, id)
    {
      var i := 0;
      while i < |entries|
        invariant i <= |entries|
        invariant forall j | 0 <= j < i :: !(entries[j].User? && entries[j].id == Some(id))
      {
        if entries[i].User? && entries[i].id == Some(id) {
          return Some(i);
        }
        i := i + 1;
      }
      return None;
    }

    method ReleaseTerminals(ids: set<Id>)
      modifies this`terminals
      ensures State() == old(State()).(terms := Terminals.Step(old(State().terms), Terminals.Release(ids)))
    {
      var left := ids;
      while left != {}
        invariant left <= ids && terminals == old(terminals) - (ids - left)
        decreases left
      {
        var id :| id in left;
        terminals, left := terminals - {id}, left - {id};
      }
    }

    /** The second half of `rewind`. */
    method FinishRewind(id: Id)
      modifies this`entries, this`ledger, this`terminals
      ensures State() == RewindEnd(old(State()), id)
    {
      var ix := UserMessageIndex(id);
      if ix.Some? {
        var toRemove := TerminalIds(entries[ix.value..]);
        TruncateTo(ix.value);
        ReleaseTerminals(toRemove);
      }
    }

    method MarkAsSubagentOutput()
      modifies this`entries
      ensures State() == MarkSubagent(old(State()))
    {
      var i := |entries|;
      while i > 0
        invariant 0 <= i <= |entries| && entries == old(entries)
        invariant forall j | i <= j < |entries| :: !entries[j].Assistant?
      {
        i := i - 1;
        if entries[i].Assistant? {
          assert LastAssistant(entries) == Some(i);
          entries := entries[i := entries[i].(subagentOutput := true)];
          return;
        }
      }
    }

    // ----- Terminals -----

    method RegisterTerminal(id: Id) returns (entity: nat)
      modifies this`terminals, this`entities
      ensures entity == old(entities)
      ensures State() == old(State()).(terms := Terminals.Register(old(State().terms), id))
    {
      entity := entities;
      terminals, entities := terminals[id := entity], entities + 1;
    }

    method WriteAll(entity: nat, id: Id, chunks: seq<Text>)
      modifies this`writes
      ensures writes == old(writes) + Terminals.Tagged(entity, id, chunks)
    {
      var i := 0;
      while i < |chunks|
        invariant i <= |chunks|
        invariant writes == old(writes) + Terminals.Tagged(entity, id, chunks[..i])
      {
        assert Terminals.Tagged(entity, id, chunks[..i + 1])
            == Terminals.Tagged(entity, id, chunks[..i]) + [Terminals.Write(entity, id, chunks[i])];
        writes := writes + [Terminals.Write(entity, id, chunks[i])];
        i := i + 1;
      }
      assert chunks[..i] == chunks;
    }

    method TerminalCreated(id: Id)
      modifies this`terminals, this`entities, this`pendingTerminalOutput, this`pendingTerminalExit, this`writes
      ensures State() == old(State()).(terms := Terminals.Step(old(State().terms), Terminals.Created(id)))
    {
      var entity := RegisterTerminal(id);
      if id in pendingTerminalOutput {
        var chunks := pendingTerminalOutput[id];
        pendingTerminalOutput := pendingTerminalOutput - {id};
        WriteAll(entity, id, chunks);
      } else {
        assert pendingTerminalOutput == pendingTerminalOutput - {id};
        assert writes == writes + Terminals.Tagged(entity, id, []);
      }
      pendingTerminalExit := pendingTerminalExit - {id};
    }

    method OnTerminalProviderEvent(e: Terminals.Event)
      modifies this`terminals, this`entities, this`pendingTerminalOutput, this`pendingTerminalExit, this`writes
      ensures State() == old(State()).(terms := Terminals.Step(old(State().terms), e))
    {
      match e
      case Created(id) => TerminalCreated(id);
      case Output(id, data) =>
        if id in terminals {
          writes := writes + [Terminals.Write(terminals[id], id, data)];
        } else {
          var chunks := if id in pendingTerminalOutput then pendingTerminalOutput[id] else [];
          pendingTerminalOutput := pendingTerminalOutput[id := chunks + [data]];
        }
      case Exit(id, status) =>
        if id !in terminals {
          pendingTerminalExit := pendingTerminalExit[id := status];
        }
      case Local(id) => var _ := RegisterTerminal(id);
      case Release(ids) => ReleaseTerminals(ids);
    }

    // ----- Everything that can happen -----

    method TaskFinished(t: nat, response: Turns.Response)
      modifies this`tasks
      ensures State() == old(State()).(turns := Turns.Finish(old(State().turns), t, response))
    {
      if 1 <= t <= |tasks| && tasks[t - 1].Running? {
        tasks := tasks[t - 1 := Turns.Finished(response)];
      }
    }

    /** The caller of `cancel` drops the task it was given. */
    method TaskDropped(t: nat)
      modifies this`tasks, this`orphans
      ensures State() == old(State()).(turns := Turns.DropOrphan(old(State().turns), t))
    {
      if t in orphans {
        tasks, orphans := Turns.DropTasks(tasks, t), orphans - {t};
      }
    }

    method TurnStep(e: Event)
      requires TurnEvent(e) && !e.EvComplete?
      modifies this`plan, this`hadError, this`texts, this`buffer, this`entries, this`ledger
      modifies this`turnId, this`runningTurn, this`tasks, this`prompts, this`orphans
      ensures State() == Step(old(State()), e)
    {
      match e
      case EvBegin(p) => var _ := RunTurn(p);
      case EvFinish(t, response) => TaskFinished(t, response);
      case EvCancel => CancelRunningTurn();
      case EvDrop(t) => TaskDropped(t);
    }

    method ToolStep(e: Event)
      requires ToolEvent(e)
      modifies this`texts, this`buffer, this`entries, this`ledger
      ensures State() == Step(old(State()), e)
    {
      match e
      case EvUpdateTool(u, now) => UpdateToolCall(u, now);
      case EvUpsertTool(u, status, now) =>
        UpsertToolCall(u.(fields := u.fields.(status := Some(status))), FromAcp(status), now);
      case EvRequest(u, now) => var _ := RequestToolCallAuthorization(u, now);
      case EvAuthorize(id, choice) => AuthorizeToolCall(id, choice);
    }

    method MessageStep(e: Event)
      requires MessageEvent(e)
      modifies this`texts, this`buffer, this`entries, this`plan, this`tasks, this`started
      ensures State() == Step(old(State()), e)
    {
      match e
      case EvUserChunk(cb) => HandleUserChunk(cb);
      case EvPushUser(id, cb, indented) => PushUserContentBlock(id, cb, indented);
      case EvPushMessage(id, cbs) => if cbs != [] { PushUserMessageEntry(id, cbs); }
      case EvAssistant(cb, thought, indented, subagent) => PushAssistantContentBlock(cb, thought, indented, subagent);
      case EvSnapshotPlan => SnapshotCompletedPlan();
      case EvStart(t) => StartBody(t);
      case EvMarkSubagent => MarkAsSubagentOutput();
    }

    method CompletionStep(t: nat)
      modifies this`texts, this`buffer, this`entries, this`plan, this`ledger, this`hadError
      modifies this`tasks, this`runningTurn
      ensures State() == Step(old(State()), EvComplete(t))
    {
      TurnCompleted(t);
    }

    method QuietStep(e: Event)
      requires !ToolEvent(e) && !MessageEvent(e) && !TurnEvent(e)
      modifies this`texts, this`buffer, this`plan, this`entries, this`ledger
      modifies this`terminals, this`entities, this`pendingTerminalOutput, this`pendingTerminalExit, this`writes
      ensures State() == Step(old(State()), e)
    {
      match e
      case EvTick => RevealTick();
      case EvUpdatePlan(request) => UpdatePlan(request);
      case EvClearPlan => plan := [];
      case EvRewindBegin => FlushStreamingText();
      case EvRewindEnd(id) => FinishRewind(id);
      case EvTerminal(ev) => OnTerminalProviderEvent(ev);
    }

    method Dispatch(e: Event)
      modifies this
      ensures State() == Step(old(State()), e) && history == old(history)
    {
      if ToolEvent(e) {
        ToolStep(e);
      } else if MessageEvent(e) {
        MessageStep(e);
      } else if e.EvComplete? {
        CompletionStep(e.turn);
      } else if TurnEvent(e) {
        TurnStep(e);
      } else {
        QuietStep(e);
      }
    }

    method Handle(e: Event)
      requires Valid()
      modifies this
      ensures Valid() && history == old(history) + [e] && State() == Step(old(State()), e)
    {
      Dispatch(e);
      RunLast(INITIAL, history, e);
      history := history + [e];
    }

    // ----- Questions to a thread -----

    /** Generating or idle. A generating thread stays so when any turn but the newest completes. */
    method IsGenerating() returns (generating: bool)
      requires Valid()
      ensures generating <==> ThreadTurns.Generating(State())
      ensures generating ==> forall t: nat | t != turnId :: ThreadTurns.Generating(Step(State(), EvComplete(t)))
    {
      generating := runningTurn.Some?;
      if generating {
        forall t: nat | t != turnId
          ensures ThreadTurns.Generating(Step(State(), EvComplete(t)))
        {
          ThreadTurns.LateCompletionKeepsGenerating(history, t);
        }
      }
    }

    /** The call found is the only one with its id, and is what the changes addressed to it have made of it. */
    method FindToolCall(id: Id) returns (call: Option<ToolCall>)
      requires Valid()
      ensures call == ToolHistories.ApplyAll(None, ToolHistories.History(INITIAL, history, id), id)
      ensures forall i | 0 <= i < |entries| && IsCall(entries[i], id) :: call == Some(entries[i].call)
    {
      ToolHistories.CallIsFoldOfItsChanges(history, id);
      ToolHistories.ScanIsLookup(history, id);
      var found := IndexForToolCall(id);
      call := if found.None? then None else Some(entries[found.value].call);
    }

    /** Some request is unanswered whose call comes after the last user message. */
    method IsWaitingForConfirmation() returns (waiting: bool)
      requires Valid()
      ensures waiting <==> exists r: nat, i: nat :: Permissions.OpenAt(State(), r, i) && NoUserAfter(entries, i)
    {
      var i := |entries|;
      while i > 0
        invariant 0 <= i <= |entries|
        invariant forall j | i <= j < |entries| :: !entries[j].User? && !AwaitsAnswer(entries[j])
      {
        i := i - 1;
        if entries[i].User? {
          assert forall k: nat | NoUserAfter(entries, k) :: i <= k;
          return false;
        }
        if AwaitsAnswer(entries[i]) {
          var r := entries[i].call.status.tx;
          Permissions.HeldIsOpen(history, r, i);
          assert Permissions.OpenAt(State(), r, i) && NoUserAfter(entries, i);
          return true;
        }
      }
      return false;
    }
  }

  predicate AwaitsAnswer(e: Entry) {
    e.Tool? && e.call.status.Waiting?
  }

  predicate NoUserAfter(es: seq<Entry>, i: nat) {
    i < |es| && forall j | i < j < |es| :: !es[j].User?
  }

  /** A thread that has lived through `es` is in the state the model says, whatever the events were. */
  method Replay(es: seq<Event>) returns (thread: AcpThread)
    ensures fresh(thread) && thread.Valid() && thread.history == es
  {
    thread := new AcpThread();
    var i := 0;
    while i < |es|
      invariant i <= |es| && fresh(thread)
      invariant thread.Valid() && thread.history == es[..i]
    {
      thread.Handle(es[i]);
      i := i + 1;
    }
    assert es[..i] == es;
  }
}
