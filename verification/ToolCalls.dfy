/** Tool calls: statuses that own the sender of a permission answer, and field updates. */
module ToolCalls {
  import opened Prelude
  import opened Utf8
  import opened ContentBlocks

  datatype AcpStatus = AcpPending | AcpInProgress | AcpCompleted | AcpFailed | AcpOther

  /** `Waiting` owns the sending half of request `tx`'s answer channel. */
  datatype Status = Pending | Waiting(tx: nat) | InProgress | Completed | Failed | Rejected | Canceled

  function FromAcp(status: AcpStatus): Status {
    match status
    case AcpInProgress => InProgress
    case AcpCompleted => Completed
    case AcpFailed => Failed
    case _ => Pending
  }

  datatype AcpContent =
    | AcpBlock(block: ContentBlock)
    | AcpDiff(path: Text, oldText: Option<Text>, newText: Text)
    | AcpTerminal(terminal: Id)
    | AcpUnknown

  datatype ToolContent =
    | BlockContent(block: ContentBlock)
    | DiffContent(path: Text, oldText: Text, newText: Text)
    | TerminalContent(terminal: Id)

  /** `ToolCallContent::from_acp`: `None` for an unrecognised item, an error for an unknown terminal. */
  function Convert(item: AcpContent, live: set<Id>): Result<Option<ToolContent>> {
    match item
    case AcpBlock(block) => Ok(Some(BlockContent(block)))
    case AcpDiff(path, oldText, newText) =>
      Ok(Some(DiffContent(path, if oldText.Some? then oldText.value else [], newText)))
    case AcpTerminal(t) => if t in live then Ok(Some(TerminalContent(t))) else Err
    case AcpUnknown => Ok(None)
  }

  predicate Recognised(item: AcpContent, live: set<Id>) {
    match item
    case AcpTerminal(t) => t in live
    case AcpUnknown => false
    case _ => true
  }

  /** `Diff::needs_update` looks at the two texts and not at the path. */
  predicate SameTexts(a: ToolContent, b: ToolContent) {
    a.DiffContent? && b.DiffContent? && a.oldText == b.oldText && a.newText == b.newText
  }

  function Reuse(prior: ToolContent, next: ToolContent): ToolContent {
    if SameTexts(prior, next) then prior else next
  }

  datatype Overlaid = Overlaid(content: seq<ToolContent>, dropped: nat, ok: bool)

  function OldTail(prior: seq<ToolContent>): seq<ToolContent> {
    if prior == [] then [] else prior[1..]
  }

  /** New items laid over the old ones, before the final truncation. */
  function Overlay(prior: seq<ToolContent>, items: seq<AcpContent>, live: set<Id>): Overlaid
    decreases |items|
  {
    if items == [] then Overlaid(prior, 0, true)
    else
      match Convert(items[0], live)
      case Err => Overlaid(prior, 0, false)
      case Ok(None) =>
        var r := Overlay(OldTail(prior), items[1..], live);
        Overlaid(prior[..|prior| - |OldTail(prior)|] + r.content, r.dropped + 1, r.ok)
      case Ok(Some(c)) =>
        var r := Overlay(OldTail(prior), items[1..], live);
        Overlaid([if prior == [] then c else Reuse(prior[0], c)] + r.content, r.dropped, r.ok)
  }

  /** The `content` arm of `ToolCall::update_fields`; an error leaves the list half updated. */
  function UpdateContent(prior: seq<ToolContent>, items: seq<AcpContent>, live: set<Id>): (seq<ToolContent>, bool) {
    var r := Overlay(prior, items, live);
    if r.ok && r.dropped <= |items| then (Truncate(r.content, |items| - r.dropped), true) else (r.content, r.ok)
  }

  /** What `ToolCall::from_acp` builds from scratch. */
  function Rebuild(items: seq<AcpContent>, live: set<Id>): Result<seq<ToolContent>> {
    if items == [] then Ok([])
    else
      match Convert(items[0], live)
      case Err => Err
      case Ok(c) =>
        var rest := Rebuild(items[1..], live);
        if rest.Err? then Err else Ok((if c.Some? then [c.value] else []) + rest.value)
  }

  datatype Json = Json(value: string, markdown: Option<Text>)

  datatype Fields = Fields(
    kind: Option<string>, status: Option<AcpStatus>, title: Option<string>,
    content: Option<seq<AcpContent>>, locations: Option<seq<string>>,
    rawInput: Option<Json>, rawOutput: Option<Json>)

  datatype Meta = Meta(toolName: Option<string>, session: Option<Id>, subagent: Option<Id>)

  datatype Update = Update(id: Id, fields: Fields, meta: Meta)

  datatype ToolCall = ToolCall(
    id: Id, title: string, kind: string, content: seq<ToolContent>, status: Status,
    locations: seq<string>, rawInput: Option<Json>, rawOutput: Option<Json>,
    toolName: Option<string>, session: Option<Id>, subagent: Option<Id>, startedAt: Option<nat>)

  function Or<T>(o: Option<T>, otherwise: T): T {
    if o.Some? then o.value else otherwise
  }

  /** The part of `ToolCall::update_fields` that cannot fail: kind, status, session and title. */
  function Restate(call: ToolCall, u: Update, now: nat): ToolCall {
    var f := u.fields;
    var status := if f.status.Some? then FromAcp(f.status.value) else call.status;
    call.(
      kind := Or(f.kind, call.kind),
      status := status,
      startedAt := if status.InProgress? && !call.status.InProgress? then Some(now) else call.startedAt,
      session := if u.meta.session.Some? then u.meta.session else call.session,
      title := Or(f.title, call.title))
  }

  /** The rest of it: content, which may name an unknown terminal, then locations, input and output. */
  function Refill(call: ToolCall, f: Fields, live: set<Id>): (ToolCall, bool) {
    var (content, ok) :=
      if f.content.Some? then UpdateContent(call.content, f.content.value, live) else (call.content, true);
    if !ok then (call.(content := content), false)
    else
      var fallback :=
        if f.rawOutput.Some? && content == [] && f.rawOutput.value.markdown.Some?
        then [BlockContent(TextBlock(f.rawOutput.value.markdown.value))] else content;
      (call.(
         content := fallback,
         locations := Or(f.locations, call.locations),
         rawInput := if f.rawInput.Some? then f.rawInput else call.rawInput,
         rawOutput := if f.rawOutput.Some? then f.rawOutput else call.rawOutput), true)
  }

  /** `ToolCall::update_fields` at time `now`; the flag is false when the content named an unknown terminal. */
  function UpdateFields(call: ToolCall, u: Update, live: set<Id>, now: nat): (ToolCall, bool) {
    Refill(Restate(call, u, now), u.fields, live)
  }

  /** `ToolCall::from_acp`, preceded by the conversion of an update, which needs a title. */
  function NewCall(u: Update, status: Status, live: set<Id>, now: nat): Result<ToolCall> {
    var f := u.fields;
    if f.title.None? then Err
    else
      match Rebuild(Or(f.content, []), live)
      case Err => Err
      case Ok(content) =>
        Ok(ToolCall(
             u.id, f.title.value, Or(f.kind, "other"), content, status, Or(f.locations, []),
             f.rawInput, f.rawOutput, u.meta.toolName, u.meta.session, u.meta.subagent,
             if status.InProgress? then Some(now) else None))
  }

  /** The entry pushed for an update whose call is unknown. */
  function NotFound(id: Id, message: Text): ToolCall {
    ToolCall(id, "Tool call not found", "fetch", [BlockContent(TextBlock(message))], Failed,
             [], None, None, None, None, None, None)
  }

  predicate Cancellable(status: Status) {
    status.Pending? || status.Waiting? || status.InProgress?
  }

  function Cancel(call: ToolCall): ToolCall {
    if Cancellable(call.status) then call.(status := Canceled) else call
  }

  // ----- In-place update against rebuilding -----

  predicate Agree(a: ToolContent, b: ToolContent) {
    a == b || SameTexts(a, b)
  }

  predicate AllAgree(a: seq<ToolContent>, b: seq<ToolContent>) {
    |a| == |b| && forall i | 0 <= i < |a| :: Agree(a[i], b[i])
  }

  predicate AllRecognised(items: seq<AcpContent>, live: set<Id>) {
    forall i | 0 <= i < |items| :: Recognised(items[i], live)
  }

  /** Updating in place gives what rebuilding would, whatever was there before and however long it was. */
  lemma {:induction false} UpdateEqualsRebuild(prior: seq<ToolContent>, items: seq<AcpContent>, live: set<Id>)
    requires AllRecognised(items, live)
    ensures Rebuild(items, live).Ok? && UpdateContent(prior, items, live).1
    ensures AllAgree(UpdateContent(prior, items, live).0, Rebuild(items, live).value)
  {
    OverlayRecognised(prior, items, live);
  }

  lemma {:induction false} OverlayRecognised(prior: seq<ToolContent>, items: seq<AcpContent>, live: set<Id>)
    requires AllRecognised(items, live)
    ensures
      var r := Overlay(prior, items, live);
      r.ok && r.dropped == 0 && |items| <= |r.content| && Rebuild(items, live).Ok?
      && AllAgree(r.content[..|items|], Rebuild(items, live).value)
    decreases |items|
  {
    if items != [] {
      assert forall i | 0 <= i < |items| - 1 :: items[1..][i] == items[i + 1];
      assert Recognised(items[0], live);
      OverlayRecognised(OldTail(prior), items[1..], live);
      RecognisedHead(prior, items, live);
    }
  }

  /** The old item is a diff with the new one's texts under another path. */
  predicate Renamed(kept: ToolContent, item: AcpContent) {
    && kept.DiffContent? && item.AcpDiff? && kept.path != item.path
    && kept.oldText == Or(item.oldText, []) && kept.newText == item.newText
  }

  predicate AnyRenamed(prior: seq<ToolContent>, items: seq<AcpContent>) {
    exists i | 0 <= i < |prior| && i < |items| :: Renamed(prior[i], items[i])
  }

  lemma {:induction false} OverlayExact(prior: seq<ToolContent>, items: seq<AcpContent>, live: set<Id>)
    requires AllRecognised(items, live)
    ensures
      var r := Overlay(prior, items, live);
      && |items| <= |r.content| && Rebuild(items, live).Ok?
      && (r.content[..|items|] == Rebuild(items, live).value <==> !AnyRenamed(prior, items))
    decreases |items|
  {
    if items != [] {
      assert forall i | 0 <= i < |items| - 1 :: items[1..][i] == items[i + 1];
      assert Recognised(items[0], live);
      OverlayExact(OldTail(prior), items[1..], live);
      RecognisedHead(prior, items, live);
      HeadExact(prior, items, live);
      RenamedHead(prior, items);
      var c, r := Overlay(prior, items, live).content, Overlay(OldTail(prior), items[1..], live).content;
      assert c[..|items|] == [c[0]] + r[..|items| - 1];
      SameCons(c[0], r[..|items| - 1], Rebuild(items, live).value[0], Rebuild(items[1..], live).value);
    }
  }

  lemma {:induction false} SameCons<T>(x: T, a: seq<T>, y: T, b: seq<T>)
    ensures [x] + a == [y] + b <==> x == y && a == b
  {
    if [x] + a == [y] + b {
      assert a == ([x] + a)[1..] && b == ([y] + b)[1..];
      assert ([x] + a)[0] == x && ([y] + b)[0] == y;
    }
  }

  lemma {:induction false} HeadExact(prior: seq<ToolContent>, items: seq<AcpContent>, live: set<Id>)
    requires items != [] && Recognised(items[0], live) && Rebuild(items[1..], live).Ok?
    ensures
      var c := Overlay(prior, items, live).content;
      && c != [] && Rebuild(items, live).Ok? && Rebuild(items, live).value != []
      && (c[0] == Rebuild(items, live).value[0] <==> !(prior != [] && Renamed(prior[0], items[0])))
  {
  }

  lemma {:induction false} RenamedHead(prior: seq<ToolContent>, items: seq<AcpContent>)
    requires items != []
    ensures AnyRenamed(prior, items)
      <==> (prior != [] && Renamed(prior[0], items[0])) || AnyRenamed(OldTail(prior), items[1..])
  {
    if AnyRenamed(prior, items) {
      var i :| 0 <= i < |prior| && i < |items| && Renamed(prior[i], items[i]);
      if i > 0 {
        assert Renamed(OldTail(prior)[i - 1], items[1..][i - 1]);
      }
    }
    if AnyRenamed(OldTail(prior), items[1..]) {
      var i :| 0 <= i < |OldTail(prior)| && i < |items[1..]| && Renamed(OldTail(prior)[i], items[1..][i]);
      assert Renamed(prior[i + 1], items[i + 1]);
    }
  }

  /** Paths included, updating gives what rebuilding gives exactly when no diff was only renamed in place. */
  lemma {:induction false} WhenUpdateIsRebuild(prior: seq<ToolContent>, items: seq<AcpContent>, live: set<Id>)
    requires AllRecognised(items, live)
    ensures Rebuild(items, live).Ok?
    ensures UpdateContent(prior, items, live).0 == Rebuild(items, live).value <==> !AnyRenamed(prior, items)
  {
    OverlayRecognised(prior, items, live);
    OverlayExact(prior, items, live);
  }

  /** A renamed diff keeps showing its old path. */
  lemma {:induction false} RenamedDiffKeepsPath(a: Text, b: Text, oldText: Text, newText: Text, live: set<Id>)
    requires a != b
    ensures
      var shown := [DiffContent(a, oldText, newText)];
      var items := [AcpDiff(b, Some(oldText), newText)];
      && UpdateContent(shown, items, live) == (shown, true)
      && Rebuild(items, live) == Ok([DiffContent(b, oldText, newText)])
  {
    var shown, items := [DiffContent(a, oldText, newText)], [AcpDiff(b, Some(oldText), newText)];
    assert items[1..] == [] && OldTail(shown) == [];
    assert Rebuild(items[1..], live) == Ok([]) && Overlay([], items[1..], live) == Overlaid([], 0, true);
    var rebuilt := DiffContent(b, oldText, newText);
    assert [shown[0]] + [] == shown && [rebuilt] + [] == [rebuilt];
    assert Overlay(shown, items, live) == Overlaid(shown, 0, true);
    assert Rebuild(items, live) == Ok([rebuilt]);
  }

  // ----- Unrecognised items -----

  predicate TerminalsKnown(items: seq<AcpContent>, live: set<Id>) {
    forall i | 0 <= i < |items| :: items[i].AcpTerminal? ==> items[i].terminal in live
  }

  /** Within the first `n` items, nothing recognised comes after an unrecognised one. */
  predicate TrailingUnknowns(items: seq<AcpContent>, n: nat) {
    forall i, j | 0 <= i < j < |items| && i < n && items[i].AcpUnknown? :: items[j].AcpUnknown?
  }

  lemma {:induction false} UnknownHead(prior: seq<ToolContent>, items: seq<AcpContent>, live: set<Id>)
    requires items != [] && items[0].AcpUnknown?
    ensures
      var r := Overlay(OldTail(prior), items[1..], live);
      Overlay(prior, items, live) == Overlaid(prior[..|prior| - |OldTail(prior)|] + r.content, r.dropped + 1, r.ok)
    ensures Rebuild(items, live) == Rebuild(items[1..], live)
  {
    var rest := Rebuild(items[1..], live);
    assert rest.Ok? ==> [] + rest.value == rest.value;
  }

  lemma {:induction false} RecognisedHead(prior: seq<ToolContent>, items: seq<AcpContent>, live: set<Id>)
    requires items != [] && Recognised(items[0], live) && Rebuild(items[1..], live).Ok?
    ensures
      var r := Overlay(OldTail(prior), items[1..], live);
      var c := Overlay(prior, items, live);
      && c == Overlaid(c.content, r.dropped, r.ok) && c.content != [] && c.content == [c.content[0]] + r.content
      && Rebuild(items, live).Ok? && Rebuild(items, live).value != []
      && Rebuild(items, live).value == [Rebuild(items, live).value[0]] + Rebuild(items[1..], live).value
      && Agree(c.content[0], Rebuild(items, live).value[0])
  {
  }

  lemma {:induction false} AllUnknown(prior: seq<ToolContent>, items: seq<AcpContent>, live: set<Id>)
    requires forall i | 0 <= i < |items| :: items[i].AcpUnknown?
    ensures Rebuild(items, live) == Ok([]) && Overlay(prior, items, live).ok
      && Overlay(prior, items, live).dropped == |items|
    decreases |items|
  {
    if items != [] {
      AllUnknown(OldTail(prior), items[1..], live);
      UnknownHead(prior, items, live);
    }
  }

  lemma {:induction false} OverlayLength(prior: seq<ToolContent>, items: seq<AcpContent>, live: set<Id>)
    requires TerminalsKnown(items, live)
    ensures
      var r := Overlay(prior, items, live);
      r.ok && Rebuild(items, live).Ok? && |Rebuild(items, live).value| == |items| - r.dropped <= |r.content|
    ensures |prior| <= |Overlay(prior, items, live).content|
    decreases |items|
  {
    if items != [] {
      OverlayLength(OldTail(prior), items[1..], live);
    }
  }

  /** The front of the overlaid list agrees with the rebuilt one. */
  predicate FrontAgrees(r: Overlaid, items: seq<AcpContent>, live: set<Id>) {
    && r.ok && Rebuild(items, live).Ok? && |Rebuild(items, live).value| == |items| - r.dropped <= |r.content|
    && AllAgree(r.content[..|items| - r.dropped], Rebuild(items, live).value)
  }

  lemma {:induction false} HeadAgrees(prior: seq<ToolContent>, items: seq<AcpContent>, live: set<Id>)
    requires items != [] && (items[0].AcpUnknown? ==> prior == [])
      && (items[0].AcpTerminal? ==> items[0].terminal in live)
    requires FrontAgrees(Overlay(OldTail(prior), items[1..], live), items[1..], live)
    ensures FrontAgrees(Overlay(prior, items, live), items, live)
  {
    var r, c := Overlay(OldTail(prior), items[1..], live), Overlay(prior, items, live);
    if items[0].AcpUnknown? {
      UnknownHead(prior, items, live);
      assert prior[..0] + r.content == r.content;
    } else {
      RecognisedHead(prior, items, live);
      var n := |items| - r.dropped;
      assert c.content[..n] == [c.content[0]] + r.content[..n - 1];
    }
  }

  lemma {:induction false} TrailingUnknownsHarmless(prior: seq<ToolContent>, items: seq<AcpContent>, live: set<Id>)
    requires TerminalsKnown(items, live) && TrailingUnknowns(items, |prior|)
    ensures FrontAgrees(Overlay(prior, items, live), items, live)
    decreases |items|
  {
    if items != [] {
      if items[0].AcpUnknown? && prior != [] {
        AllUnknown(prior, items, live);
      } else {
        TrailingUnknownsHarmless(OldTail(prior), items[1..], live);
        HeadAgrees(prior, items, live);
      }
    }
  }

  /** An unrecognised item leaves the old one in place. */
  lemma {:induction false} UnknownKeepsOld(prior: seq<ToolContent>, items: seq<AcpContent>, live: set<Id>, i: nat)
    requires TerminalsKnown(items, live) && i < |items| && i < |prior| && items[i].AcpUnknown?
    ensures i < |Overlay(prior, items, live).content| && Overlay(prior, items, live).content[i] == prior[i]
    decreases i
  {
    OverlayLength(prior, items, live);
    if i > 0 {
      UnknownKeepsOld(prior[1..], items[1..], live, i - 1);
    }
  }

  lemma {:induction false} RebuiltBeyond(items: seq<AcpContent>, live: set<Id>, i: nat, j: nat)
    requires TerminalsKnown(items, live) && i <= j < |items| && !items[j].AcpUnknown?
    requires forall k | 0 <= k < i :: !items[k].AcpUnknown?
    ensures Rebuild(items, live).Ok? && i < |Rebuild(items, live).value|
  {
    var rest := items[1..];
    assert forall k | 0 <= k < |rest| :: rest[k] == items[k + 1];
    OverlayLength([], rest, live);
    if j > 0 {
      RebuiltBeyond(rest, live, if i > 0 then i - 1 else 0, j - 1);
    }
    if items[0].AcpUnknown? {
      UnknownHead([], items, live);
    } else {
      assert Recognised(items[0], live);
      RecognisedHead([], items, live);
    }
  }

  function Unlike(c: ToolContent): (d: ToolContent)
    ensures !Agree(d, c)
  {
    if c.TerminalContent? then BlockContent(TextBlock([])) else TerminalContent("")
  }

  /**
    With unrecognised items the in-place update goes wrong for some old list of
    length `n` exactly when, within that length, a recognised item follows an
    unrecognised one: the old item then stays where the later one belongs.
   */
  lemma {:induction false} WhenUpdateEqualsRebuild(n: nat, items: seq<AcpContent>, live: set<Id>)
    requires TerminalsKnown(items, live)
    ensures Rebuild(items, live).Ok?
    ensures TrailingUnknowns(items, n)
       <==> forall prior: seq<ToolContent> | |prior| == n ::
         AllAgree(UpdateContent(prior, items, live).0, Rebuild(items, live).value)
  {
    OverlayLength([], items, live);
    if TrailingUnknowns(items, n) {
      forall prior: seq<ToolContent> | |prior| == n
        ensures AllAgree(UpdateContent(prior, items, live).0, Rebuild(items, live).value)
      {
        TrailingUnknownsHarmless(prior, items, live);
      }
    } else {
      var prior := SpoiledBy(n, items, live);
    }
  }

  /** An old list for which the update and the rebuilt list disagree. */
  lemma {:induction false} SpoiledBy(n: nat, items: seq<AcpContent>, live: set<Id>) returns (prior: seq<ToolContent>)
    requires TerminalsKnown(items, live) && !TrailingUnknowns(items, n)
    ensures Rebuild(items, live).Ok? && |prior| == n
    ensures !AllAgree(UpdateContent(prior, items, live).0, Rebuild(items, live).value)
  {
    OverlayLength([], items, live);
    var i, j :| 0 <= i < j < |items| && i < n && items[i].AcpUnknown? && !items[j].AcpUnknown?;
    var f := FirstUnknown(items, i);
    RebuiltBeyond(items, live, f, j);
    var rebuilt := Rebuild(items, live).value;
    prior := seq(n, _ => Unlike(rebuilt[f]));
    UnknownKeepsOld(prior, items, live, f);
    OverlayLength(prior, items, live);
    assert UpdateContent(prior, items, live).0[f] == prior[f];
    assert !Agree(prior[f], rebuilt[f]);
  }

  function FirstUnknown(items: seq<AcpContent>, i: nat): (f: nat)
    requires i < |items| && items[i].AcpUnknown?
    ensures f <= i && items[f].AcpUnknown? && forall k | 0 <= k < f :: !items[k].AcpUnknown?
  {
    if items[0].AcpUnknown? then 0 else 1 + FirstUnknown(items[1..], i - 1)
  }
}
