/**
  When a running tool call has no start time. Updates stamp a call as they move it into
  progress; an answer to a permission request moves it there without a stamp.
 */
module StartTimes {
  import opened Prelude
  import opened ContentBlocks
  import opened ToolCalls
  import opened ThreadModel
  import opened ToolHistories

  /** The change, applied to `c`, moves the call into progress by an update, if only on the way. */
  predicate Stamps(c: Option<ToolCall>, ch: Change) {
    match ch
    case Amend(u, _, _) =>
      c.Some? && u.FieldsUpdate? && u.update.fields.status == Some(AcpInProgress) && !c.value.status.InProgress?
    case Place(u, status, live, now) =>
      if c.Some? then u.fields.status == Some(AcpInProgress) && !c.value.status.InProgress?
      else status.InProgress? && NewCall(u, status, live, now).Ok?
    case _ => false
  }

  function After(chs: seq<Change>, k: nat, id: Id): Option<ToolCall>
    requires k <= |chs|
  {
    ApplyAll(None, chs[..k], id)
  }

  /** From change `k` on the call has never been gone. */
  ghost predicate AliveSince(chs: seq<Change>, k: nat, id: Id) {
    forall j | k < j <= |chs| :: After(chs, j, id).Some?
  }

  /** Since the call was last created, that included, no update has moved it into progress. */
  ghost predicate NeverStamped(chs: seq<Change>, id: Id) {
    forall k | 0 <= k < |chs| && AliveSince(chs, k, id) :: !Stamps(After(chs, k, id), chs[k])
  }

  predicate Running(c: Option<ToolCall>) {
    c.Some? && c.value.status.InProgress?
  }

  /** Change `k` is an answer that moved the call into progress, where it has been since. */
  ghost predicate AnsweredAt(chs: seq<Change>, k: nat, id: Id) {
    && k < |chs| && chs[k].Decide? && !Running(After(chs, k, id))
    && forall j | k < j <= |chs| :: Running(After(chs, j, id))
  }

  /** An upsert that places a call in progress also says so in its fields. */
  predicate Plain(ch: Change) {
    ch.Place? && ch.status.InProgress? ==> ch.update.fields.status == Some(AcpInProgress)
  }

  predicate AllPlain(chs: seq<Change>) {
    forall i | 0 <= i < |chs| :: Plain(chs[i])
  }

  // ----- One change -----

  lemma {:induction false} RefillKeeps(call: ToolCall, f: Fields, live: set<Id>)
    ensures Refill(call, f, live).0.status == call.status && Refill(call, f, live).0.startedAt == call.startedAt
  {
  }

  lemma {:induction false} UpdateStamps(call: ToolCall, u: Update, live: set<Id>, now: nat)
    ensures
      var c := UpdateFields(call, u, live, now).0;
      && c.status == (if u.fields.status.Some? then FromAcp(u.fields.status.value) else call.status)
      && c.startedAt
      == (if u.fields.status == Some(AcpInProgress) && !call.status.InProgress? then Some(now) else call.startedAt)
  {
    RefillKeeps(Restate(call, u, now), u.fields, live);
  }

  /** A change stamps exactly the calls it says it does, and keeps the stamps there are. */
  lemma {:induction false} ApplyStamps(c: Option<ToolCall>, ch: Change, id: Id)
    requires Plain(ch)
    ensures
      var d := Apply(c, ch, id);
      d.Some? ==> (d.value.startedAt.None? <==> !Stamps(c, ch) && (c.Some? ==> c.value.startedAt.None?))
    ensures Running(Apply(c, ch, id)) && !Running(c) ==> Stamps(c, ch) || ch.Decide?
  {
    match ch
    case Amend(u, live, now) =>
      if c.Some? && u.FieldsUpdate? {
        UpdateStamps(c.value, u.update, live, now);
      }
    case Place(u, _, live, now) =>
      if c.Some? {
        UpdateStamps(c.value, u, live, now);
      }
    case _ =>
  }

  // ----- Histories -----

  lemma {:induction false} AfterLast(chs: seq<Change>, ch: Change, id: Id)
    ensures forall k | 0 <= k <= |chs| :: After(chs + [ch], k, id) == After(chs, k, id)
    ensures After(chs + [ch], |chs| + 1, id) == Apply(After(chs, |chs|, id), ch, id)
  {
    assert forall k | 0 <= k <= |chs| :: (chs + [ch])[..k] == chs[..k];
    assert (chs + [ch])[..|chs| + 1] == chs + [ch] && chs[..|chs|] == chs;
    ApplyAllAppend(None, chs, [ch], id);
    ApplyIf(After(chs, |chs|, id), true, ch, id);
  }

  lemma {:induction false} NeverStampedLast(chs: seq<Change>, ch: Change, id: Id)
    requires After(chs + [ch], |chs| + 1, id).Some?
    ensures
      var c := After(chs, |chs|, id);
      NeverStamped(chs + [ch], id) <==> !Stamps(c, ch) && (c.Some? ==> NeverStamped(chs, id))
  {
    var all := chs + [ch];
    AfterLast(chs, ch, id);
    forall k | 0 <= k < |chs|
      ensures AliveSince(all, k, id) <==> After(chs, |chs|, id).Some? && AliveSince(chs, k, id)
    {
    }
    assert AliveSince(all, |chs|, id);
  }

  /** A call has no start time exactly when, since it was created, no update moved it into progress. */
  lemma {:induction false} NoStampFold(chs: seq<Change>, id: Id)
    requires AllPlain(chs)
    ensures
      var c := After(chs, |chs|, id);
      c.Some? ==> (c.value.startedAt.None? <==> NeverStamped(chs, id))
    decreases |chs|
  {
    if chs != [] {
      var init, ch := Init(chs), Last(chs);
      assert init + [ch] == chs && Plain(ch);
      NoStampFold(init, id);
      AfterLast(init, ch, id);
      ApplyStamps(After(init, |init|, id), ch, id);
      if After(chs, |chs|, id).Some? {
        NeverStampedLast(init, ch, id);
      }
    }
  }

  /** An unstamped call in progress was put there by an answer. */
  lemma {:induction false} EnteredByAnswer(chs: seq<Change>, id: Id) returns (k: nat)
    requires AllPlain(chs) && Running(After(chs, |chs|, id)) && After(chs, |chs|, id).value.startedAt.None?
    ensures AnsweredAt(chs, k, id)
    decreases |chs|
  {
    var init, ch := Init(chs), Last(chs);
    assert init + [ch] == chs && Plain(ch);
    AfterLast(init, ch, id);
    ApplyStamps(After(init, |init|, id), ch, id);
    if Running(After(init, |init|, id)) {
      k := EnteredByAnswer(init, id);
      assert forall j | k < j <= |init| :: Running(After(init, j, id)) && After(chs, j, id) == After(init, j, id);
    } else {
      k := |init|;
    }
  }

  // ----- Every run -----

  lemma {:induction false} HistoryPlain(s: Thread, es: seq<Event>, id: Id)
    ensures AllPlain(History(s, es, id))
    decreases |es|
  {
    if es != [] {
      HistoryPlain(Step(s, es[0]), es[1..], id);
      ChangesPlain(s, es[0], id);
    }
  }

  lemma {:induction false} ChangesPlain(s: Thread, e: Event, id: Id)
    ensures AllPlain(Changes(s, e, id))
  {
  }

  /**
    In every run, a call is in progress without a start time exactly when an answer to a
    permission request put it there, where it has stayed, and no update had moved it into
    progress since it was created.
   */
  lemma {:induction false} WhenStartIsMissing(es: seq<Event>, id: Id)
    ensures
      var c, chs := CallOf(Run(INITIAL, es), id), History(INITIAL, es, id);
      Running(c) && c.value.startedAt.None? <==> NeverStamped(chs, id) && exists k :: AnsweredAt(chs, k, id)
  {
    var chs := History(INITIAL, es, id);
    CallIsFoldOfItsChanges(es, id);
    HistoryPlain(INITIAL, es, id);
    assert chs[..|chs|] == chs;
    NoStampFold(chs, id);
    if Running(After(chs, |chs|, id)) && After(chs, |chs|, id).value.startedAt.None? {
      var k := EnteredByAnswer(chs, id);
    }
  }

  // ----- It does happen -----

  const NO_META := Meta(None, None, None)

  function Asking(id: Id, title: string): Update {
    Update(id, Fields(None, None, Some(title), None, None, None, None), NO_META)
  }

  function Starting(id: Id): ToolUpdate {
    FieldsUpdate(Update(id, Fields(None, Some(AcpInProgress), None, None, None, None, None), NO_META))
  }

  function AllowedRun(id: Id, title: string, choice: Choice, now: nat): seq<Event> {
    [EvRequest(Asking(id, title), now), EvAuthorize(id, choice)]
  }

  lemma {:induction false} AskedCall(id: Id, title: string, now: nat)
    ensures var c := CallOf(Step(INITIAL, EvRequest(Asking(id, title), now)), id); c.Some? && c.value.startedAt.None?
  {
    PlacedCall(Issue(INITIAL), Asking(id, title), Waiting(0), now, id);
  }

  lemma {:induction false} AllowedCall(id: Id, title: string, choice: Choice, now: nat)
    requires !choice.rejects
    ensures
      var c := CallOf(Run(INITIAL, AllowedRun(id, title, choice, now)), id);
      Running(c) && c.value.startedAt.None?
  {
    var request, allow := EvRequest(Asking(id, title), now), EvAuthorize(id, choice);
    var s1 := Step(INITIAL, request);
    AskedCall(id, title, now);
    DecidedCall(s1, id, choice, id);
    RunLast(INITIAL, [request], allow);
    assert [request] + [allow] == AllowedRun(id, title, choice, now);
    assert Run(INITIAL, [request]) == Run(s1, []) == s1;
  }

  /** An allowed call is in progress without a start time, and an update saying so does not stamp it any more. */
  lemma {:induction false} AllowedCallIsNeverStamped(id: Id, title: string, choice: Choice, now: nat, later: nat)
    requires !choice.rejects
    ensures
      var es := AllowedRun(id, title, choice, now);
      var c, d := CallOf(Run(INITIAL, es), id), CallOf(Run(INITIAL, es + [EvUpdateTool(Starting(id), later)]), id);
      Running(c) && c.value.startedAt.None? && Running(d) && d.value.startedAt.None?
  {
    var es, update := AllowedRun(id, title, choice, now), EvUpdateTool(Starting(id), later);
    var s := Run(INITIAL, es);
    AllowedCall(id, title, choice, now);
    RunAppend(INITIAL, es, [update]);
    assert Run(s, [update]) == Run(Step(s, update), []);
    UpdatedCall(s, Starting(id), later, id);
    UpdateStamps(CallOf(s, id).value, Starting(id).update, s.terms.live.Keys, later);
  }
}
