/** Terminal events, which may arrive before the terminal they speak of. */
module Terminals {
  import opened Prelude
  import opened Utf8
  import opened ContentBlocks

  /** One `write_output` call on a terminal entity. */
  datatype Write = Write(entity: nat, id: Id, data: Text)

  /** Entities are numbered as they are registered; `live` is the map from ids to entities, `writes` logs all writes. */
  datatype Terms = Terms(
    live: map<Id, nat>, entities: nat,
    pendingOutput: map<Id, seq<Text>>, pendingExit: map<Id, int>, writes: seq<Write>)

  const INITIAL := Terms(map[], 0, map[], map[], [])

  datatype Event =
    | Created(id: Id)
    | Output(id: Id, data: Text)
    | Exit(id: Id, status: int)
    | Local(id: Id)
    | Release(ids: set<Id>)

  function Held(t: Terms, id: Id): seq<Text> {
    if id in t.pendingOutput then t.pendingOutput[id] else []
  }

  function Tagged(entity: nat, id: Id, chunks: seq<Text>): (r: seq<Write>) {
    seq(|chunks|, i requires 0 <= i < |chunks| => Write(entity, id, chunks[i]))
  }

  /** A new entity takes the place of the one registered under the id before, if any. */
  function Register(t: Terms, id: Id): Terms {
    t.(live := t.live[id := t.entities], entities := t.entities + 1)
  }

  function Step(t: Terms, e: Event): Terms {
    match e
    case Created(id) =>
      Register(t, id).(
        pendingOutput := t.pendingOutput - {id}, pendingExit := t.pendingExit - {id},
        writes := t.writes + Tagged(t.entities, id, Held(t, id)))
    case Output(id, data) =>
      if id in t.live then t.(writes := t.writes + [Write(t.live[id], id, data)])
      else t.(pendingOutput := t.pendingOutput[id := Held(t, id) + [data]])
    case Exit(id, status) =>
      if id in t.live then t else t.(pendingExit := t.pendingExit[id := status])
    case Local(id) => Register(t, id)
    case Release(ids) => t.(live := t.live - ids)
  }

  function Run(t: Terms, es: seq<Event>): Terms
    decreases |es|
  {
    if es == [] then t else Run(Step(t, es[0]), es[1..])
  }

  /** A locally created terminal has a random id that no event has used for output yet. */
  predicate FreshAt(t: Terms, e: Event) {
    e.Local? ==> e.id !in t.pendingOutput && e.id !in t.pendingExit
  }

  predicate Fresh(t: Terms, es: seq<Event>)
    decreases |es|
  {
    es == [] || (FreshAt(t, es[0]) && Fresh(Step(t, es[0]), es[1..]))
  }

  /** Bytes written to terminal `id`, over every entity registered under that id. */
  function Delivered(writes: seq<Write>, id: Id): Text {
    if writes == [] then []
    else (if writes[0].id == id then writes[0].data else []) + Delivered(writes[1..], id)
  }

  /** Bytes the provider sent for `id`. */
  function Sent(es: seq<Event>, id: Id): Text {
    if es == [] then []
    else Brought(es[0], id) + Sent(es[1..], id)
  }

  ghost predicate Parted(t: Terms) {
    t.pendingOutput.Keys !! t.live.Keys && t.pendingExit.Keys !! t.live.Keys
  }

  lemma {:induction false} DeliveredAppend(a: seq<Write>, b: seq<Write>, id: Id)
    ensures Delivered(a + b, id) == Delivered(a, id) + Delivered(b, id)
  {
    if a == [] {
      assert a + b == b;
    } else {
      assert (a + b)[1..] == a[1..] + b;
      DeliveredAppend(a[1..], b, id);
    }
  }

  lemma {:induction false} DeliveredTagged(n: nat, name: Id, chunks: seq<Text>, id: Id)
    ensures Delivered(Tagged(n, name, chunks), id) == if name == id then Concat(chunks) else []
  {
    if chunks != [] {
      assert Tagged(n, name, chunks)[1..] == Tagged(n, name, chunks[1..]);
      DeliveredTagged(n, name, chunks[1..], id);
    }
  }

  /** Everything known about `id`: the bytes delivered, then the bytes held back. */
  function Known(t: Terms, id: Id): Text {
    Delivered(t.writes, id) + Concat(Held(t, id))
  }

  function Brought(e: Event, id: Id): Text {
    if e.Output? && e.id == id then e.data else []
  }

  lemma {:induction false} CreationDrains(t: Terms, name: Id, id: Id)
    ensures Known(Step(t, Created(name)), id) == Known(t, id)
  {
    DeliveredAppend(t.writes, Tagged(t.entities, name, Held(t, name)), id);
    DeliveredTagged(t.entities, name, Held(t, name), id);
  }

  lemma {:induction false} DeliveredOne(w: Write, id: Id)
    ensures Delivered([w], id) == if w.id == id then w.data else []
  {
    assert [w][1..] == [] && Delivered([], id) == [];
  }

  lemma {:induction false} WrittenJoins(t: Terms, name: Id, data: Text, id: Id)
    requires Parted(t) && name in t.live
    ensures Known(Step(t, Output(name, data)), id) == Known(t, id) + Brought(Output(name, data), id)
  {
    var write := Write(t.live[name], name, data);
    DeliveredAppend(t.writes, [write], id);
    DeliveredOne(write, id);
    if name == id {
      assert Held(t, id) == [] && Known(t, id) == Delivered(t.writes, id) + [];
    }
  }

  lemma {:induction false} HeldJoins(t: Terms, name: Id, data: Text, id: Id)
    requires name !in t.live
    ensures Known(Step(t, Output(name, data)), id) == Known(t, id) + Brought(Output(name, data), id)
  {
    if name == id {
      ConcatAppend(Held(t, id), [data]);
      assert Concat([data]) == data + [] == data;
      Join3(Delivered(t.writes, id), Concat(Held(t, id)), data);
    }
  }

  lemma {:induction false} OutputJoins(t: Terms, name: Id, data: Text, id: Id)
    requires Parted(t)
    ensures Known(Step(t, Output(name, data)), id) == Known(t, id) + Brought(Output(name, data), id)
  {
    if name in t.live {
      WrittenJoins(t, name, data, id);
    } else {
      HeldJoins(t, name, data, id);
    }
  }

  /** What is known about an id grows by exactly what one event brought. */
  lemma {:induction false} StepConserves(t: Terms, e: Event, id: Id)
    requires Parted(t) && FreshAt(t, e)
    ensures Parted(Step(t, e))
    ensures Known(Step(t, e), id) == Known(t, id) + Brought(e, id)
  {
    if e.Created? {
      CreationDrains(t, e.id, id);
    } else if e.Output? {
      OutputJoins(t, e.id, e.data, id);
    }
  }

  /** Nothing sent is lost, duplicated or reordered, and a terminal with held output is not live. */
  lemma {:induction false} OutputConserved(t: Terms, es: seq<Event>, id: Id)
    requires Parted(t) && Fresh(t, es)
    ensures Parted(Run(t, es))
    ensures Known(Run(t, es), id) == Known(t, id) + Sent(es, id)
    decreases |es|
  {
    if es != [] {
      var u, rest := Step(t, es[0]), es[1..];
      StepConserves(t, es[0], id);
      OutputConserved(u, rest, id);
      Join3(Known(t, id), Brought(es[0], id), Sent(rest, id));
    }
  }

  lemma {:induction false} OutputConservedFromStart(es: seq<Event>, id: Id)
    requires Fresh(INITIAL, es)
    ensures Parted(Run(INITIAL, es)) && Known(Run(INITIAL, es), id) == Sent(es, id)
  {
    NothingKnown(id);
    OutputConserved(INITIAL, es, id);
  }

  lemma {:induction false} NothingKnown(id: Id)
    ensures Known(INITIAL, id) == []
  {
  }

  // ----- Which terminals are live, and which exits are held -----

  /** An id is live from a registration until it is released. */
  function LiveAfter(es: seq<Event>, id: Id): bool {
    if es == [] then false
    else
      match Last(es)
      case Created(x) => x == id || LiveAfter(Init(es), id)
      case Local(x) => x == id || LiveAfter(Init(es), id)
      case Release(ids) => id !in ids && LiveAfter(Init(es), id)
      case Output(_, _) => LiveAfter(Init(es), id)
      case Exit(_, _) => LiveAfter(Init(es), id)
  }

  /** The last exit reported while the id was not live, until the terminal is created. */
  function ExitAfter(es: seq<Event>, id: Id): Option<int> {
    if es == [] then None
    else
      match Last(es)
      case Created(x) => if x == id then None else ExitAfter(Init(es), id)
      case Exit(x, status) =>
        if x == id && !LiveAfter(Init(es), id) then Some(status) else ExitAfter(Init(es), id)
      case _ => ExitAfter(Init(es), id)
  }

  lemma {:induction false} LiveExactly(es: seq<Event>, id: Id)
    ensures
      var t := Run(INITIAL, es);
      && (id in t.live <==> LiveAfter(es, id))
      && ExitAfter(es, id) == if id in t.pendingExit then Some(t.pendingExit[id]) else None
  {
    if es != [] {
      var init, e := Init(es), Last(es);
      assert init + [e] == es;
      LiveExactly(init, id);
      RunLast(INITIAL, init, e);
    }
  }

  // ----- What the live entity has received -----

  /** The bytes written to one entity. */
  function Received(writes: seq<Write>, entity: nat): Text {
    if writes == [] then []
    else Received(Init(writes), entity) + if Last(writes).entity == entity then Last(writes).data else []
  }

  predicate Registers(e: Event, id: Id) {
    (e.Created? || e.Local?) && e.id == id
  }

  /** Where an id was last registered. */
  function LastRegistered(es: seq<Event>, id: Id): (r: Option<nat>)
    ensures r.Some? ==> r.value < |es| && Registers(es[r.value], id)
    ensures forall j | (if r.Some? then r.value + 1 else 0) <= j < |es| :: !Registers(es[j], id)
  {
    if es == [] then None
    else if Registers(Last(es), id) then Some(|es| - 1)
    else LastRegistered(Init(es), id)
  }

  lemma {:induction false} ReceivedTagged(writes: seq<Write>, n: nat, name: Id, chunks: seq<Text>, entity: nat)
    ensures Received(writes + Tagged(n, name, chunks), entity)
         == Received(writes, entity) + if n == entity then Concat(chunks) else []
    decreases |chunks|
  {
    if chunks == [] {
      assert writes + Tagged(n, name, chunks) == writes;
    } else {
      var all := writes + Tagged(n, name, chunks);
      assert Init(all) == writes + Tagged(n, name, Init(chunks)) && Last(all) == Write(n, name, Last(chunks));
      ReceivedTagged(writes, n, name, Init(chunks), entity);
      ConcatAppend(Init(chunks), [Last(chunks)]);
      assert Init(chunks) + [Last(chunks)] == chunks && Concat([Last(chunks)]) == Last(chunks);
    }
  }

  lemma {:induction false} ReceivedOne(writes: seq<Write>, w: Write, entity: nat)
    ensures Received(writes + [w], entity) == Received(writes, entity) + if w.entity == entity then w.data else []
  {
    assert Init(writes + [w]) == writes;
  }

  /** Entities are registered once, so a new one has received nothing yet. */
  ghost predicate Numbered(t: Terms) {
    && (forall w | w in t.writes :: w.entity < t.entities)
    && (forall id | id in t.live :: t.live[id] < t.entities)
    && (forall a, b | a in t.live && b in t.live && a != b :: t.live[a] != t.live[b])
  }

  lemma {:induction false} StepNumbered(t: Terms, e: Event)
    requires Numbered(t)
    ensures Numbered(Step(t, e))
  {
    if e.Created? {
      assert forall w | w in Tagged(t.entities, e.id, Held(t, e.id)) :: w.entity == t.entities;
    }
  }

  lemma {:induction false} NewReceivedNothing(writes: seq<Write>, n: nat)
    requires forall w | w in writes :: w.entity < n
    ensures Received(writes, n) == []
  {
    if writes != [] {
      assert Last(writes) in writes && forall w | w in Init(writes) :: w in writes;
      NewReceivedNothing(Init(writes), n);
    }
  }

  lemma {:induction false} RunLast(t: Terms, es: seq<Event>, e: Event)
    ensures Run(t, es + [e]) == Step(Run(t, es), e)
    decreases |es|
  {
    if es == [] {
      assert es + [e] == [e] && Run(Step(t, e), []) == Step(t, e);
    } else {
      assert (es + [e])[1..] == es[1..] + [e];
      RunLast(Step(t, es[0]), es[1..], e);
    }
  }

  lemma {:induction false} FreshLast(t: Terms, es: seq<Event>, e: Event)
    requires Fresh(t, es + [e])
    ensures Fresh(t, es) && FreshAt(Run(t, es), e)
    decreases |es|
  {
    if es != [] {
      assert (es + [e])[1..] == es[1..] + [e];
      FreshLast(Step(t, es[0]), es[1..], e);
    }
  }

  lemma {:induction false} SentAppend(a: seq<Event>, b: seq<Event>, id: Id)
    ensures Sent(a + b, id) == Sent(a, id) + Sent(b, id)
  {
    if a == [] {
      assert a + b == b;
    } else {
      assert (a + b)[1..] == a[1..] + b;
      SentAppend(a[1..], b, id);
    }
  }

  /** What one event writes to the entity live under `id` before and after it. */
  lemma {:induction false} StepReceives(t: Terms, e: Event, id: Id)
    requires Parted(t) && Numbered(t) && FreshAt(t, e) && id in Step(t, e).live
    ensures
      var u := Step(t, e);
      if Registers(e, id) then Received(u.writes, u.live[id]) == Concat(Held(t, id))
      else id in t.live && Received(u.writes, u.live[id]) == Received(t.writes, t.live[id]) + Brought(e, id)
  {
    var u := Step(t, e);
    var n := u.live[id];
    match e
    case Created(name) =>
      ReceivedTagged(t.writes, t.entities, name, Held(t, name), n);
      NewReceivedNothing(t.writes, t.entities);
    case Output(name, data) =>
      if name in t.live {
        ReceivedOne(t.writes, Write(t.live[name], name, data), n);
      }
    case Local(_) =>
      NewReceivedNothing(t.writes, t.entities);
    case _ =>
  }

  /** The bytes due to the entity live under `id`: those held when it was registered, and those sent since. */
  function Due(es: seq<Event>, id: Id): Text
    requires LastRegistered(es, id).Some?
  {
    var k := LastRegistered(es, id).value;
    Concat(Held(Run(INITIAL, es[..k]), id)) + Sent(es[k + 1..], id)
  }

  lemma {:induction false} TailGrows(es: seq<Event>, e: Event, k: nat)
    requires k <= |es|
    ensures (es + [e])[k..] == es[k..] + [e]
  {
  }

  lemma {:induction false} SentLast(es: seq<Event>, e: Event, id: Id)
    ensures Sent(es + [e], id) == Sent(es, id) + Brought(e, id)
  {
    SentAppend(es, [e], id);
    assert [e][1..] == [] && Sent([e], id) == Brought(e, id) + [] == Brought(e, id);
  }

  lemma {:induction false} DueLater(es: seq<Event>, e: Event, id: Id)
    requires !Registers(e, id) && LastRegistered(es, id).Some?
    ensures LastRegistered(es + [e], id) == LastRegistered(es, id) && Due(es + [e], id) == Due(es, id) + Brought(e, id)
  {
    var k, all := LastRegistered(es, id).value, es + [e];
    assert Init(all) == es && Last(all) == e;
    TailGrows(es, e, k + 1);
    SentLast(es[k + 1..], e, id);
    assert all[..k] == es[..k];
    Join3(Concat(Held(Run(INITIAL, es[..k]), id)), Sent(es[k + 1..], id), Brought(e, id));
  }

  lemma {:induction false} DueNow(es: seq<Event>, e: Event, id: Id)
    requires Registers(e, id)
    ensures LastRegistered(es + [e], id) == Some(|es|) && Due(es + [e], id) == Concat(Held(Run(INITIAL, es), id))
  {
    var all := es + [e];
    assert Last(all) == e && all[..|es|] == es && all[|es| + 1..] == [];
  }

  /** In every run, the entity live under an id has received exactly what was due to it, in order. */
  lemma {:induction false} LiveEntityReceivesItsDue(es: seq<Event>, id: Id)
    requires Fresh(INITIAL, es)
    ensures
      var t := Run(INITIAL, es);
      Numbered(t) && (id in t.live ==> LastRegistered(es, id).Some? && Received(t.writes, t.live[id]) == Due(es, id))
    decreases |es|
  {
    if es != [] {
      var init, e := Init(es), Last(es);
      assert init + [e] == es;
      FreshLast(INITIAL, init, e);
      LiveEntityReceivesItsDue(init, id);
      OutputConserved(INITIAL, init, id);
      RunLast(INITIAL, init, e);
      var t := Run(INITIAL, init);
      StepNumbered(t, e);
      if id in Step(t, e).live {
        StepReceives(t, e, id);
        if Registers(e, id) {
          DueNow(init, e, id);
        } else {
          DueLater(init, e, id);
        }
      }
    }
  }

  lemma {:induction false} FreshPrefix(t: Terms, es: seq<Event>, k: nat)
    requires Fresh(t, es) && k <= |es|
    ensures Fresh(t, es[..k])
    decreases |es|
  {
    if k > 0 {
      assert es[..k][1..] == es[1..][..k - 1];
      FreshPrefix(Step(t, es[0]), es[1..], k - 1);
    }
  }

  /**
    The live terminal has received everything ever sent to its id exactly when nothing had
    been delivered under the id before it was registered.
   */
  lemma {:induction false} LiveTerminalIsUpToDate(es: seq<Event>, id: Id)
    requires Fresh(INITIAL, es) && id in Run(INITIAL, es).live
    ensures LastRegistered(es, id).Some?
    ensures
      var t := Run(INITIAL, es);
      var before := Run(INITIAL, es[..LastRegistered(es, id).value]);
      && Sent(es, id) == Delivered(before.writes, id) + Received(t.writes, t.live[id])
      && (Received(t.writes, t.live[id]) == Sent(es, id) <==> Delivered(before.writes, id) == [])
  {
    LiveEntityReceivesItsDue(es, id);
    var k := LastRegistered(es, id).value;
    var t, before := Run(INITIAL, es), Run(INITIAL, es[..k]);
    FreshPrefix(INITIAL, es, k);
    OutputConservedFromStart(es[..k], id);
    SentAround(es, k, id);
    var held, later := Concat(Held(before, id)), Sent(es[k + 1..], id);
    assert Received(t.writes, t.live[id]) == held + later;
    assert Sent(es, id) == Delivered(before.writes, id) + held + later;
    Join3(Delivered(before.writes, id), held, later);
  }

  lemma {:induction false} SentAround(es: seq<Event>, k: nat, id: Id)
    requires k < |es| && Registers(es[k], id)
    ensures Sent(es, id) == Sent(es[..k], id) + Sent(es[k + 1..], id)
  {
    assert es == es[..k] + es[k..] && es[k..][1..] == es[k + 1..];
    SentAppend(es[..k], es[k..], id);
    assert [] + Sent(es[k + 1..], id) == Sent(es[k + 1..], id);
  }

  lemma {:induction false} Join3(a: Text, b: Text, c: Text)
    ensures (a + b) + c == a + (b + c)
    ensures (a + b) + c == b + c <==> a == []
  {
    if a == [] {
      assert a + b == b;
    } else {
      assert |(a + b) + c| > |b + c|;
    }
  }

  /** A terminal registered anew under an id starts empty: what the old one got, it does not get. */
  lemma {:induction false} ReplacementStartsEmpty(id: Id, a: Text)
    requires a != []
    ensures
      var es := [Created(id), Output(id, a), Release({id}), Created(id)];
      var t := Run(INITIAL, es);
      id in t.live && Received(t.writes, t.live[id]) == [] && Sent(es, id) == a
  {
    var es := [Created(id), Output(id, a), Release({id}), Created(id)];
    var es1, es2, es3 := es[1..], es[1..][1..], es[1..][1..][1..];
    var t1 := Step(INITIAL, es[0]);
    var t2 := Step(t1, es1[0]);
    var t3 := Step(t2, es2[0]);
    var t4 := Step(t3, es3[0]);
    assert es3 == [Created(id)] && es3[1..] == [];
    assert Run(t3, es3) == t4 && Run(t2, es2) == t4 && Run(t1, es1) == t4;
    assert t4.live[id] == 1 && forall w | w in t4.writes :: w.entity < 1;
    NewReceivedNothing(t4.writes, 1);
    assert Sent(es3, id) == Sent([], id) == [] && Sent(es2, id) == [] + Sent(es3, id) == [];
    assert Sent(es1, id) == a + Sent(es2, id) == a && Sent(es, id) == [] + Sent(es1, id);
  }

  /**
    Why local ids must be fresh: on an id that already holds output, later bytes would
    overtake the held ones. The code draws local ids at random, so no such run is expected of it.
   */
  lemma ReusedIdOvertakes(id: Id, a: Text, b: Text)
    requires a != [] && b != []
    ensures
      var u := Run(INITIAL, [Output(id, a), Local(id), Output(id, b)]);
      Delivered(u.writes, id) == b && Held(u, id) == [a]
  {
    var t1 := Step(INITIAL, Output(id, a));
    var t2 := Step(t1, Local(id));
    var t3 := Step(t2, Output(id, b));
    var es := [Output(id, a), Local(id), Output(id, b)];
    assert es[1..] == [Local(id), Output(id, b)] && es[1..][1..] == [Output(id, b)];
    assert Run(t2, [Output(id, b)]) == Run(t3, []) == t3;
    assert Run(t1, es[1..]) == t3;
    assert t3.writes == [Write(0, id, b)];
  }
}
