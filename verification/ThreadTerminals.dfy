/** The terminals of a thread in the middle of everything else that happens to it. */
module ThreadTerminals {
  import opened Prelude
  import opened Utf8
  import opened ContentBlocks
  import opened ThreadModel
  import opened ThreadShapes
  import Terminals

  /** The terminal event in a thread's event: one of the provider, or the release at the end of a rewind. */
  function TerminalEvent(s: Thread, e: Event): Option<Terminals.Event> {
    match e
    case EvTerminal(ev) => Some(ev)
    case EvRewindEnd(id) =>
      var ix := FindUser(s.entries, id);
      if ix.None? then None else Some(Terminals.Release(TerminalIds(s.entries[ix.value..])))
    case _ => None
  }

  function TerminalEvents(s: Thread, es: seq<Event>): seq<Terminals.Event>
    decreases |es|
  {
    if es == [] then []
    else
      var rest := TerminalEvents(Step(s, es[0]), es[1..]);
      if TerminalEvent(s, es[0]).Some? then [TerminalEvent(s, es[0]).value] + rest else rest
  }

  /** What the provider sent for a terminal, in order of arrival. */
  function Sent(es: seq<Event>, id: Id): Text {
    if es == [] then []
    else (if es[0].EvTerminal? then Terminals.Brought(es[0].event, id) else []) + Sent(es[1..], id)
  }

  lemma {:induction false} OtherTerms(s: Thread, e: Event)
    requires !e.EvTerminal? && !e.EvRewindEnd?
    ensures Step(s, e).terms == s.terms
  {
    if ToolEvent(e) {
      ToolEventShape(s, e);
    } else if MessageEvent(e) {
      MessageFrame(s, e);
    } else if TurnEvent(e) {
      TurnFrame(s, e);
    }
  }

  lemma {:induction false} StepTerms(s: Thread, e: Event)
    ensures
      var ev := TerminalEvent(s, e);
      Step(s, e).terms == if ev.Some? then Terminals.Step(s.terms, ev.value) else s.terms
  {
    if !e.EvTerminal? && !e.EvRewindEnd? {
      OtherTerms(s, e);
    }
  }

  lemma {:induction false} RunTerms(s: Thread, es: seq<Event>, id: Id)
    ensures Run(s, es).terms == Terminals.Run(s.terms, TerminalEvents(s, es))
    ensures Terminals.Sent(TerminalEvents(s, es), id) == Sent(es, id)
    decreases |es|
  {
    if es != [] {
      var e, rest := es[0], es[1..];
      var t := Step(s, e);
      StepTerms(s, e);
      RunTerms(t, rest, id);
      var ev := TerminalEvent(s, e);
      var later := TerminalEvents(t, rest);
      if ev.Some? {
        assert ([ev.value] + later)[1..] == later;
      }
      assert [] + Sent(rest, id) == Sent(rest, id);
    }
  }

  /**
    In every run of a thread whose local terminals have fresh ids, the bytes delivered to a
    terminal followed by the bytes held for it are all the bytes sent, in order of arrival,
    and a terminal with held output is not live.
   */
  lemma {:induction false} OutputConservedInThread(es: seq<Event>, id: Id)
    requires Terminals.Fresh(Terminals.INITIAL, TerminalEvents(INITIAL, es))
    ensures Terminals.Known(Run(INITIAL, es).terms, id) == Sent(es, id)
    ensures Terminals.Parted(Run(INITIAL, es).terms)
  {
    RunTerms(INITIAL, es, id);
    Terminals.OutputConservedFromStart(TerminalEvents(INITIAL, es), id);
  }

  /** The terminal live under an id has received what was held when it was registered and what was sent since. */
  lemma {:induction false} LiveTerminalInThread(es: seq<Event>, id: Id)
    requires Terminals.Fresh(Terminals.INITIAL, TerminalEvents(INITIAL, es))
    ensures
      var t, events := Run(INITIAL, es).terms, TerminalEvents(INITIAL, es);
      id in t.live ==>
        && Terminals.LastRegistered(events, id).Some?
        && Terminals.Received(t.writes, t.live[id]) == Terminals.Due(events, id)
  {
    RunTerms(INITIAL, es, id);
    Terminals.LiveEntityReceivesItsDue(TerminalEvents(INITIAL, es), id);
  }
}
