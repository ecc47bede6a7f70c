/** Saved threads of version 0.1.0: tool results move from the next user message into the message before it. */
module LegacyThread {
  import opened Prelude

  datatype Role = User | Assistant | System

  datatype ToolResult = ToolResult(toolUse: string, isError: bool, content: string)

  /** `body` stands for the segments, tool uses, context and creases, which are carried along. */
  datatype Message = Message(id: nat, role: Role, body: string, results: seq<ToolResult>)

  /** A user message that carries tool results. */
  predicate Carrier(m: Message) {
    m.role.User? && m.results != []
  }

  function Fold(out: seq<Message>, m: Message): seq<Message> {
    if Carrier(m) && out != [] then Init(out) + [Last(out).(results := m.results)] else out + [m]
  }

  function Upgrade(ms: seq<Message>): seq<Message> {
    if ms == [] then [] else Fold(Upgrade(Init(ms)), Last(ms))
  }

  method UpgradeMessages(messages: seq<Message>) returns (out: seq<Message>)
    ensures out == Upgrade(messages)
  {
    out := [];
    var i := 0;
    while i < |messages|
      invariant i <= |messages| && out == Upgrade(messages[..i])
    {
      assert Init(messages[..i + 1]) == messages[..i] && Last(messages[..i + 1]) == messages[i];
      if Carrier(messages[i]) && out != [] {
        out := out[|out| - 1 := Last(out).(results := messages[i].results)];
      } else {
        out := out + [messages[i]];
      }
      i := i + 1;
    }
    assert messages[..i] == messages;
  }

  // ----- Every other message stays -----

  function Bare(ms: seq<Message>): seq<Message> {
    seq(|ms|, i requires 0 <= i < |ms| => ms[i].(results := []))
  }

  /** The messages that are not folded away. */
  function Kept(ms: seq<Message>): seq<Message> {
    if ms == [] then []
    else if |ms| > 1 && Last(ms).role == User && Last(ms).results != [] then Kept(Init(ms))
    else Kept(Init(ms)) + [Last(ms)]
  }

  lemma {:induction false} NotEmptied(ms: seq<Message>)
    ensures Upgrade(ms) == [] <==> ms == []
  {
    if ms != [] {
      NotEmptied(Init(ms));
    }
  }

  /** Ids, roles, texts and order are those of the messages kept; only results move. */
  lemma {:induction false} OthersStay(ms: seq<Message>)
    ensures Bare(Upgrade(ms)) == Bare(Kept(ms))
  {
    if ms != [] {
      OthersStay(Init(ms));
      NotEmptied(Init(ms));
      var out := Upgrade(Init(ms));
      if |ms| > 1 && Carrier(Last(ms)) {
        assert Bare(Upgrade(ms)) == Bare(out);
      } else {
        assert Bare(out + [Last(ms)]) == Bare(out) + Bare([Last(ms)]);
        assert Bare(Kept(Init(ms)) + [Last(ms)]) == Bare(Kept(Init(ms))) + Bare([Last(ms)]);
      }
    }
  }

  // ----- When results are lost -----

  function Results(ms: seq<Message>): seq<ToolResult> {
    if ms == [] then [] else Results(Init(ms)) + Last(ms).results
  }

  /** No carrier comes right after a message that has results of its own. */
  predicate NothingOverwritten(ms: seq<Message>) {
    forall i | 1 <= i < |ms| && ms[i].role == User && ms[i].results != [] :: ms[i - 1].results == []
  }

  lemma {:induction false} LastResults(ms: seq<Message>)
    requires ms != []
    ensures Upgrade(ms) != [] && Last(Upgrade(ms)).results == Last(ms).results
  {
    NotEmptied(Init(ms));
  }

  lemma {:induction false} ResultsOf(out: seq<Message>, m: Message)
    ensures Results(out + [m]) == Results(out) + m.results
  {
    assert Init(out + [m]) == out;
  }

  lemma {:induction false} OverwrittenStep(ms: seq<Message>)
    requires ms != []
    ensures
      var init := Init(ms);
      NothingOverwritten(ms) <==>
      NothingOverwritten(init) && (init != [] && Carrier(Last(ms)) ==> Last(init).results == [])
  {
    var init := Init(ms);
    assert forall i | 0 <= i < |init| :: init[i] == ms[i];
  }

  lemma {:induction false} ResultsOfFold(out: seq<Message>, m: Message)
    ensures Results(Fold(out, m)) == (if Carrier(m) && out != [] then Results(Init(out)) else Results(out)) + m.results
    ensures out != [] ==> Results(out) == Results(Init(out)) + Last(out).results
  {
    if Carrier(m) && out != [] {
      ResultsOf(Init(out), Last(out).(results := m.results));
    } else {
      ResultsOf(out, m);
    }
  }

  /** One more message: `was` are the results before the fold, `kept` says that `out` still has them. */
  lemma {:induction false} SurviveStep(out: seq<Message>, m: Message, was: seq<ToolResult>, kept: bool)
    requires if kept then Results(out) == was else |Results(out)| < |was|
    ensures
      var after := Results(Fold(out, m));
      if kept && (Carrier(m) && out != [] ==> Last(out).results == []) then after == was + m.results
      else |after| < |was + m.results|
  {
    ResultsOfFold(out, m);
  }

  /** Tool results survive, in order, exactly when none is overwritten; otherwise some are gone. */
  lemma {:induction false} ResultsSurvive(ms: seq<Message>)
    ensures
      if NothingOverwritten(ms) then Results(Upgrade(ms)) == Results(ms)
      else |Results(Upgrade(ms))| < |Results(ms)|
  {
    if ms != [] {
      var init, m := Init(ms), Last(ms);
      ResultsSurvive(init);
      NotEmptied(init);
      OverwrittenStep(ms);
      if init != [] {
        LastResults(init);
      }
      SurviveStep(Upgrade(init), m, Results(init), NothingOverwritten(init));
    }
  }

  // ----- When carriers remain -----

  /** The message a carrier after `ms` would be folded into. */
  function Landing(ms: seq<Message>): (i: nat)
    requires ms != []
    ensures i < |ms|
  {
    if |ms| > 1 && Carrier(Last(ms)) then Landing(Init(ms)) else |ms| - 1
  }

  lemma {:induction false} LandsThere(ms: seq<Message>)
    requires ms != []
    ensures Upgrade(ms) != [] && Last(Upgrade(ms)).role == ms[Landing(ms)].role
    ensures |Upgrade(ms)| > 1 <==> Landing(ms) > 0
  {
    var init, m := Init(ms), Last(ms);
    NotEmptied(init);
    if |ms| == 1 {
      assert init == [] && Upgrade(ms) == [] + [m];
    } else {
      LandsThere(init);
      var out := Upgrade(init);
      if Carrier(m) {
        assert Landing(ms) == Landing(init) && ms[Landing(init)] == init[Landing(init)];
        assert Upgrade(ms) == Init(out) + [Last(out).(results := m.results)];
      } else {
        assert Upgrade(ms) == out + [m];
      }
    }
  }

  /** The carrier at `i` is folded into a user message at position `low` or later. */
  predicate Misplaced(ms: seq<Message>, i: int, low: nat) {
    1 <= i < |ms| && Carrier(ms[i]) && ms[Landing(ms[..i])].role.User? && low <= Landing(ms[..i])
  }

  predicate CarrierFrom(ms: seq<Message>, low: nat) {
    exists i | low <= i < |ms| :: Carrier(ms[i])
  }

  predicate AnyMisplaced(ms: seq<Message>, low: nat) {
    exists i | 1 <= i < |ms| :: Misplaced(ms, i, low)
  }

  lemma {:induction false} MisplacedStep(ms: seq<Message>, low: nat)
    requires |ms| > 1
    ensures AnyMisplaced(ms, low) <==> AnyMisplaced(Init(ms), low) || Misplaced(ms, |ms| - 1, low)
  {
    forall i | 1 <= i < |ms| - 1
      ensures Misplaced(ms, i, low) <==> Misplaced(Init(ms), i, low)
    {
      assert ms[..i] == Init(ms)[..i];
    }
  }

  lemma {:induction false} CarrierFromAppend(ms: seq<Message>, m: Message, low: nat)
    ensures CarrierFrom(ms + [m], low) <==> CarrierFrom(ms, low) || (low <= |ms| && Carrier(m))
  {
    if CarrierFrom(ms, low) {
      var i :| low <= i < |ms| && Carrier(ms[i]);
      assert Carrier((ms + [m])[i]);
    }
    if low <= |ms| && Carrier(m) {
      assert Carrier((ms + [m])[|ms|]);
    }
  }

  /** Folding a carrier in leaves a carrier at the end exactly when it lands on a user message. */
  lemma {:induction false} FoldedCarriers(out: seq<Message>, m: Message, low: nat)
    requires out != [] && Carrier(m)
    ensures CarrierFrom(Fold(out, m), low) <==> CarrierFrom(Init(out), low) || (low < |out| && Last(out).role.User?)
    ensures CarrierFrom(out, low) <==> CarrierFrom(Init(out), low) || (low < |out| && Carrier(Last(out)))
  {
    assert out == Init(out) + [Last(out)];
    CarrierFromAppend(Init(out), Last(out), low);
    CarrierFromAppend(Init(out), Last(out).(results := m.results), low);
  }

  predicate Unfolded(ms: seq<Message>, low: nat) {
    AnyMisplaced(ms, low) || (low == 0 && ms != [] && Carrier(ms[0]))
  }

  lemma {:induction false} UnfoldedStep(ms: seq<Message>, low: nat)
    requires |ms| > 1
    ensures
      var init := Init(ms);
      Unfolded(ms, low) <==>
      Unfolded(init, low) || (Carrier(Last(ms)) && init[Landing(init)].role.User? && low <= Landing(init))
  {
    MisplacedStep(ms, low);
    assert ms[..|ms| - 1] == Init(ms);
  }

  lemma {:induction false} CarriersRemain(ms: seq<Message>, low: nat)
    requires low <= 1
    ensures CarrierFrom(Upgrade(ms), low) <==> Unfolded(ms, low)
  {
    if |ms| == 1 {
      assert Init(ms) == [] && Upgrade(ms) == [] + [ms[0]];
      CarrierFromAppend([], ms[0], low);
    } else if |ms| > 1 {
      var init, m := Init(ms), Last(ms);
      var out := Upgrade(init);
      CarriersRemain(init, low);
      LandsThere(init);
      UnfoldedStep(ms, low);
      if Carrier(m) {
        FoldedCarriers(out, m, low);
      } else {
        CarrierFromAppend(out, m, low);
      }
    }
  }

  /** No user message carries results afterwards, exactly when none stands first and none lands on a user message. */
  lemma {:induction false} NoCarrierLeft(ms: seq<Message>)
    ensures !CarrierFrom(Upgrade(ms), 0) <==> !AnyMisplaced(ms, 0) && (ms != [] ==> !Carrier(ms[0]))
  {
    CarriersRemain(ms, 0);
  }

  lemma {:induction false} FixedPoint(ms: seq<Message>)
    ensures |Upgrade(ms)| <= |ms|
    ensures Upgrade(ms) == ms <==> !CarrierFrom(ms, 1)
  {
    if ms != [] {
      var init := Init(ms);
      FixedPoint(init);
      NotEmptied(init);
      assert ms == init + [Last(ms)];
      assert CarrierFrom(ms, 1) <==> CarrierFrom(init, 1) || (|ms| > 1 && Carrier(Last(ms)));
    }
  }

  /** Upgrading again changes nothing, exactly when no carrier lands on a user message after the first. */
  lemma {:induction false} UpgradeIsIdempotent(ms: seq<Message>)
    ensures Upgrade(Upgrade(ms)) == Upgrade(ms) <==> !AnyMisplaced(ms, 1)
  {
    FixedPoint(Upgrade(ms));
    CarriersRemain(ms, 1);
  }

  /** What old threads look like: each carrier directly follows an assistant message without results. */
  predicate WellPaired(ms: seq<Message>) {
    forall i | 0 <= i < |ms| && ms[i].role == User && ms[i].results != [] ::
      i > 0 && ms[i - 1].role == Assistant && ms[i - 1].results == []
  }

  lemma {:induction false} WellPairedUpgrades(ms: seq<Message>)
    requires WellPaired(ms)
    ensures Results(Upgrade(ms)) == Results(ms) && !CarrierFrom(Upgrade(ms), 0) && Upgrade(Upgrade(ms)) == Upgrade(ms)
  {
    ResultsSurvive(ms);
    forall i | 1 <= i < |ms|
      ensures !Misplaced(ms, i, 0) && !Misplaced(ms, i, 1)
    {
      if Carrier(ms[i]) {
        assert Last(ms[..i]) == ms[i - 1];
        assert Landing(ms[..i]) == i - 1;
      }
    }
    NoCarrierLeft(ms);
    UpgradeIsIdempotent(ms);
  }

  // ----- Well-paired threads, message by message -----

  /** Each message, with the results of the user message right after it if that brings any, which then goes. */
  function Joined(ms: seq<Message>): seq<Message>
    decreases |ms|
  {
    if ms == [] then []
    else if |ms| > 1 && ms[1].role == User && ms[1].results != [] then
      [ms[0].(results := ms[1].results)] + Joined(ms[2..])
    else [ms[0]] + Joined(ms[1..])
  }

  lemma {:induction false} JoinedPlain(ms: seq<Message>, m: Message)
    requires !(m.role == User && m.results != [])
    ensures Joined(ms + [m]) == Joined(ms) + [m]
    decreases |ms|
  {
    var all := ms + [m];
    if |ms| <= 1 {
      assert all[1..] == if ms == [] then [] else [m];
      assert ms != [] ==> all[0] == ms[0] && Joined([m]) == [m] + Joined([m][1..]) && ms[1..] == [];
    } else if ms[1].role == User && ms[1].results != [] {
      assert all[2..] == ms[2..] + [m];
      JoinedPlain(ms[2..], m);
    } else {
      assert all[1..] == ms[1..] + [m];
      JoinedPlain(ms[1..], m);
    }
  }

  lemma {:induction false} JoinedCarrier(ms: seq<Message>, m: Message)
    requires ms != [] && m.role == User && m.results != []
    requires Last(ms).role != User
    ensures Joined(ms) != [] && Joined(ms + [m]) == Init(Joined(ms)) + [Last(Joined(ms)).(results := m.results)]
    decreases |ms|
  {
    var all := ms + [m];
    if |ms| == 1 {
      assert all[2..] == [] && ms[1..] == [];
    } else if ms[1].role == User && ms[1].results != [] {
      assert |ms| > 2 && Last(ms[2..]) == Last(ms);
      assert all[2..] == ms[2..] + [m];
      JoinedCarrier(ms[2..], m);
      var first, rest := ms[0].(results := ms[1].results), Joined(ms[2..]);
      assert Init([first] + rest) == [first] + Init(rest);
    } else {
      assert all[1..] == ms[1..] + [m] && Last(ms[1..]) == Last(ms);
      JoinedCarrier(ms[1..], m);
      var rest := Joined(ms[1..]);
      assert Init([ms[0]] + rest) == [ms[0]] + Init(rest);
    }
  }

  /** A thread as it was written becomes the same thread with each batch of results in the message before it. */
  lemma {:induction false} WellPairedExactly(ms: seq<Message>)
    requires WellPaired(ms)
    ensures Upgrade(ms) == Joined(ms)
  {
    if ms != [] {
      var init, m := Init(ms), Last(ms);
      assert init + [m] == ms;
      assert forall i | 0 <= i < |init| :: init[i] == ms[i];
      WellPairedExactly(init);
      NotEmptied(init);
      if m.role == User && m.results != [] {
        assert ms[|ms| - 1] == m && ms[|ms| - 2] == Last(init);
        JoinedCarrier(init, m);
      } else {
        JoinedPlain(init, m);
      }
    }
  }
}
