/** The output of a terminal, cut to a byte limit without splitting a character or a line. */
module TerminalOutput {
  import opened Prelude
  import opened Utf8

  predicate HasNewline(s: Text) {
    exists i | 0 <= i < |s| :: s[i] == NEWLINE
  }

  /** `str::rfind('\n')` */
  function LastNewline(s: Text): (r: Option<nat>)
    ensures r.None? <==> !HasNewline(s)
    ensures r.Some? ==> r.value < |s| && s[r.value] == NEWLINE && forall j | r.value < j < |s| :: s[j] != NEWLINE
  {
    if s == [] then None
    else if Last(s) == NEWLINE then Some(|s| - 1)
    else
      var r := LastNewline(Init(s));
      assert forall j | 0 <= j < |s| - 1 :: s[j] == Init(s)[j];
      r
  }

  /** Where a content longer than `limit` is cut. */
  function CutAt(content: Text, limit: nat): (n: nat)
    requires limit < |content|
    ensures n <= Floor(content, limit) <= limit
  {
    var end := Floor(content, limit);
    var line := LastNewline(content[..end]);
    if line.Some? then line.value else end
  }

  function Shown(content: Text, limit: Option<nat>): Text {
    if limit.Some? && limit.value < |content| then content[..CutAt(content, limit.value)] else content
  }

  lemma {:induction false} CutInWindow(content: Text, limit: nat)
    requires limit < |content|
    ensures
      var n, window := CutAt(content, limit), content[..Floor(content, limit)];
      && content[..n] == window[..n] && Boundary(content, n)
      && if HasNewline(window) then window[..n] + [NEWLINE] <= window && !HasNewline(window[n + 1..])
         else window[..n] == window
  {
    var n, window := CutAt(content, limit), content[..Floor(content, limit)];
    if HasNewline(window) {
      NewlineCut(window, n);
      assert content[n] == window[n] == NEWLINE;
    }
  }

  /**
    What the cut text is: a prefix on a character boundary, within the limit. The
    window it was cut from ends at most three bytes short of the limit, and the
    text stops just before the last newline of that window, or is the window.
   */
  lemma {:induction false} CutIsClean(content: Text, limit: nat)
    requires WellFormed(content) && limit < |content|
    ensures
      var shown := Shown(content, Some(limit));
      var window := content[..Floor(content, limit)];
      && shown <= content && |shown| <= limit && Boundary(content, |shown|) && WellFormed(shown)
      && limit - 3 <= |window| <= limit && WellFormed(window)
      && if HasNewline(window) then shown + [NEWLINE] <= window && !HasNewline(window[|shown| + 1..])
         else shown == window
  {
    var end := Floor(content, limit);
    FloorWithinThree(content, limit);
    SplitAtBoundary(content, end);
    CutInWindow(content, limit);
    SplitAtBoundary(content, CutAt(content, limit));
  }

  lemma {:induction false} NewlineCut(window: Text, n: nat)
    requires LastNewline(window) == Some(n)
    ensures n < |window| && window[..n] + [NEWLINE] <= window && !HasNewline(window[n + 1..])
  {
    assert window[..n] + [NEWLINE] == window[..n + 1];
    var rest := window[n + 1..];
    forall j | 0 <= j < |rest|
      ensures rest[j] != NEWLINE
    {
      assert rest[j] == window[n + 1 + j];
    }
  }

  /** A larger limit, or none, never shows less. */
  lemma {:induction false} ShownGrows(content: Text, small: nat, large: Option<nat>)
    requires large.Some? ==> small <= large.value
    ensures Shown(content, Some(small)) <= Shown(content, large)
  {
    if large.Some? && large.value < |content| {
      var a, b := Floor(content, small), Floor(content, large.value);
      assert a <= b;
      assert forall j | 0 <= j < a :: content[..a][j] == content[..b][j];
      var m, n := CutAt(content, small), CutAt(content, large.value);
      assert m <= n;
    }
  }

  datatype Final = Final(content: Text, originalLen: nat, exitStatus: Option<int>)

  datatype Response = Response(content: Text, truncated: bool, exitStatus: Option<Option<int>>)

  /** The part of a terminal that reports output. What the process has printed so far is passed in. */
  class Terminal {
    const outputByteLimit: Option<nat>
    var output: Option<Final>

    constructor (limit: Option<nat>)
      ensures outputByteLimit == limit && output == None
    {
      outputByteLimit, output := limit, None;
    }

    method TruncatedOutput(content: Text) returns (shown: Text, originalLen: nat)
      requires WellFormed(content)
      ensures shown == Shown(content, outputByteLimit) && originalLen == |content|
    {
      shown, originalLen := content, |content|;
      if outputByteLimit.Some? && outputByteLimit.value < |shown| {
        var end := outputByteLimit.value;
        while !Boundary(shown, end)
          invariant 0 <= end <= outputByteLimit.value && Floor(shown, end) == Floor(shown, outputByteLimit.value)
          decreases end
        {
          end := end - 1;
        }
        var line := LastNewline(shown[..end]);
        if line.Some? {
          end := line.value;
        }
        shown := shown[..end];
      }
    }

    /** The process has exited. */
    method Exit(content: Text, status: Option<int>)
      requires WellFormed(content)
      modifies this`output
      ensures output == Some(Final(Shown(content, outputByteLimit), |content|, status))
    {
      var shown, len := TruncatedOutput(content);
      output := Some(Final(shown, len, status));
    }

    /** After the exit the answer no longer depends on what the terminal holds. */
    method CurrentOutput(content: Text) returns (r: Response)
      requires WellFormed(content)
      ensures
        if output.Some? then
          r == Response(output.value.content, |output.value.content| < output.value.originalLen,
            Some(output.value.exitStatus))
        else
          && r.content == Shown(content, outputByteLimit) && r.exitStatus == None
          && (r.truncated <==> outputByteLimit.Some? && outputByteLimit.value < |content|)
    {
      if output.Some? {
        var o := output.value;
        return Response(o.content, o.originalLen > |o.content|, Some(o.exitStatus));
      }
      var shown, len := TruncatedOutput(content);
      return Response(shown, |shown| < len, None);
    }
  }
}
