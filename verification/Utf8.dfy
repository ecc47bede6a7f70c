/** Rust strings as their bytes: well-formed UTF-8 and its character boundaries. */
module Utf8 {
  newtype Byte = b: int | 0 <= b < 256

  type Text = seq<Byte>

  const NEWLINE: Byte := 0x0A

  predicate Continuation(b: Byte) {
    0x80 <= b < 0xC0
  }

  /** Number of bytes announced by a lead byte; 0 for a byte that leads nothing. */
  function Width(lead: Byte): nat {
    if lead < 0x80 then 1
    else if 0xC2 <= lead < 0xE0 then 2
    else if 0xE0 <= lead < 0xF0 then 3
    else if 0xF0 <= lead < 0xF5 then 4
    else 0
  }

  /** `s` is the encoding of exactly one character (sections 3 and 4 of RFC 3629). */
  predicate Character(s: Text) {
    && 1 <= |s| == Width(s[0])
    && (forall i | 1 <= i < |s| :: Continuation(s[i]))
    && (s[0] == 0xE0 ==> 0xA0 <= s[1])
    && (s[0] == 0xED ==> s[1] < 0xA0)
    && (s[0] == 0xF0 ==> 0x90 <= s[1])
    && (s[0] == 0xF4 ==> s[1] < 0x90)
  }

  predicate WellFormed(s: Text) {
    s == [] ||
    var n := Width(s[0]);
    0 < n <= |s| && Character(s[..n]) && WellFormed(s[n..])
  }

  /** `str::is_char_boundary`. */
  predicate Boundary(s: Text, i: int) {
    0 <= i <= |s| && (i == 0 || i == |s| || !Continuation(s[i]))
  }

  /** A boundary really is the end of a character: both sides are strings again. */
  lemma {:induction false} SplitAtBoundary(s: Text, i: nat)
    requires WellFormed(s) && Boundary(s, i)
    ensures WellFormed(s[..i]) && WellFormed(s[i..])
    decreases |s|
  {
    if s == [] || i == 0 {
      assert s[..i] == [] && s[i..] == s;
    } else {
      var n := Width(s[0]);
      InsideCharacter(s, i);
      SplitAtBoundary(s[n..], i - n);
      PrefixPieces(s, n, i);
    }
  }

  /** A boundary after the start is not inside the first character. */
  lemma {:induction false} InsideCharacter(s: Text, i: nat)
    requires WellFormed(s) && s != [] && i > 0 && Boundary(s, i)
    ensures Width(s[0]) <= i && Boundary(s[Width(s[0])..], i - Width(s[0]))
  {
    var n := Width(s[0]);
    assert forall k | 1 <= k < n :: s[k] == s[..n][k] && Continuation(s[k]);
    if n < i < |s| {
      assert s[n..][i - n] == s[i];
    }
  }

  lemma PrefixPieces(s: Text, n: nat, i: nat)
    requires n <= i <= |s|
    ensures s[..i][..n] == s[..n] && s[..i][n..] == s[n..][..i - n] && s[n..][i - n..] == s[i..]
  {
  }

  lemma {:induction false} JoinWellFormed(a: Text, b: Text)
    requires WellFormed(a) && WellFormed(b)
    ensures WellFormed(a + b)
    decreases |a|
  {
    if a == [] {
      assert a + b == b;
    } else {
      var n := Width(a[0]);
      JoinWellFormed(a[n..], b);
      assert (a + b)[..n] == a[..n];
      assert (a + b)[n..] == a[n..] + b;
    }
  }

  /** No index of a string is more than three bytes past a boundary, or before one. */
  lemma {:induction false} BoundaryNearby(s: Text, i: nat)
    requires WellFormed(s) && i <= |s|
    ensures exists j :: i - 3 <= j <= i && Boundary(s, j)
    ensures exists j :: i <= j <= i + 3 && Boundary(s, j)
    decreases |s|
  {
    if s == [] || i == 0 {
      assert Boundary(s, i);
    } else {
      var n := Width(s[0]);
      assert Boundary(s, 0);
      LeadNotContinuation(s[n..]);
      assert Boundary(s, n);
      if n <= i {
        BoundaryNearby(s[n..], i - n);
        var lo :| i - n - 3 <= lo <= i - n && Boundary(s[n..], lo);
        var hi :| i - n <= hi <= i - n + 3 && Boundary(s[n..], hi);
        assert lo != |s[n..]| ==> s[n..][lo] == s[n + lo];
        assert hi != |s[n..]| ==> s[n..][hi] == s[n + hi];
        assert Boundary(s, n + lo) && Boundary(s, n + hi);
      }
    }
  }

  lemma LeadNotContinuation(s: Text)
    requires WellFormed(s)
    ensures s != [] ==> !Continuation(s[0])
  {
  }

  /** The least boundary at or after `i` (`str::ceil_char_boundary`). */
  function Ceil(s: Text, i: nat): (j: nat)
    ensures Boundary(s, j)
    ensures i <= |s| ==> i <= j && forall k :: i <= k < j ==> !Boundary(s, k)
    ensures i > |s| ==> j == |s|
    decreases |s| - i
  {
    if i >= |s| then |s| else if Boundary(s, i) then i else Ceil(s, i + 1)
  }

  /** The greatest boundary at or before `i`. */
  function Floor(s: Text, i: nat): (j: nat)
    requires i <= |s|
    ensures j <= i && Boundary(s, j)
    ensures forall k :: j < k <= i ==> !Boundary(s, k)
  {
    if Boundary(s, i) then i else Floor(s, i - 1)
  }

  lemma CeilWithinThree(s: Text, i: nat)
    requires WellFormed(s) && i <= |s|
    ensures Ceil(s, i) <= i + 3
  {
    BoundaryNearby(s, i);
  }

  lemma FloorWithinThree(s: Text, i: nat)
    requires WellFormed(s) && i <= |s|
    ensures i <= Floor(s, i) + 3
  {
    BoundaryNearby(s, i);
  }
}
