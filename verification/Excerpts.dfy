/** Which parts of a pending diff are shown: the hunks and revealed ranges, sorted and merged. */
module Excerpts {
  import opened Prelude

  /** A row and a column, ordered like a dictionary. */
  datatype Point = Point(row: nat, column: nat)

  predicate Before(a: Point, b: Point) {
    a.row < b.row || (a.row == b.row && a.column < b.column)
  }

  predicate AtMost(a: Point, b: Point) {
    !Before(b, a)
  }

  function Max(a: Point, b: Point): Point {
    if Before(a, b) then b else a
  }

  datatype Range = Range(start: Point, end: Point)

  predicate Proper(rs: seq<Range>) {
    forall i | 0 <= i < |rs| :: AtMost(rs[i].start, rs[i].end)
  }

  /** The sort key: earlier starts first, and of equal starts the later end first. */
  predicate Leq(a: Range, b: Range) {
    Before(a.start, b.start) || (a.start == b.start && AtMost(b.end, a.end))
  }

  predicate Sorted(rs: seq<Range>) {
    forall i, j | 0 <= i < j < |rs| :: Leq(rs[i], rs[j])
  }

  function Insert(rs: seq<Range>, r: Range): seq<Range> {
    if rs == [] || Leq(r, rs[0]) then [r] + rs else [rs[0]] + Insert(rs[1..], r)
  }

  function Sort(rs: seq<Range>): seq<Range> {
    if rs == [] then [] else Insert(Sort(rs[1..]), rs[0])
  }

  /** What the nested loops do to a sorted list, with `r` the range being extended. */
  function MergeFrom(r: Range, rest: seq<Range>): (ms: seq<Range>)
    ensures ms != []
    decreases |rest|
  {
    if rest == [] then [r]
    else if AtMost(rest[0].start, r.end) then MergeFrom(Range(r.start, Max(r.end, rest[0].end)), rest[1..])
    else [r] + MergeFrom(rest[0], rest[1..])
  }

  function Merge(rs: seq<Range>): seq<Range> {
    if rs == [] then [] else MergeFrom(rs[0], rs[1..])
  }

  function ExcerptRanges(hunks: seq<Range>, revealed: seq<Range>): seq<Range> {
    Merge(Sort(hunks + revealed))
  }

  // ----- The sort -----

  lemma {:induction false} InsertPermutes(rs: seq<Range>, r: Range)
    ensures multiset(Insert(rs, r)) == multiset(rs) + multiset{r}
  {
    if rs == [] || Leq(r, rs[0]) {
      assert multiset([r] + rs) == multiset(rs) + multiset{r};
    } else {
      InsertPermutes(rs[1..], r);
      assert rs == [rs[0]] + rs[1..];
    }
  }

  lemma LeqTransitive(a: Range, b: Range, c: Range)
    requires Leq(a, b) && Leq(b, c)
    ensures Leq(a, c)
  {
  }

  lemma {:induction false} ConsSorted(r: Range, rs: seq<Range>)
    requires Sorted(rs) && forall x | x in multiset(rs) :: Leq(r, x)
    ensures Sorted([r] + rs)
  {
    assert forall j | 0 <= j < |rs| :: rs[j] in multiset(rs);
  }

  lemma {:induction false} InsertSorts(rs: seq<Range>, r: Range)
    requires Sorted(rs)
    ensures Sorted(Insert(rs, r))
  {
    if rs == [] {
    } else if Leq(r, rs[0]) {
      forall x | x in multiset(rs)
        ensures Leq(r, x)
      {
        FirstIsLeast(rs, x);
        LeqTransitive(r, rs[0], x);
      }
      ConsSorted(r, rs);
    } else {
      InsertSorts(rs[1..], r);
      InsertPermutes(rs[1..], r);
      forall x | x in multiset(Insert(rs[1..], r))
        ensures Leq(rs[0], x)
      {
        if x != r {
          assert x in rs[1..];
          FirstIsLeast(rs, x);
        }
      }
      ConsSorted(rs[0], Insert(rs[1..], r));
    }
  }

  lemma {:induction false} SortSorts(rs: seq<Range>)
    ensures Sorted(Sort(rs)) && multiset(Sort(rs)) == multiset(rs)
  {
    if rs != [] {
      SortSorts(rs[1..]);
      InsertSorts(Sort(rs[1..]), rs[0]);
      InsertPermutes(Sort(rs[1..]), rs[0]);
      assert rs == [rs[0]] + rs[1..];
    }
  }

  lemma {:induction false} FirstIsLeast(a: seq<Range>, r: Range)
    requires Sorted(a) && r in multiset(a)
    ensures a != [] && Leq(a[0], r)
  {
    var i :| 0 <= i < |a| && a[i] == r;
  }

  lemma {:induction false} DropFirst(a: seq<Range>)
    requires a != []
    ensures multiset(a[1..]) == multiset(a) - multiset{a[0]}
  {
    assert a == [a[0]] + a[1..];
  }

  /** The key tells ranges apart, so a multiset has one sorted order. */
  lemma {:induction false} SortedUnique(a: seq<Range>, b: seq<Range>)
    requires Sorted(a) && Sorted(b) && multiset(a) == multiset(b)
    ensures a == b
  {
    assert |multiset(a)| == |a| && |multiset(b)| == |b|;
    if a != [] {
      FirstIsLeast(a, b[0]);
      FirstIsLeast(b, a[0]);
      DropFirst(a);
      DropFirst(b);
      SortedUnique(a[1..], b[1..]);
      assert a == [a[0]] + a[1..] && b == [b[0]] + b[1..];
    }
  }

  // ----- The merge -----

  predicate Contains(r: Range, p: Point) {
    AtMost(r.start, p) && AtMost(p, r.end)
  }

  predicate Covers(rs: seq<Range>, p: Point) {
    exists i | 0 <= i < |rs| :: Contains(rs[i], p)
  }

  /** In order, with a gap after each range. */
  predicate Separated(rs: seq<Range>) {
    Proper(rs) && forall i, j | 0 <= i < j < |rs| :: Before(rs[i].end, rs[j].start)
  }

  lemma {:induction false} CoversCons(r: Range, rs: seq<Range>, p: Point)
    ensures Covers([r] + rs, p) <==> Contains(r, p) || Covers(rs, p)
  {
    if Covers(rs, p) {
      var i :| 0 <= i < |rs| && Contains(rs[i], p);
      assert Contains(([r] + rs)[i + 1], p);
    }
    if Contains(r, p) {
      assert Contains(([r] + rs)[0], p);
    }
  }

  predicate StartsFrom(start: Point, rs: seq<Range>) {
    forall i | 0 <= i < |rs| :: AtMost(start, rs[i].start)
  }

  lemma {:induction false} MergeFromSeparates(r: Range, rest: seq<Range>)
    requires Proper([r] + rest) && Sorted(rest) && StartsFrom(r.start, rest)
    ensures Separated(MergeFrom(r, rest)) && MergeFrom(r, rest)[0].start == r.start
      && AtMost(r.end, MergeFrom(r, rest)[0].end)
    decreases |rest|
  {
    assert AtMost(([r] + rest)[0].start, ([r] + rest)[0].end);
    assert forall i | 0 <= i < |rest| :: ([r] + rest)[i + 1] == rest[i];
    if rest == [] {
    } else {
      assert AtMost(r.start, rest[0].start) && AtMost(rest[0].start, rest[0].end);
      if AtMost(rest[0].start, r.end) {
        MergeFromSeparates(Range(r.start, Max(r.end, rest[0].end)), rest[1..]);
      } else {
        MergeFromSeparates(rest[0], rest[1..]);
      }
    }
  }

  lemma {:induction false} MergeFromCovers(r: Range, rest: seq<Range>, p: Point)
    requires Proper([r] + rest) && Sorted(rest) && StartsFrom(r.start, rest)
    ensures Covers(MergeFrom(r, rest), p) <==> Covers([r] + rest, p)
    decreases |rest|
  {
    assert AtMost(([r] + rest)[0].start, ([r] + rest)[0].end);
    assert forall i | 0 <= i < |rest| :: ([r] + rest)[i + 1] == rest[i];
    if rest == [] {
      assert [r] + rest == [r];
    } else {
      assert AtMost(r.start, rest[0].start) && AtMost(rest[0].start, rest[0].end);
      assert rest == [rest[0]] + rest[1..];
      CoversCons(r, rest, p);
      CoversCons(rest[0], rest[1..], p);
      if AtMost(rest[0].start, r.end) {
        var grown := Range(r.start, Max(r.end, rest[0].end));
        MergeFromCovers(grown, rest[1..], p);
        CoversCons(grown, rest[1..], p);
      } else {
        MergeFromCovers(rest[0], rest[1..], p);
        CoversCons(r, MergeFrom(rest[0], rest[1..]), p);
      }
    }
  }

  lemma {:induction false} SeparatedMergesToItself(r: Range, rest: seq<Range>)
    requires Separated([r] + rest)
    ensures MergeFrom(r, rest) == [r] + rest
    decreases |rest|
  {
    if rest != [] {
      var all := [r] + rest;
      assert Before(all[0].end, all[1].start);
      assert forall i | 0 <= i < |rest| :: all[i + 1] == rest[i];
      assert [rest[0]] + rest[1..] == rest;
      SeparatedMergesToItself(rest[0], rest[1..]);
    }
  }

  lemma {:induction false} SeparatedIsSorted(rs: seq<Range>)
    requires Separated(rs)
    ensures Sorted(rs)
  {
    forall i, j | 0 <= i < j < |rs|
      ensures Leq(rs[i], rs[j])
    {
      assert AtMost(rs[i].start, rs[i].end) && Before(rs[i].end, rs[j].start);
    }
  }

  lemma {:induction false} SameCover(a: seq<Range>, b: seq<Range>, p: Point)
    requires multiset(a) == multiset(b)
    ensures Covers(a, p) <==> Covers(b, p)
  {
    if Covers(a, p) {
      var i :| 0 <= i < |a| && Contains(a[i], p);
      assert a[i] in multiset(b);
    }
    if Covers(b, p) {
      var i :| 0 <= i < |b| && Contains(b[i], p);
      assert b[i] in multiset(a);
    }
  }

  lemma {:induction false} SortKeepsProper(rs: seq<Range>)
    requires Proper(rs)
    ensures Proper(Sort(rs))
  {
    SortSorts(rs);
    forall i | 0 <= i < |Sort(rs)|
      ensures AtMost(Sort(rs)[i].start, Sort(rs)[i].end)
    {
      assert Sort(rs)[i] in multiset(rs);
    }
  }

  /** The excerpts are in order with gaps between them and cover exactly the positions that were asked for. */
  lemma {:induction false} ExcerptsCoverExactly(hunks: seq<Range>, revealed: seq<Range>, p: Point)
    requires Proper(hunks + revealed)
    ensures Separated(ExcerptRanges(hunks, revealed))
    ensures Covers(ExcerptRanges(hunks, revealed), p) <==> Covers(hunks, p) || Covers(revealed, p)
  {
    var rs := hunks + revealed;
    SortSorts(rs);
    SortKeepsProper(rs);
    var sorted := Sort(rs);
    if sorted != [] {
      assert [sorted[0]] + sorted[1..] == sorted;
      MergeFromSeparates(sorted[0], sorted[1..]);
      MergeFromCovers(sorted[0], sorted[1..], p);
    }
    SameCover(sorted, rs, p);
    CoversBoth(hunks, revealed, p);
  }

  lemma {:induction false} CoversBoth(a: seq<Range>, b: seq<Range>, p: Point)
    ensures Covers(a + b, p) <==> Covers(a, p) || Covers(b, p)
  {
    if Covers(b, p) {
      var i :| 0 <= i < |b| && Contains(b[i], p);
      assert Contains((a + b)[|a| + i], p);
    }
    if Covers(a, p) {
      var i :| 0 <= i < |a| && Contains(a[i], p);
      assert Contains((a + b)[i], p);
    }
  }

  /** Only which ranges there are matters, not in which order or from which source they come. */
  lemma {:induction false} OrderDoesNotMatter(
    hunks: seq<Range>, revealed: seq<Range>, hunks': seq<Range>, revealed': seq<Range>)
    requires multiset(hunks + revealed) == multiset(hunks' + revealed')
    ensures ExcerptRanges(hunks, revealed) == ExcerptRanges(hunks', revealed')
  {
    SortSorts(hunks + revealed);
    SortSorts(hunks' + revealed');
    SortedUnique(Sort(hunks + revealed), Sort(hunks' + revealed'));
  }

  /** Merging what is merged changes nothing. */
  lemma {:induction false} MergingTwiceIsMergingOnce(hunks: seq<Range>, revealed: seq<Range>)
    requires Proper(hunks + revealed)
    ensures ExcerptRanges(ExcerptRanges(hunks, revealed), []) == ExcerptRanges(hunks, revealed)
  {
    var m := ExcerptRanges(hunks, revealed);
    ExcerptsCoverExactly(hunks, revealed, Point(0, 0));
    SeparatedIsSorted(m);
    SortSorts(m);
    assert m + [] == m;
    SortedUnique(Sort(m), m);
    if m != [] {
      assert [m[0]] + m[1..] == m;
      SeparatedMergesToItself(m[0], m[1..]);
    }
  }

  // ----- The object -----

  class PendingDiff {
    var revealedRanges: seq<Range>

    constructor ()
      ensures revealedRanges == []
    {
      revealedRanges := [];
    }

    /** Also shows a range, and reports what is shown now that the diff has these hunks. */
    method RevealRange(range: Range, hunks: seq<Range>) returns (shown: seq<Range>)
      modifies this`revealedRanges
      ensures revealedRanges == old(revealedRanges) + [range] && shown == ExcerptRanges(hunks, revealedRanges)
    {
      revealedRanges := revealedRanges + [range];
      shown := VisibleRanges(hunks);
    }

    method VisibleRanges(hunks: seq<Range>) returns (merged: seq<Range>)
      ensures merged == ExcerptRanges(hunks, revealedRanges)
    {
      var ranges := Sort(hunks + revealedRanges);
      merged := [];
      var i := 0;
      while i < |ranges|
        invariant i <= |ranges| && merged + Merge(ranges[i..]) == Merge(ranges)
      {
        var range, next := Extend(ranges, i);
        assert merged + ([range] + Merge(ranges[next..])) == merged + [range] + Merge(ranges[next..]);
        merged, i := merged + [range], next;
      }
    }
  }

  /** The inner loop: takes in every range that begins before the current one ends. */
  method Extend(ranges: seq<Range>, first: nat) returns (range: Range, next: nat)
    requires first < |ranges|
    ensures first < next <= |ranges| && Merge(ranges[first..]) == [range] + Merge(ranges[next..])
  {
    range, next := ranges[first], first + 1;
    assert ranges[first..][1..] == ranges[next..];
    while next < |ranges| && AtMost(ranges[next].start, range.end)
      invariant first < next <= |ranges| && MergeFrom(range, ranges[next..]) == Merge(ranges[first..])
    {
      assert ranges[next..][1..] == ranges[next + 1..];
      range, next := Range(range.start, Max(range.end, ranges[next].end)), next + 1;
    }
    assert ranges[next..] == [] ==> [range] + Merge(ranges[next..]) == [range];
  }
}
