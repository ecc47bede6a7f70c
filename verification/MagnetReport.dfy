/** What a magnet report looks like, and what in a report the parser does not care about. */
module MagnetReport {
  import opened Prelude
  import opened Decimals
  import opened PyStrings
  import opened Magnets
  import opened MagnetRoundTrip

  // ----- Sorting is stable -----

  function WithKey<T>(xs: seq<T>, key: T -> int, v: int): seq<T> {
    if xs == [] then [] else (if key(xs[0]) == v then [xs[0]] else []) + WithKey(xs[1..], key, v)
  }

  lemma {:induction false} WithKeyCons<T>(x: T, ys: seq<T>, key: T -> int, v: int)
    ensures WithKey([x] + ys, key, v) == (if key(x) == v then [x] else []) + WithKey(ys, key, v)
  {
    assert ([x] + ys)[1..] == ys;
  }

  lemma {:induction false} PlaceStable<T>(x: T, ys: seq<T>, key: T -> int, v: int)
    requires Descending(ys, key)
    ensures WithKey(Place(x, ys, key), key, v) == (if key(x) == v then [x] else []) + WithKey(ys, key, v)
  {
    if ys == [] || key(ys[0]) <= key(x) {
      WithKeyCons(x, ys, key, v);
    } else {
      var y, rest := ys[0], ys[1..];
      PlaceStable(x, rest, key, v);
      WithKeyCons(y, Place(x, rest, key), key, v);
      WithKeyCons(y, rest, key, v);
      assert [y] + rest == ys;
      var found := WithKey(rest, key, v);
      if key(x) == v {
        assert key(y) != v && [] + ([x] + found) == [x] + ([] + found);
      } else {
        assert [] + found == found;
      }
    }
  }

  /** Things with equal keys stay in the order they were in. */
  lemma {:induction false} SortIsStable<T>(xs: seq<T>, key: T -> int, v: int)
    ensures WithKey(SortDesc(xs, key), key, v) == WithKey(xs, key, v)
  {
    if xs != [] {
      SortIsStable(xs[1..], key, v);
      SortDescSorts(xs[1..], key);
      PlaceStable(xs[0], SortDesc(xs[1..], key), key, v);
    }
  }

  // ----- The order of the areas -----

  /** All duplicates reported for issues of an area. */
  function AreaSum(magnets: seq<Magnet>, area: string): nat {
    if magnets == [] then 0
    else AreaSum(Init(magnets), area) + Last(magnets).count * multiset(Last(magnets).areas)[area]
  }

  lemma {:induction false} TotalAppend(ps: seq<Pair>, qs: seq<Pair>, area: string)
    ensures Total(ps + qs, area) == Total(ps, area) + Total(qs, area)
    decreases |qs|
  {
    if qs == [] {
      assert ps + qs == ps;
    } else {
      TotalAppend(ps, Init(qs), area);
      assert Init(ps + qs) == ps + Init(qs) && Last(ps + qs) == Last(qs);
    }
  }

  lemma {:induction false} TotalTagLast(areas: seq<string>, last: string, m: Magnet, area: string)
    ensures Total(Tag(areas + [last], m), area) == Total(Tag(areas, m), area) + if last == area then m.count else 0
  {
    assert Init(Tag(areas + [last], m)) == Tag(areas, m) && Last(Tag(areas + [last], m)) == (last, m);
  }

  lemma {:induction false} OneMoreTime(count: nat, n: nat)
    ensures count * (n + 1) == count * n + count
  {
  }

  lemma {:induction false} TotalTag(areas: seq<string>, m: Magnet, area: string)
    ensures Total(Tag(areas, m), area) == m.count * multiset(areas)[area]
    decreases |areas|
  {
    if areas != [] {
      var init, last := Init(areas), Last(areas);
      TotalTag(init, m, area);
      TotalTagLast(init, last, m, area);
      assert areas == init + [last];
      OneMoreTime(m.count, multiset(init)[area]);
    }
  }

  lemma {:induction false} TotalIsSum(magnets: seq<Magnet>, area: string)
    ensures Total(Pairs(magnets), area) == AreaSum(magnets, area)
  {
    if magnets != [] {
      TotalIsSum(Init(magnets), area);
      TotalAppend(Pairs(Init(magnets)), Tag(Last(magnets).areas, Last(magnets)), area);
      TotalTag(Last(magnets).areas, Last(magnets), area);
    }
  }

  lemma {:induction false} SortedDistinct(xs: seq<string>, ys: seq<string>)
    requires Distinct(xs) && multiset(ys) == multiset(xs)
    ensures forall i, j | 0 <= i < j < |ys| :: ys[i] != ys[j]
  {
    forall i, j | 0 <= i < j < |ys|
      ensures ys[i] != ys[j]
    {
      var a, b := ys[..j], ys[j..];
      assert ys == a + b && a[i] == ys[i] && b[0] == ys[j];
      assert multiset(ys) == multiset(a) + multiset(b);
      assert a[i] in multiset(a) && b[0] in multiset(b);
      assert multiset(ys)[ys[j]] <= 1;
    }
  }

  /** Areas come in order of all their duplicates, each once, and the issues of an area in order of theirs. */
  lemma {:induction false} ReportOrder(magnets: seq<Magnet>, area: string)
    ensures
      var areas, issues := AreasByTotal(Pairs(magnets)), Issues(Pairs(magnets), area);
      && (forall i, j | 0 <= i < j < |areas| ::
            AreaSum(magnets, areas[j]) <= AreaSum(magnets, areas[i]) && areas[i] != areas[j])
      && (forall i, j | 0 <= i < j < |issues| :: issues[j].count <= issues[i].count)
      && multiset(issues) == multiset(Under(Pairs(magnets), area))
  {
    var pairs := Pairs(magnets);
    var areas, issues := AreasByTotal(pairs), Issues(pairs, area);
    SortDescSorts(Areas(pairs), a => Total(pairs, a));
    SortDescSorts(Under(pairs, area), CountOf);
    AreasOnce(pairs);
    SortedDistinct(Areas(pairs), areas);
    forall i, j | 0 <= i < j < |areas|
      ensures AreaSum(magnets, areas[j]) <= AreaSum(magnets, areas[i])
    {
      TotalIsSum(magnets, areas[i]);
      TotalIsSum(magnets, areas[j]);
    }
    forall i, j | 0 <= i < j < |issues|
      ensures issues[j].count <= issues[i].count
    {
      assert CountOf(issues[j]) <= CountOf(issues[i]);
    }
  }

  // ----- Lines -----

  /** A count takes two places at least, with a space in front if need be. */
  lemma {:induction false} CountsAreAligned(count: nat)
    ensures |Pad(count)| == if count < 10 then 2 else |Print(count)|
    ensures count < 10 ==> Pad(count)[0] == ' ' && Pad(count)[1..] == Print(count)
  {
  }

  lemma {:induction false} SampleLine(m: Magnet)
    ensures m.count == 7 ==> Item(m) == "-   [ 7 dupes] " + m.url
    ensures m.count == 12 ==> Item(m) == "-   [12 dupes] " + m.url
  {
    assert Print(7) == "7" && Print(1) == "1" && Print(12) == "1" + "2" == "12";
    assert "-   [" + " 7" + " dupes] " == "-   [ 7 dupes] ";
    assert "-   [" + "12" + " dupes] " == "-   [12 dupes] ";
  }

  // ----- What the parser does not care about -----

  predicate OccursAt(line: string, part: string, k: int) {
    0 <= k <= |line| - |part| && line[k..k + |part|] == part
  }

  ghost predicate Contains(line: string, part: string) {
    exists k :: OccursAt(line, part, k)
  }

  lemma {:induction false} OccursLater(line: string, part: string, k: int)
    requires line != []
    ensures k > 0 ==> (OccursAt(line, part, k) <==> OccursAt(line[1..], part, k - 1))
  {
    if 0 < k <= |line| - |part| {
      assert line[1..][k - 1..k - 1 + |part|] == line[k..k + |part|];
    }
  }

  lemma {:induction false} FindExact(line: string, part: string)
    ensures Find(line, part).Some? <==> Contains(line, part)
    decreases |line|
  {
    assert part <= line <==> OccursAt(line, part, 0);
    if !(part <= line) && line != [] {
      FindExact(line[1..], part);
      if Contains(line, part) {
        var k :| OccursAt(line, part, k);
        OccursLater(line, part, k);
      }
      if Contains(line[1..], part) {
        var k :| OccursAt(line[1..], part, k);
        OccursLater(line, part, k + 1);
      }
    }
  }

  /** A heading, or an item that links to an issue. */
  ghost predicate Matters(line: string) {
    "## " <= line || ("-" <= line && Contains(line, "/issues/"))
  }

  ghost function Essential(lines: seq<string>): seq<string> {
    if lines == [] then [] else (if Matters(lines[0]) then [lines[0]] else []) + Essential(lines[1..])
  }

  /** Lines that are neither headings nor links to issues may stand anywhere. */
  lemma {:induction false} NoiseIsIgnored(s: Scan, lines: seq<string>)
    ensures ScanLines(s, lines) == ScanLines(s, Essential(lines))
    decreases |lines|
  {
    if lines != [] {
      var line, rest := lines[0], lines[1..];
      FindExact(line, MARK);
      NoiseIsIgnored(ScanLine(s, line), rest);
      if Matters(line) {
        assert ([line] + Essential(rest))[1..] == Essential(rest);
      } else {
        assert ScanLine(s, line) == s && [] + Essential(rest) == Essential(rest);
      }
    }
  }

  /** Nothing is recorded before the first heading. */
  lemma {:induction false} NothingBeforeHeading(rs: seq<Record>, lines: seq<string>)
    requires forall i | 0 <= i < |lines| :: !("## " <= lines[i])
    ensures ScanLines(Scan(None, rs), lines) == Scan(None, rs)
    decreases |lines|
  {
    if lines != [] {
      NothingBeforeHeading(rs, lines[1..]);
    }
  }
}
