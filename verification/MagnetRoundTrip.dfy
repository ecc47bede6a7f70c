/** Parsing the report of duplicate magnets gives back what was written. */
module MagnetRoundTrip {
  import opened Prelude
  import opened Decimals
  import opened PyStrings
  import opened Magnets

  predicate GoodArea(area: string) {
    area != [] && '\n' !in area && !IsSpace(area[0]) && !IsSpace(Last(area))
  }

  predicate Canonical(m: Magnet) {
    m.url == BASE + MARK + Print(m.number)
  }

  /** What the writer is given: canonical issue URLs, distinct issue numbers, at least one trimmed area each. */
  predicate Reportable(magnets: seq<Magnet>) {
    && (forall i | 0 <= i < |magnets| :: Canonical(magnets[i]) && magnets[i].areas != [])
    && (forall i, j | 0 <= i < |magnets| && 0 <= j < |magnets[i].areas| :: GoodArea(magnets[i].areas[j]))
    && (forall i, j | 0 <= i < j < |magnets| :: magnets[i].number != magnets[j].number)
  }

  // ----- One line -----

  lemma BaseCharacters(i: nat)
    requires i < |BASE|
    ensures BASE[i] != '[' && BASE[i] != '\n'
    ensures BASE[i] == '/' ==> i + 1 < |BASE| && BASE[i + 1] != 'i'
  {
  }

  lemma {:induction false} PadCharacters(count: nat, i: nat)
    requires i < |Pad(count)|
    ensures IsDigit(Pad(count)[i]) || Pad(count)[i] == ' '
  {
    PrintedInt(count);
  }

  function Tail(m: Magnet): string {
    " dupes] " + m.url
  }

  lemma {:induction false} TailCharacters(m: Magnet, i: nat)
    requires Canonical(m) && i < |Tail(m)|
    ensures Tail(m)[i] != '[' && Tail(m)[i] != '\n'
  {
    PrintedInt(m.number);
    if 8 <= i < 8 + |BASE| {
      BaseCharacters(i - 8);
    }
  }

  lemma {:induction false} CountToken(m: Magnet)
    ensures FirstToken(Pad(m.count) + Tail(m)) == Some(Print(m.count))
  {
    PrintedInt(m.count);
    var t := Print(m.count);
    if m.count < 10 {
      assert (" " + t + Tail(m))[1..] == t + Tail(m);
      assert SkipSpaces(" " + t + Tail(m)) == SkipSpaces(t + Tail(m));
    }
    assert (t + Tail(m))[0] == t[0];
    assert SkipSpaces(t + Tail(m)) == t + Tail(m);
    TokenOf(t, Tail(m));
  }

  lemma {:induction false} AfterBracket(rest: string)
    requires '[' !in rest
    ensures SecondPiece("-   [" + rest, "[") == Some(rest)
  {
    var head := "-   ";
    assert "-   [" + rest == head + "[" + rest;
    forall i | 0 <= i < |head|
      ensures !("[" <= (head + "[" + rest)[i..])
    {
      assert (head + "[" + rest)[i..][0] == head[i];
    }
    FindAt(head, "[", rest);
    FindNowhere(rest, "[");
    assert ("-   [" + rest)[5..] == rest;
  }

  lemma {:induction false} NoBracket(m: Magnet)
    requires Canonical(m)
    ensures '[' !in Pad(m.count) + Tail(m) && '\n' !in Pad(m.count) + Tail(m)
  {
    var rest := Pad(m.count) + Tail(m);
    forall i | 0 <= i < |rest|
      ensures rest[i] != '[' && rest[i] != '\n'
    {
      if i < |Pad(m.count)| {
        PadCharacters(m.count, i);
      } else {
        TailCharacters(m, i - |Pad(m.count)|);
      }
    }
  }

  lemma {:induction false} ItemShape(m: Magnet)
    ensures Item(m) == "-   [" + (Pad(m.count) + Tail(m))
  {
  }

  lemma {:induction false} CountParses(m: Magnet)
    requires Canonical(m)
    ensures ItemCount(Item(m)) == Some(m.count) && '\n' !in Item(m)
  {
    ItemShape(m);
    NoBracket(m);
    AfterBracket(Pad(m.count) + Tail(m));
    CountToken(m);
    PrintedInt(m.count);
  }

  function BeforeMark(m: Magnet): string {
    "-   [" + Pad(m.count) + " dupes] " + BASE
  }

  lemma {:induction false} NoEarlierMark(m: Magnet, i: nat)
    requires Canonical(m) && i < |BeforeMark(m)|
    ensures !(MARK <= (BeforeMark(m) + MARK + Print(m.number))[i..])
  {
    var p := BeforeMark(m);
    var s := p + MARK + Print(m.number);
    var n := 5 + |Pad(m.count)|;
    if 5 <= i < n {
      PadCharacters(m.count, i - 5);
    } else if n + 8 <= i {
      BaseCharacters(i - n - 8);
    }
    assert s[i..][0] == s[i] && s[i] == p[i];
    assert s[i] == '/' ==> i + 1 < |p| && p[i + 1] != 'i' && s[i..][1] == p[i + 1];
    assert MARK[0] == '/' && MARK[1] == 'i';
  }

  lemma {:induction false} AfterMark(p: string, n: string)
    requires '/' !in n && forall i | 0 <= i < |p| :: !(MARK <= (p + MARK + n)[i..])
    ensures Find(p + MARK + n, MARK).Some? && SecondPiece(p + MARK + n, MARK) == Some(n)
  {
    FindAt(p, MARK, n);
    FindNowhere(n, MARK);
    assert (p + MARK + n)[|p| + |MARK|..] == n;
  }

  lemma {:induction false} NumberToken(n: nat)
    ensures FirstToken(Print(n)) == Some(Print(n)) && '/' !in Print(n)
  {
    PrintedInt(n);
    var t := Print(n);
    assert SkipSpaces(t) == t;
    TokenOf(t, []);
    assert t + [] == t;
  }

  lemma {:induction false} NumberParses(m: Magnet)
    requires Canonical(m)
    ensures Find(Item(m), MARK).Some? && ItemNumber(Item(m)) == Some(m.number)
  {
    var p, n := BeforeMark(m), Print(m.number);
    assert Item(m) == p + MARK + n;
    forall i | 0 <= i < |p|
      ensures !(MARK <= (p + MARK + n)[i..])
    {
      NoEarlierMark(m, i);
    }
    NumberToken(m.number);
    AfterMark(p, n);
    PrintedInt(m.number);
  }

  lemma {:induction false} ItemScans(s: Scan, m: Magnet)
    requires Canonical(m) && s.area.Some? && s.area.value != []
    ensures ScanLine(s, Item(m)) == s.(records := Note(s.records, s.area.value, m.number, m.count))
  {
    assert Item(m)[0] == '-' && "## "[0] == '#';
    assert !("## " <= Item(m)) && "-" <= Item(m);
    CountParses(m);
    NumberParses(m);
  }

  lemma {:induction false} HeaderScans(s: Scan, area: string)
    requires GoodArea(area)
    ensures ScanLine(s, "## " + area) == s.(area := Some(area))
  {
    assert "## " <= "## " + area && ("## " + area)[3..] == area;
    assert Strip(area) == area;
  }

  // ----- All lines -----

  lemma {:induction false} ScanAppend(s: Scan, a: seq<string>, b: seq<string>)
    ensures ScanLines(s, a + b) == ScanLines(ScanLines(s, a), b)
    decreases |a|
  {
    if a == [] {
      assert a + b == b;
    } else {
      assert (a + b)[1..] == a[1..] + b;
      ScanAppend(ScanLine(s, a[0]), a[1..], b);
    }
  }

  function Under1(area: string, ms: seq<Magnet>): seq<Pair> {
    seq(|ms|, i requires 0 <= i < |ms| => (area, ms[i]))
  }

  function NoteAll(rs: seq<Record>, ps: seq<Pair>): seq<Record>
    decreases |ps|
  {
    if ps == [] then rs else NoteAll(Note(rs, ps[0].0, ps[0].1.number, ps[0].1.count), ps[1..])
  }

  lemma {:induction false} NoteAllAppend(rs: seq<Record>, a: seq<Pair>, b: seq<Pair>)
    ensures NoteAll(rs, a + b) == NoteAll(NoteAll(rs, a), b)
    decreases |a|
  {
    if a == [] {
      assert a + b == b;
    } else {
      assert (a + b)[1..] == a[1..] + b;
      NoteAllAppend(Note(rs, a[0].0, a[0].1.number, a[0].1.count), a[1..], b);
    }
  }

  lemma {:induction false} FirstItemScans(area: string, rs: seq<Record>, ms: seq<Magnet>)
    requires area != [] && ms != [] && Canonical(ms[0])
    ensures ScanLines(Scan(Some(area), rs), Items(ms))
         == ScanLines(Scan(Some(area), Note(rs, area, ms[0].number, ms[0].count)), Items(ms[1..]))
  {
    ItemScans(Scan(Some(area), rs), ms[0]);
    assert Items(ms)[0] == Item(ms[0]) && Items(ms)[1..] == Items(ms[1..]);
  }

  lemma {:induction false} ItemsScan(area: string, rs: seq<Record>, ms: seq<Magnet>)
    requires area != [] && forall i | 0 <= i < |ms| :: Canonical(ms[i])
    ensures ScanLines(Scan(Some(area), rs), Items(ms)) == Scan(Some(area), NoteAll(rs, Under1(area, ms)))
    decreases |ms|
  {
    if ms != [] {
      FirstItemScans(area, rs, ms);
      assert Under1(area, ms)[1..] == Under1(area, ms[1..]);
      ItemsScan(area, Note(rs, area, ms[0].number, ms[0].count), ms[1..]);
    }
  }

  lemma {:induction false} SectionScans(s: Scan, area: string, ms: seq<Magnet>)
    requires GoodArea(area) && forall i | 0 <= i < |ms| :: Canonical(ms[i])
    ensures ScanLines(s, ["", "## " + area, ""] + Items(ms)) == Scan(Some(area), NoteAll(s.records, Under1(area, ms)))
  {
    var head := ["", "## " + area, ""];
    assert head[1..] == ["## " + area, ""] && head[1..][1..] == [""] && head[1..][1..][1..] == [];
    HeaderScans(s, area);
    var t := s.(area := Some(area));
    assert ScanLine(s, "") == s && ScanLine(t, "") == t;
    assert ScanLines(t, [""]) == ScanLines(t, []) == t;
    assert ScanLines(s, head[1..]) == ScanLines(t, [""]);
    assert ScanLines(s, head) == t;
    ScanAppend(s, head, Items(ms));
    ItemsScan(area, s.records, ms);
  }

  /** The pairs in the order the report lists them. */
  function Listed(pairs: seq<Pair>, areas: seq<string>): seq<Pair> {
    if areas == [] then [] else Under1(areas[0], Issues(pairs, areas[0])) + Listed(pairs, areas[1..])
  }

  lemma {:induction false} IssuesCanonical(pairs: seq<Pair>, area: string)
    requires forall i | 0 <= i < |pairs| :: Canonical(pairs[i].1)
    ensures forall i | 0 <= i < |Issues(pairs, area)| :: Canonical(Issues(pairs, area)[i])
  {
    UnderCanonical(pairs, area);
    SortDescSorts(Under(pairs, area), CountOf);
    forall i | 0 <= i < |Issues(pairs, area)|
      ensures Canonical(Issues(pairs, area)[i])
    {
      assert Issues(pairs, area)[i] in multiset(Under(pairs, area));
    }
  }

  lemma {:induction false} UnderCanonical(pairs: seq<Pair>, area: string)
    requires forall i | 0 <= i < |pairs| :: Canonical(pairs[i].1)
    ensures forall i | 0 <= i < |Under(pairs, area)| :: Canonical(Under(pairs, area)[i])
  {
    if pairs != [] {
      UnderCanonical(Init(pairs), area);
    }
  }

  lemma {:induction false} SectionsScan(s: Scan, pairs: seq<Pair>, areas: seq<string>)
    requires forall i | 0 <= i < |pairs| :: Canonical(pairs[i].1)
    requires forall i | 0 <= i < |areas| :: GoodArea(areas[i])
    ensures ScanLines(s, Sections(pairs, areas)).records == NoteAll(s.records, Listed(pairs, areas))
    decreases |areas|
  {
    if areas != [] {
      var ms := Issues(pairs, areas[0]);
      IssuesCanonical(pairs, areas[0]);
      SectionScans(s, areas[0], ms);
      ScanAppend(s, Section(pairs, areas[0]), Sections(pairs, areas[1..]));
      var t := ScanLines(s, Section(pairs, areas[0]));
      SectionsScan(t, pairs, areas[1..]);
      NoteAllAppend(s.records, Under1(areas[0], ms), Listed(pairs, areas[1..]));
    }
  }

  lemma {:induction false} HeadingSingleLine(area: string)
    requires '\n' !in area
    ensures '\n' !in "## " + area
  {
  }

  lemma {:induction false} ItemsSingleLine(ms: seq<Magnet>)
    requires forall i | 0 <= i < |ms| :: Canonical(ms[i])
    ensures forall i | 0 <= i < |Items(ms)| :: '\n' !in Items(ms)[i]
  {
    forall i | 0 <= i < |Items(ms)|
      ensures '\n' !in Items(ms)[i]
    {
      CountParses(ms[i]);
    }
  }

  lemma {:induction false} SectionSingleLine(pairs: seq<Pair>, area: string)
    requires (forall i | 0 <= i < |pairs| :: Canonical(pairs[i].1)) && GoodArea(area)
    ensures forall i | 0 <= i < |Section(pairs, area)| :: '\n' !in Section(pairs, area)[i]
  {
    IssuesCanonical(pairs, area);
    ItemsSingleLine(Issues(pairs, area));
    HeadingSingleLine(area);
  }

  lemma {:induction false} SectionsSingleLine(pairs: seq<Pair>, areas: seq<string>)
    requires forall i | 0 <= i < |pairs| :: Canonical(pairs[i].1)
    requires forall i | 0 <= i < |areas| :: GoodArea(areas[i])
    ensures forall i | 0 <= i < |Sections(pairs, areas)| :: '\n' !in Sections(pairs, areas)[i]
    decreases |areas|
  {
    if areas != [] {
      SectionSingleLine(pairs, areas[0]);
      SectionsSingleLine(pairs, areas[1..]);
    }
  }

  lemma IntroSingleLine()
    ensures '\n' !in INTRO && !("## " <= INTRO)
  {
    var a, b := "These are the issues that are ", "frequently re-reported. ";
    var c, d := "The list is generated ", "regularly by running a script.";
    assert INTRO == a + b + c + d;
    assert '\n' !in a && '\n' !in b && '\n' !in c && '\n' !in d;
    assert INTRO[0] == a[0] == 'T' && "## "[0] == '#';
  }

  /** What the parser collects from a report is the fold of the listed pairs. */
  lemma {:induction false} ReportScans(intro: string, pairs: seq<Pair>, areas: seq<string>)
    requires '\n' !in intro && !("## " <= intro)
    requires forall i | 0 <= i < |pairs| :: Canonical(pairs[i].1)
    requires forall i | 0 <= i < |areas| :: GoodArea(areas[i])
    ensures ScanLines(Scan(None, []), Split(Join([intro] + Sections(pairs, areas), '\n'), '\n')).records
      == NoteAll([], Listed(pairs, areas))
  {
    var lines := [intro] + Sections(pairs, areas);
    SectionsSingleLine(pairs, areas);
    SplitJoin(lines, '\n');
    var s := Scan(None, []);
    assert ScanLine(s, intro) == s;
    assert lines[1..] == Sections(pairs, areas);
    SectionsScan(s, pairs, areas);
  }

  // ----- The report lists every pair once -----

  lemma {:induction false} CountUnder1(area: string, ms: seq<Magnet>, x: Pair)
    ensures multiset(Under1(area, ms))[x] == if x.0 == area then multiset(ms)[x.1] else 0
  {
    if ms != [] {
      CountUnder1(area, Init(ms), x);
      assert Under1(area, ms) == Under1(area, Init(ms)) + [(area, Last(ms))];
      assert ms == Init(ms) + [Last(ms)];
    }
  }

  lemma {:induction false} CountUnder(pairs: seq<Pair>, x: Pair)
    ensures multiset(Under(pairs, x.0))[x.1] == multiset(pairs)[x]
  {
    if pairs != [] {
      CountUnder(Init(pairs), x);
      assert pairs == Init(pairs) + [Last(pairs)];
    }
  }

  lemma {:induction false} CountSection(pairs: seq<Pair>, area: string, x: Pair)
    ensures multiset(Under1(area, Issues(pairs, area)))[x] == if x.0 == area then multiset(pairs)[x] else 0
  {
    CountUnder1(area, Issues(pairs, area), x);
    SortDescSorts(Under(pairs, area), CountOf);
    CountUnder(pairs, x);
  }

  ghost predicate Distinct(xs: seq<string>) {
    forall x :: multiset(xs)[x] <= 1
  }

  lemma {:induction false} CountListed(pairs: seq<Pair>, areas: seq<string>, x: Pair)
    requires Distinct(areas)
    ensures multiset(Listed(pairs, areas))[x] == if x.0 in areas then multiset(pairs)[x] else 0
    decreases |areas|
  {
    if areas != [] {
      var a, rest := areas[0], areas[1..];
      assert areas == [a] + rest;
      assert multiset(areas) == multiset{a} + multiset(rest);
      assert forall y :: multiset(rest)[y] <= multiset(areas)[y];
      assert multiset(areas)[a] <= 1;
      assert a !in rest by {
        assert a in rest <==> multiset(rest)[a] > 0;
      }
      CountSection(pairs, a, x);
      CountListed(pairs, rest, x);
      assert multiset(Listed(pairs, areas)) == multiset(Under1(a, Issues(pairs, a))) + multiset(Listed(pairs, rest));
    }
  }

  lemma {:induction false} AreasOnce(pairs: seq<Pair>)
    ensures Distinct(Areas(pairs))
    ensures forall i | 0 <= i < |pairs| :: pairs[i].0 in Areas(pairs)
    ensures forall a | a in Areas(pairs) :: exists i | 0 <= i < |pairs| :: pairs[i].0 == a
  {
    if pairs != [] {
      AreasOnce(Init(pairs));
      var as0, a := Areas(Init(pairs)), Last(pairs).0;
      if a !in as0 {
        assert multiset(as0)[a] == 0;
        assert multiset(as0 + [a]) == multiset(as0) + multiset{a};
      }
      assert forall i | 0 <= i < |pairs| - 1 :: pairs[i] == Init(pairs)[i];
    }
  }

  lemma {:induction false} ListedIsPermutation(pairs: seq<Pair>)
    ensures multiset(Listed(pairs, AreasByTotal(pairs))) == multiset(pairs)
  {
    var areas := AreasByTotal(pairs);
    AreasOnce(pairs);
    SortDescSorts(Areas(pairs), a => Total(pairs, a));
    assert multiset(areas) == multiset(Areas(pairs));
    forall x: Pair
      ensures multiset(Listed(pairs, areas))[x] == multiset(pairs)[x]
    {
      CountListed(pairs, areas, x);
      assert x.0 in areas <==> x.0 in multiset(Areas(pairs));
      assert x in pairs <==> multiset(pairs)[x] > 0;
    }
  }

  // ----- Records -----

  /** The labelled areas listed for an issue. */
  function AreasFor(ps: seq<Pair>, number: int): multiset<string> {
    if ps == [] then multiset{}
    else AreasFor(Init(ps), number)
         + if Last(ps).1.number == number && Last(ps).0 != UNLABELED then multiset{Last(ps).0} else multiset{}
  }

  predicate Mentioned(ps: seq<Pair>, number: int) {
    exists i | 0 <= i < |ps| :: ps[i].1.number == number
  }

  predicate Counted(ps: seq<Pair>, number: int, count: int) {
    exists i | 0 <= i < |ps| :: ps[i].1.number == number && ps[i].1.count == count
  }

  predicate Numbered(rs: seq<Record>, number: int) {
    exists k | 0 <= k < |rs| :: rs[k].number == number
  }

  /** One record per number listed, with its count and labelled areas. */
  ghost predicate Recorded(rs: seq<Record>, ps: seq<Pair>) {
    && (forall k, l | 0 <= k < l < |rs| :: rs[k].number != rs[l].number)
    && (forall k | 0 <= k < |rs| :: Counted(ps, rs[k].number, rs[k].count))
    && (forall k | 0 <= k < |rs| :: multiset(rs[k].areas) == AreasFor(ps, rs[k].number))
    && (forall i | 0 <= i < |ps| :: Numbered(rs, ps[i].1.number))
  }

  lemma {:induction false} NoAreasFor(ps: seq<Pair>, number: int)
    requires !Mentioned(ps, number)
    ensures AreasFor(ps, number) == multiset{}
  {
    if ps != [] {
      assert Last(ps) == ps[|ps| - 1];
      assert forall i | 0 <= i < |ps| - 1 :: Init(ps)[i] == ps[i];
      NoAreasFor(Init(ps), number);
    }
  }

  lemma {:induction false} CountedStill(ps: seq<Pair>, p: Pair, number: int, count: int)
    ensures Counted(ps, number, count) ==> Counted(ps + [p], number, count)
    ensures Counted(ps + [p], p.1.number, p.1.count)
    ensures AreasFor(ps + [p], number)
         == AreasFor(ps, number) + if p.1.number == number && p.0 != UNLABELED then multiset{p.0} else multiset{}
  {
    var qs := ps + [p];
    assert Init(qs) == ps && Last(qs) == p;
    if Counted(ps, number, count) {
      var i :| 0 <= i < |ps| && ps[i].1.number == number && ps[i].1.count == count;
      assert qs[i] == ps[i];
    }
    assert qs[|ps|] == p;
  }

  lemma {:induction false} NumberedAll(rs: seq<Record>, ps: seq<Pair>, p: Pair, ss: seq<Record>)
    requires forall i | 0 <= i < |ps| :: Numbered(rs, ps[i].1.number)
    requires |rs| <= |ss| && forall k | 0 <= k < |rs| :: ss[k].number == rs[k].number
    requires Numbered(ss, p.1.number)
    ensures forall i | 0 <= i < |ps + [p]| :: Numbered(ss, (ps + [p])[i].1.number)
  {
    forall i | 0 <= i < |ps|
      ensures Numbered(ss, ps[i].1.number)
    {
      var k :| 0 <= k < |rs| && rs[k].number == ps[i].1.number;
      assert ss[k].number == ps[i].1.number;
    }
  }

  lemma {:induction false} NoteNumbers(rs: seq<Record>, p: Pair)
    requires forall k, l | 0 <= k < l < |rs| :: rs[k].number != rs[l].number
    ensures
      var ss := Note(rs, p.0, p.1.number, p.1.count);
      && (forall k, l | 0 <= k < l < |ss| :: ss[k].number != ss[l].number)
      && |rs| <= |ss| && (forall k | 0 <= k < |rs| :: ss[k].number == rs[k].number) && Numbered(ss, p.1.number)
  {
    var ss := Note(rs, p.0, p.1.number, p.1.count);
    var found := IndexOf(rs, p.1.number);
    assert ss[if found.Some? then found.value else |rs|].number == p.1.number;
  }

  lemma {:induction false} NotMentioned(rs: seq<Record>, ps: seq<Pair>, number: int)
    requires (forall i | 0 <= i < |ps| :: Numbered(rs, ps[i].1.number)) && IndexOf(rs, number).None?
    ensures AreasFor(ps, number) == multiset{}
  {
    assert !Mentioned(ps, number);
    NoAreasFor(ps, number);
  }

  /** What a record says of its issue is what the pairs say. */
  predicate Agrees(r: Record, ps: seq<Pair>) {
    Counted(ps, r.number, r.count) && multiset(r.areas) == AreasFor(ps, r.number)
  }

  lemma {:induction false} OldAgrees(r: Record, ps: seq<Pair>, p: Pair)
    requires Agrees(r, ps)
    ensures Agrees(if r.number == p.1.number && p.0 != UNLABELED then r.(areas := r.areas + [p.0]) else r, ps + [p])
  {
    CountedStill(ps, p, r.number, r.count);
  }

  lemma {:induction false} NewAgrees(ps: seq<Pair>, p: Pair)
    requires AreasFor(ps, p.1.number) == multiset{}
    ensures Agrees(Record(p.1.number, if p.0 == UNLABELED then [] else [p.0], p.1.count), ps + [p])
  {
    CountedStill(ps, p, p.1.number, p.1.count);
  }

  lemma {:induction false} NoteEntry(rs: seq<Record>, ps: seq<Pair>, p: Pair, k: nat)
    requires Recorded(rs, ps) && k < |Note(rs, p.0, p.1.number, p.1.count)|
    ensures Agrees(Note(rs, p.0, p.1.number, p.1.count)[k], ps + [p])
  {
    var found := IndexOf(rs, p.1.number);
    if k < |rs| {
      assert Agrees(rs[k], ps);
      assert rs[k].number == p.1.number ==> found == Some(k);
      assert rs[k].areas + [] == rs[k].areas;
      OldAgrees(rs[k], ps, p);
    } else {
      NotMentioned(rs, ps, p.1.number);
      NewAgrees(ps, p);
    }
  }

  lemma {:induction false} NoteRecords(rs: seq<Record>, ps: seq<Pair>, p: Pair)
    requires Recorded(rs, ps)
    ensures Recorded(Note(rs, p.0, p.1.number, p.1.count), ps + [p])
  {
    var ss := Note(rs, p.0, p.1.number, p.1.count);
    NoteNumbers(rs, p);
    NumberedAll(rs, ps, p, ss);
    forall k | 0 <= k < |ss|
      ensures Counted(ps + [p], ss[k].number, ss[k].count) && multiset(ss[k].areas) == AreasFor(ps + [p], ss[k].number)
    {
      NoteEntry(rs, ps, p, k);
    }
  }

  lemma {:induction false} AllRecorded(ps: seq<Pair>)
    ensures Recorded(NoteAll([], ps), ps)
  {
    if ps != [] {
      AllRecorded(Init(ps));
      assert ps == Init(ps) + [Last(ps)];
      NoteAllAppend([], Init(ps), [Last(ps)]);
      var rs := NoteAll([], Init(ps));
      assert NoteAll(rs, [Last(ps)]) == Note(rs, Last(ps).0, Last(ps).1.number, Last(ps).1.count);
      NoteRecords(rs, Init(ps), Last(ps));
    }
  }

  // ----- Back to the magnets -----

  /** All pairs with this number belong to this magnet. */
  predicate OnlyMagnet(ps: seq<Pair>, m: Magnet) {
    forall i | 0 <= i < |ps| && ps[i].1.number == m.number :: ps[i].1 == m
  }

  lemma {:induction false} CountAreasLast(ps: seq<Pair>, p: Pair, m: Magnet, a: string)
    requires p.1.number == m.number ==> p.1 == m
    requires AreasFor(ps, m.number)[a] == if a == UNLABELED then 0 else multiset(ps)[(a, m)]
    ensures AreasFor(ps + [p], m.number)[a] == if a == UNLABELED then 0 else multiset(ps + [p])[(a, m)]
  {
    assert Init(ps + [p]) == ps && Last(ps + [p]) == p;
    assert multiset(ps + [p]) == multiset(ps) + multiset{p};
  }

  lemma {:induction false} CountAreas(ps: seq<Pair>, m: Magnet, a: string)
    requires OnlyMagnet(ps, m)
    ensures AreasFor(ps, m.number)[a] == if a == UNLABELED then 0 else multiset(ps)[(a, m)]
  {
    if ps != [] {
      var init, last := Init(ps), Last(ps);
      assert forall i | 0 <= i < |ps| - 1 :: init[i] == ps[i];
      CountAreas(init, m, a);
      assert ps[|ps| - 1] == last;
      CountAreasLast(init, last, m, a);
      assert ps == init + [last];
    }
  }

  lemma {:induction false} CountTag(areas: seq<string>, n: Magnet, a: string, m: Magnet)
    ensures multiset(Tag(areas, n))[(a, m)] == if n == m then multiset(areas)[a] else 0
  {
    if areas != [] {
      CountTag(Init(areas), n, a, m);
      assert Tag(areas, n) == Tag(Init(areas), n) + [(Last(areas), n)];
      assert areas == Init(areas) + [Last(areas)];
    }
  }

  lemma {:induction false} PairsFrom(magnets: seq<Magnet>)
    ensures forall i | 0 <= i < |Pairs(magnets)| ::
      Pairs(magnets)[i].1 in magnets && Pairs(magnets)[i].0 in Pairs(magnets)[i].1.areas
  {
    if magnets != [] {
      PairsFrom(Init(magnets));
    }
  }

  lemma {:induction false} CountPairs(magnets: seq<Magnet>, k: nat, a: string)
    requires k < |magnets| && forall i, j | 0 <= i < j < |magnets| :: magnets[i].number != magnets[j].number
    ensures multiset(Pairs(magnets))[(a, magnets[k])] == multiset(magnets[k].areas)[a]
  {
    var init, last, m := Init(magnets), Last(magnets), magnets[k];
    CountTag(last.areas, last, a, m);
    assert multiset(Pairs(magnets)) == multiset(Pairs(init)) + multiset(Tag(last.areas, last));
    if k < |init| {
      CountPairs(init, k, a);
    } else {
      PairsFrom(init);
      assert (a, m) !in Pairs(init);
    }
  }

  predicate Same(r: Record, m: Magnet) {
    r.number == m.number && r.count == m.count && multiset(r.areas) == multiset(m.areas)[UNLABELED := 0]
  }

  predicate HasSame(rs: seq<Record>, m: Magnet) {
    exists k | 0 <= k < |rs| :: Same(rs[k], m)
  }

  lemma {:induction false} ListedFrom(magnets: seq<Magnet>, ps: seq<Pair>)
    requires multiset(ps) == multiset(Pairs(magnets))
    ensures forall i | 0 <= i < |ps| :: ps[i].1 in magnets && ps[i].0 in ps[i].1.areas
  {
    PairsFrom(magnets);
    forall i | 0 <= i < |ps|
      ensures ps[i].1 in magnets && ps[i].0 in ps[i].1.areas
    {
      assert ps[i] in multiset(Pairs(magnets));
    }
  }

  lemma {:induction false} RecordMatches(magnets: seq<Magnet>, ps: seq<Pair>, rs: seq<Record>, k: nat, r: nat)
    requires Reportable(magnets) && multiset(ps) == multiset(Pairs(magnets)) && Recorded(rs, ps)
    requires k < |magnets| && r < |rs| && rs[r].number == magnets[k].number
    ensures Same(rs[r], magnets[k])
  {
    var m := magnets[k];
    ListedFrom(magnets, ps);
    assert OnlyMagnet(ps, m);
    assert Counted(ps, rs[r].number, rs[r].count);
    assert rs[r].count == m.count;
    forall a
      ensures AreasFor(ps, m.number)[a] == multiset(m.areas)[UNLABELED := 0][a]
    {
      CountAreas(ps, m, a);
      CountPairs(magnets, k, a);
    }
    assert AreasFor(ps, m.number) == multiset(m.areas)[UNLABELED := 0];
  }

  lemma {:induction false} EveryMagnetListed(magnets: seq<Magnet>, ps: seq<Pair>, k: nat)
    requires Reportable(magnets) && multiset(ps) == multiset(Pairs(magnets)) && k < |magnets|
    ensures exists i :: 0 <= i < |ps| && ps[i].1 == magnets[k]
  {
    var a := magnets[k].areas[0];
    CountPairs(magnets, k, a);
    assert multiset(magnets[k].areas)[a] > 0;
    assert (a, magnets[k]) in multiset(ps);
  }

  lemma {:induction false} EveryMagnetRecorded(magnets: seq<Magnet>, ps: seq<Pair>, rs: seq<Record>, k: nat)
    requires Reportable(magnets) && multiset(ps) == multiset(Pairs(magnets)) && Recorded(rs, ps) && k < |magnets|
    ensures HasSame(rs, magnets[k])
  {
    EveryMagnetListed(magnets, ps, k);
    var i :| 0 <= i < |ps| && ps[i].1 == magnets[k];
    assert Numbered(rs, ps[i].1.number);
    var r :| 0 <= r < |rs| && rs[r].number == magnets[k].number;
    RecordMatches(magnets, ps, rs, k, r);
  }

  function MagnetNumbers(magnets: seq<Magnet>): seq<int> {
    seq(|magnets|, i requires 0 <= i < |magnets| => magnets[i].number)
  }

  function RecordNumbers(rs: seq<Record>): seq<int> {
    seq(|rs|, i requires 0 <= i < |rs| => rs[i].number)
  }

  lemma {:induction false} DistinctSize(xs: seq<int>)
    requires forall i, j | 0 <= i < j < |xs| :: xs[i] != xs[j]
    ensures |set x | x in xs| == |xs|
  {
    if xs != [] {
      DistinctSize(Init(xs));
      assert (set x | x in xs) == (set x | x in Init(xs)) + {Last(xs)};
    }
  }

  lemma {:induction false} NumberOfMagnet(magnets: seq<Magnet>, ps: seq<Pair>, rs: seq<Record>, x: int)
    requires Reportable(magnets) && multiset(ps) == multiset(Pairs(magnets)) && Recorded(rs, ps)
    requires x in MagnetNumbers(magnets)
    ensures x in RecordNumbers(rs)
  {
    var k :| 0 <= k < |magnets| && MagnetNumbers(magnets)[k] == x;
    EveryMagnetRecorded(magnets, ps, rs, k);
    var r :| 0 <= r < |rs| && Same(rs[r], magnets[k]);
    assert RecordNumbers(rs)[r] == x;
  }

  lemma {:induction false} NumberOfRecord(magnets: seq<Magnet>, ps: seq<Pair>, rs: seq<Record>, x: int)
    requires multiset(ps) == multiset(Pairs(magnets)) && Recorded(rs, ps)
    requires x in RecordNumbers(rs)
    ensures x in MagnetNumbers(magnets)
  {
    var r :| 0 <= r < |rs| && RecordNumbers(rs)[r] == x;
    ListedFrom(magnets, ps);
    assert Counted(ps, rs[r].number, rs[r].count);
    var i :| 0 <= i < |ps| && ps[i].1.number == x;
    var k :| 0 <= k < |magnets| && magnets[k] == ps[i].1;
    assert MagnetNumbers(magnets)[k] == x;
  }

  lemma {:induction false} SameSize(xs: seq<int>, ys: seq<int>)
    requires forall i, j | 0 <= i < j < |xs| :: xs[i] != xs[j]
    requires forall i, j | 0 <= i < j < |ys| :: ys[i] != ys[j]
    requires forall x :: x in xs <==> x in ys
    ensures |xs| == |ys|
  {
    DistinctSize(xs);
    DistinctSize(ys);
    assert (set x | x in xs) == (set x | x in ys);
  }

  lemma {:induction false} AsManyRecords(magnets: seq<Magnet>, ps: seq<Pair>, rs: seq<Record>)
    requires Reportable(magnets) && multiset(ps) == multiset(Pairs(magnets)) && Recorded(rs, ps)
    ensures |rs| == |magnets|
  {
    var ms, ns := MagnetNumbers(magnets), RecordNumbers(rs);
    forall x
      ensures x in ms <==> x in ns
    {
      if x in ms {
        NumberOfMagnet(magnets, ps, rs, x);
      }
      if x in ns {
        NumberOfRecord(magnets, ps, rs, x);
      }
    }
    SameSize(ms, ns);
  }

  lemma {:induction false} SortedStill(rs: seq<Record>, out: seq<Record>, m: Magnet)
    requires multiset(out) == multiset(rs) && HasSame(rs, m)
    ensures HasSame(out, m)
  {
    var k :| 0 <= k < |rs| && Same(rs[k], m);
    assert rs[k] in multiset(out);
  }

  /**
    Parsing the printed report gives one record for each magnet, with its count and
    its areas ("(unlabeled)" counting as none), the most duplicated first.
   */
  lemma {:induction false} ReportRoundTrip(magnets: seq<Magnet>)
    requires Reportable(magnets)
    ensures
      var out := ParseReport(Body(magnets));
      && |out| == |magnets|
      && (forall k | 0 <= k < |magnets| :: HasSame(out, magnets[k]))
      && Descending(out, RecordCount)
  {
    var pairs := Pairs(magnets);
    var areas := AreasByTotal(pairs);
    var ps := Listed(pairs, areas);
    PairsFrom(magnets);
    GoodAreas(magnets);
    IntroSingleLine();
    ReportScans(INTRO, pairs, areas);
    ListedIsPermutation(pairs);
    AllRecorded(ps);
    var rs := NoteAll([], ps);
    SortDescSorts(rs, RecordCount);
    var out := SortDesc(rs, RecordCount);
    AsManyRecords(magnets, ps, rs);
    assert |multiset(out)| == |multiset(rs)|;
    forall k | 0 <= k < |magnets|
      ensures HasSame(out, magnets[k])
    {
      EveryMagnetRecorded(magnets, ps, rs, k);
      SortedStill(rs, out, magnets[k]);
    }
  }

  lemma {:induction false} AreaIsGood(magnets: seq<Magnet>, area: string)
    requires Reportable(magnets) && area in Areas(Pairs(magnets))
    ensures GoodArea(area)
  {
    var pairs := Pairs(magnets);
    PairsFrom(magnets);
    AreasOnce(pairs);
    var j :| 0 <= j < |pairs| && pairs[j].0 == area;
    var k :| 0 <= k < |magnets| && magnets[k] == pairs[j].1;
    var l :| 0 <= l < |magnets[k].areas| && magnets[k].areas[l] == area;
  }

  lemma {:induction false} GoodAreas(magnets: seq<Magnet>)
    requires Reportable(magnets)
    ensures forall i | 0 <= i < |Pairs(magnets)| :: Canonical(Pairs(magnets)[i].1)
    ensures forall i | 0 <= i < |AreasByTotal(Pairs(magnets))| :: GoodArea(AreasByTotal(Pairs(magnets))[i])
  {
    var pairs := Pairs(magnets);
    PairsFrom(magnets);
    SortDescSorts(Areas(pairs), a => Total(pairs, a));
    var areas := AreasByTotal(pairs);
    forall i | 0 <= i < |areas|
      ensures GoodArea(areas[i])
    {
      assert areas[i] in multiset(Areas(pairs));
      AreaIsGood(magnets, areas[i]);
    }
  }
}
