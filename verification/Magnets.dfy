/**
  The report of issues that attract duplicates: one script writes it, another
  parses it, and parsing what was written gives the magnets back.
 */
module Magnets {
  import opened Prelude
  import opened Decimals
  import opened PyStrings

  datatype Magnet = Magnet(number: nat, url: string, areas: seq<string>, count: nat)

  datatype Record = Record(number: int, areas: seq<string>, count: int)

  type Pair = (string, Magnet)

  const UNLABELED := "(unlabeled)"

  const BASE := "https://github.com/zed-industries/zed"

  const MARK := "/issues/"

  // ----- Sorting -----

  /** Largest key first; equal keys stay in order (`sorted(..., reverse=True)`). */
  function SortDesc<T>(xs: seq<T>, key: T -> int): seq<T> {
    if xs == [] then [] else Place(xs[0], SortDesc(xs[1..], key), key)
  }

  function Place<T>(x: T, ys: seq<T>, key: T -> int): seq<T> {
    if ys == [] || key(ys[0]) <= key(x) then [x] + ys else [ys[0]] + Place(x, ys[1..], key)
  }

  predicate Descending<T>(xs: seq<T>, key: T -> int) {
    forall i, j | 0 <= i < j < |xs| :: key(xs[j]) <= key(xs[i])
  }

  lemma {:induction false} PlacePermutes<T>(x: T, ys: seq<T>, key: T -> int)
    ensures multiset(Place(x, ys, key)) == multiset{x} + multiset(ys)
  {
    if ys == [] || key(ys[0]) <= key(x) {
      assert multiset([x] + ys) == multiset{x} + multiset(ys);
    } else {
      PlacePermutes(x, ys[1..], key);
      assert ys == [ys[0]] + ys[1..];
    }
  }

  lemma {:induction false} PlaceSorts<T>(x: T, ys: seq<T>, key: T -> int)
    requires Descending(ys, key)
    ensures Descending(Place(x, ys, key), key)
  {
    if !(ys == [] || key(ys[0]) <= key(x)) {
      var t := Place(x, ys[1..], key);
      PlaceSorts(x, ys[1..], key);
      PlacePermutes(x, ys[1..], key);
      forall j | 0 <= j < |t|
        ensures key(t[j]) <= key(ys[0])
      {
        assert t[j] in multiset(t);
        assert t[j] == x || t[j] in ys[1..];
      }
    }
  }

  lemma {:induction false} SortDescSorts<T>(xs: seq<T>, key: T -> int)
    ensures Descending(SortDesc(xs, key), key) && multiset(SortDesc(xs, key)) == multiset(xs)
  {
    if xs != [] {
      SortDescSorts(xs[1..], key);
      PlaceSorts(xs[0], SortDesc(xs[1..], key), key);
      PlacePermutes(xs[0], SortDesc(xs[1..], key), key);
      assert xs == [xs[0]] + xs[1..];
    }
  }

  function CountOf(m: Magnet): int {
    m.count
  }

  function RecordCount(r: Record): int {
    r.count
  }

  // ----- The writer -----

  function Tag(areas: seq<string>, m: Magnet): seq<Pair> {
    seq(|areas|, i requires 0 <= i < |areas| => (areas[i], m))
  }

  /** Every area of every magnet, in the order the writer meets them. */
  function Pairs(magnets: seq<Magnet>): seq<Pair> {
    if magnets == [] then [] else Pairs(Init(magnets)) + Tag(Last(magnets).areas, Last(magnets))
  }

  /** `by_area[area]` */
  function Under(pairs: seq<Pair>, area: string): seq<Magnet> {
    if pairs == [] then []
    else Under(Init(pairs), area) + if Last(pairs).0 == area then [Last(pairs).1] else []
  }

  /** `area_totals[area]` */
  function Total(pairs: seq<Pair>, area: string): nat {
    if pairs == [] then 0
    else Total(Init(pairs), area) + if Last(pairs).0 == area then Last(pairs).1.count else 0
  }

  /** The areas, in the order they first occur. */
  function Areas(pairs: seq<Pair>): seq<string> {
    if pairs == [] then []
    else
      var as0 := Areas(Init(pairs));
      if Last(pairs).0 in as0 then as0 else as0 + [Last(pairs).0]
  }

  function AreasByTotal(pairs: seq<Pair>): seq<string> {
    SortDesc(Areas(pairs), a => Total(pairs, a))
  }

  function Issues(pairs: seq<Pair>, area: string): seq<Magnet> {
    SortDesc(Under(pairs, area), CountOf)
  }

  /** `{count:2d}` */
  function Pad(count: nat): string {
    if count < 10 then " " + Print(count) else Print(count)
  }

  function Item(m: Magnet): string {
    "-   [" + Pad(m.count) + " dupes] " + m.url
  }

  function Items(ms: seq<Magnet>): seq<string> {
    seq(|ms|, i requires 0 <= i < |ms| => Item(ms[i]))
  }

  function Section(pairs: seq<Pair>, area: string): seq<string> {
    ["", "## " + area, ""] + Items(Issues(pairs, area))
  }

  function Sections(pairs: seq<Pair>, areas: seq<string>): seq<string> {
    if areas == [] then [] else Section(pairs, areas[0]) + Sections(pairs, areas[1..])
  }

  const INTRO :=
    "These are the issues that are " + "frequently re-reported. " + "The list is generated "
    + "regularly by running a script."

  function Body(magnets: seq<Magnet>): string {
    var pairs := Pairs(magnets);
    Join([INTRO] + Sections(pairs, AreasByTotal(pairs)), '\n')
  }

  // ----- The parser -----

  datatype Scan = Scan(area: Option<string>, records: seq<Record>)

  function IndexOf(rs: seq<Record>, number: int): (r: Option<nat>)
    ensures r.Some? ==> r.value < |rs| && rs[r.value].number == number
    ensures r.None? ==> forall i | 0 <= i < |rs| :: rs[i].number != number
  {
    if rs == [] then None
    else if Last(rs).number == number then Some(|rs| - 1)
    else IndexOf(Init(rs), number)
  }

  /** Records are kept in the order their numbers were first seen. */
  function Note(rs: seq<Record>, area: string, number: int, count: int): seq<Record> {
    var named := if area == UNLABELED then [] else [area];
    match IndexOf(rs, number)
    case None => rs + [Record(number, named, count)]
    case Some(i) => rs[i := rs[i].(areas := rs[i].areas + named)]
  }

  function ItemCount(line: string): Option<int> {
    var piece := SecondPiece(line, "[");
    if piece.None? || FirstToken(piece.value).None? then None else Int(FirstToken(piece.value).value)
  }

  function ItemNumber(line: string): Option<int> {
    var piece := SecondPiece(line, MARK);
    if piece.None? || FirstToken(piece.value).None? then None
    else Int(RStrip(FirstToken(piece.value).value, ')'))
  }

  function ScanLine(s: Scan, line: string): Scan {
    if "## " <= line then s.(area := Some(Strip(line[3..])))
    else if s.area.None? || s.area.value == [] || !("-" <= line) || Find(line, MARK).None? then s
    else
      var count, number := ItemCount(line), ItemNumber(line);
      if count.None? || number.None? then s
      else s.(records := Note(s.records, s.area.value, number.value, count.value))
  }

  function ScanLines(s: Scan, lines: seq<string>): Scan
    decreases |lines|
  {
    if lines == [] then s else ScanLines(ScanLine(s, lines[0]), lines[1..])
  }

  function ParseReport(body: string): seq<Record> {
    SortDesc(ScanLines(Scan(None, []), Split(body, '\n')).records, RecordCount)
  }

  method ParseDuplicateMagnets(body: string) returns (magnets: seq<Record>)
    ensures magnets == ParseReport(body)
  {
    var lines := Split(body, '\n');
    var s := Scan(None, []);
    var i := 0;
    while i < |lines|
      invariant i <= |lines| && ScanLines(s, lines[i..]) == ScanLines(Scan(None, []), lines)
    {
      assert lines[i..][0] == lines[i] && lines[i..][1..] == lines[i + 1..];
      s := ScanLine(s, lines[i]);
      i := i + 1;
    }
    return SortDesc(s.records, RecordCount);
  }

  // ----- The writer as it runs -----

  datatype Groups = Groups(byArea: map<string, seq<Magnet>>, totals: map<string, nat>, order: seq<string>)

  /** The dictionaries hold exactly what the pairs so far call for. */
  ghost predicate Tracks(g: Groups, pairs: seq<Pair>) {
    && g.order == Areas(pairs)
    && g.byArea.Keys == g.totals.Keys && (forall a :: a in g.byArea <==> a in g.order)
    && (forall a | a in g.byArea :: g.byArea[a] == Under(pairs, a) && g.totals[a] == Total(pairs, a))
  }

  lemma {:induction false} UnknownArea(pairs: seq<Pair>, area: string)
    requires area !in Areas(pairs)
    ensures Under(pairs, area) == [] && Total(pairs, area) == 0
  {
    if pairs != [] {
      UnknownArea(Init(pairs), area);
    }
  }

  method Add(g: Groups, area: string, m: Magnet, ghost pairs: seq<Pair>) returns (h: Groups)
    requires Tracks(g, pairs)
    ensures Tracks(h, pairs + [(area, m)])
  {
    ghost var more := pairs + [(area, m)];
    assert Init(more) == pairs && Last(more) == (area, m);
    h := g;
    if area !in h.byArea {
      UnknownArea(pairs, area);
      h := Groups(h.byArea[area := []], h.totals[area := 0], h.order + [area]);
    }
    assert h.byArea[area] == Under(pairs, area) && h.totals[area] == Total(pairs, area);
    h := h.(byArea := h.byArea[area := h.byArea[area] + [m]], totals := h.totals[area := h.totals[area] + m.count]);
  }

  method AddAreas(g: Groups, m: Magnet, ghost pairs: seq<Pair>) returns (h: Groups)
    requires Tracks(g, pairs)
    ensures Tracks(h, pairs + Tag(m.areas, m))
  {
    h := g;
    var j := 0;
    assert pairs + Tag(m.areas[..0], m) == pairs;
    while j < |m.areas|
      invariant j <= |m.areas| && Tracks(h, pairs + Tag(m.areas[..j], m))
    {
      h := Add(h, m.areas[j], m, pairs + Tag(m.areas[..j], m));
      assert pairs + Tag(m.areas[..j], m) + [(m.areas[j], m)] == pairs + Tag(m.areas[..j + 1], m);
      j := j + 1;
    }
    assert m.areas[..j] == m.areas;
  }

  method Group(magnets: seq<Magnet>) returns (g: Groups)
    ensures Tracks(g, Pairs(magnets))
  {
    g := Groups(map[], map[], []);
    var i := 0;
    while i < |magnets|
      invariant i <= |magnets| && Tracks(g, Pairs(magnets[..i]))
    {
      assert Init(magnets[..i + 1]) == magnets[..i] && Last(magnets[..i + 1]) == magnets[i];
      g := AddAreas(g, magnets[i], Pairs(magnets[..i]));
      i := i + 1;
    }
    assert magnets[..i] == magnets;
  }

  lemma {:induction false} PlaceAgrees<T>(x: T, ys: seq<T>, k: T -> int, l: T -> int)
    requires k(x) == l(x) && forall y | y in ys :: k(y) == l(y)
    ensures Place(x, ys, k) == Place(x, ys, l)
  {
    if ys != [] {
      PlaceAgrees(x, ys[1..], k, l);
    }
  }

  lemma {:induction false} SortAgrees<T>(xs: seq<T>, k: T -> int, l: T -> int)
    requires forall x | x in xs :: k(x) == l(x)
    ensures SortDesc(xs, k) == SortDesc(xs, l)
  {
    if xs != [] {
      SortAgrees(xs[1..], k, l);
      SortDescSorts(xs[1..], k);
      forall y | y in SortDesc(xs[1..], k)
        ensures k(y) == l(y)
      {
        assert y in multiset(xs[1..]);
      }
      PlaceAgrees(xs[0], SortDesc(xs[1..], k), k, l);
    }
  }

  method WriteSection(area: string, issues: seq<Magnet>) returns (lines: seq<string>)
    ensures lines == ["", "## " + area, ""] + Items(issues)
  {
    lines := ["", "## " + area, ""];
    var j := 0;
    while j < |issues|
      invariant j <= |issues| && lines == ["", "## " + area, ""] + Items(issues[..j])
    {
      assert Items(issues[..j + 1]) == Items(issues[..j]) + [Item(issues[j])];
      lines := lines + [Item(issues[j])];
      j := j + 1;
    }
    assert issues[..j] == issues;
  }

  /** `area_totals.most_common()` */
  method MostCommon(g: Groups, ghost pairs: seq<Pair>) returns (areas: seq<string>)
    requires Tracks(g, pairs)
    ensures areas == AreasByTotal(pairs) && forall i | 0 <= i < |areas| :: areas[i] in g.byArea
  {
    var total := a => if a in g.totals then g.totals[a] else 0;
    SortAgrees(g.order, total, a => Total(pairs, a));
    areas := SortDesc(g.order, total);
    SortDescSorts(g.order, total);
    assert forall i | 0 <= i < |areas| :: areas[i] in multiset(g.order);
  }

  method BuildMarkdownBody(magnets: seq<Magnet>) returns (body: string)
    ensures body == Body(magnets)
  {
    var g := Group(magnets);
    ghost var pairs := Pairs(magnets);
    var areas := MostCommon(g, pairs);
    var lines := [INTRO];
    var i := 0;
    while i < |areas|
      invariant i <= |areas| && lines + Sections(pairs, areas[i..]) == [INTRO] + Sections(pairs, areas)
    {
      assert areas[i..][0] == areas[i] && areas[i..][1..] == areas[i + 1..];
      var section := WriteSection(areas[i], SortDesc(g.byArea[areas[i]], CountOf));
      assert lines + (section + Sections(pairs, areas[i + 1..])) == lines + section + Sections(pairs, areas[i + 1..]);
      lines := lines + section;
      i := i + 1;
    }
    assert lines + [] == lines;
    body := Join(lines, '\n');
  }
}
