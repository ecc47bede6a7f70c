/**
  The bits of a vendor section read off the set of ids alone: which form is written, what each
  bit of it is, and which bit strings a decoder accepts.
 */
module TcfLayout {
  import opened Prelude
  import opened TcfBits
  import opened TcfVendors
  import opened TcfRoundTrip

  // ----- Numbers -----

  /** A number in binary, most significant bit first. */
  function Word(n: nat, width: nat): (w: Bits)
    ensures |w| == width
  {
    if width == 0 then [] else Word(n / 2, width - 1) + [n % 2 == 1]
  }

  lemma {:induction false} WordValue(n: nat, width: nat)
    requires n < Pow2(width)
    ensures Value(Word(n, width)) == n
  {
    if width > 0 {
      WordValue(n / 2, width - 1);
      assert Init(Word(n, width)) == Word(n / 2, width - 1);
    }
  }

  lemma {:induction false} IntIsWord(n: nat, width: nat)
    requires width > 0
    ensures EncodeInt(n, width) == if n < Pow2(width) then Ok(Word(n, width)) else Err
  {
    IntRoundTrip(n, width);
    if n < Pow2(width) {
      WordValue(n, width);
      ValueInjective(EncodeInt(n, width).value, Word(n, width));
    }
  }

  const UPPER := "ABCDEFGHIJKLMNOPQRSTUVWXYZ"
  const LOWER := "abcdefghijklmnopqrstuvwxyz"
  const DIGITS := "0123456789"
  const ALPHABET := UPPER + LOWER + DIGITS + "-_"

  lemma UpperLetters(v: nat)
    requires v < 26
    ensures |UPPER| == 26 && UPPER[v] as int == 'A' as int + v
  {
  }

  lemma LowerLetters(v: nat)
    requires v < 26
    ensures |LOWER| == 26 && LOWER[v] as int == 'a' as int + v
  {
  }

  lemma DigitLetters(v: nat)
    requires v < 10
    ensures |DIGITS| == 10 && DIGITS[v] as int == '0' as int + v
  {
  }

  /** The letters are those of section 5 of RFC 4648. */
  lemma {:induction false} LettersOfTheStandard(v: nat)
    requires v < 64
    ensures |ALPHABET| == 64 && Letter(v) == ALPHABET[v]
  {
    UpperLetters(if v < 26 then v else 0);
    LowerLetters(if 26 <= v < 52 then v - 26 else 0);
    DigitLetters(if 52 <= v < 62 then v - 52 else 0);
  }

  // ----- The runs of a set -----

  /** The first id of the run that ends at `n`. */
  function RunStart(ids: set<nat>, n: nat): (s: nat)
    ensures s <= n && (s == 0 || s - 1 !in ids)
    ensures forall x | s <= x < n :: x in ids
  {
    if n > 0 && n - 1 in ids then RunStart(ids, n - 1) else n
  }

  predicate EndsRun(ids: set<nat>, n: nat) {
    n in ids && n + 1 !in ids
  }

  predicate Follows(ids: set<nat>, n: nat) {
    n > 0 && n - 1 in ids
  }

  /** The maximal runs of ids that end at `n` or before, in ascending order. */
  function Runs(ids: set<nat>, n: nat): seq<Entry> {
    if n == 0 then []
    else
      Runs(ids, n - 1) +
      if !EndsRun(ids, n) then [] else if Follows(ids, n) then [Span(RunStart(ids, n), n)] else [Single(n)]
  }

  /** How many ids up to `n` have no neighbour. */
  function Lone(ids: set<nat>, n: nat): nat {
    if n == 0 then 0 else Lone(ids, n - 1) + if EndsRun(ids, n) && !Follows(ids, n) then 1 else 0
  }

  /** How many runs of two ids or more end at `n` or before. */
  function Ends(ids: set<nat>, n: nat): nat {
    if n == 0 then 0 else Ends(ids, n - 1) + if EndsRun(ids, n) && Follows(ids, n) then 1 else 0
  }

  lemma {:induction false} RunsCount(ids: set<nat>, n: nat)
    ensures |Runs(ids, n)| == Lone(ids, n) + Ends(ids, n)
  {
    if n > 0 {
      RunsCount(ids, n - 1);
    }
  }

  // ----- What the scan counts -----

  /** Sixteen bits for a lone id, 33 for a run, of which 17 as soon as it has begun. */
  function Cost(ids: set<nat>, n: nat): nat {
    16 * Lone(ids, n) + 33 * Ends(ids, n) + if n in ids && n + 1 in ids then 17 else 0
  }

  lemma {:induction false} CostStep(ids: set<nat>, n: nat)
    requires n > 0 && 0 !in ids
    ensures
      Cost(ids, n) - Cost(ids, n - 1)
      == if n !in ids then 0 else if n + 1 !in ids then 16 else if n - 1 in ids then 0 else 17
  {
  }

  lemma {:induction false} CostGrows(ids: set<nat>, m: nat, n: nat)
    requires m <= n && 0 !in ids
    ensures Cost(ids, m) <= Cost(ids, n)
    decreases n - m
  {
    if m < n {
      CostGrows(ids, m, n - 1);
      CostStep(ids, n);
    }
  }

  /** As long as ranges are preferred, the scan has the runs and their cost. */
  lemma {:induction false} ScanRuns(ids: set<nat>, maxId: nat, n: nat)
    requires Proper(ids, maxId)
    ensures
      var s := Scan(ids, maxId, n);
      s.ranging || n == 0 ==>
        && s.entries == Runs(ids, n) && s.size == 29 + Cost(ids, n)
        && s.open == if n in ids && n + 1 in ids then Some(RunStart(ids, n)) else None
  {
    if n > 0 {
      ScanRuns(ids, maxId, n - 1);
      ScanComplete(ids, maxId, n - 1);
      SizeGrows(ids, maxId, Scan(ids, maxId, n - 1), n);
      CostStep(ids, n);
    }
  }

  /** Once they are not, the cost has gone beyond the field. */
  lemma {:induction false} ScanGaveUp(ids: set<nat>, maxId: nat, n: nat)
    requires Proper(ids, maxId) && n > 0 && !Scan(ids, maxId, n).ranging && maxId > 45
    ensures 17 + maxId <= 29 + Cost(ids, n - 1)
  {
    var s := Scan(ids, maxId, n - 1);
    SizeGrows(ids, maxId, s, n);
    if s.ranging || n == 1 {
      ScanRuns(ids, maxId, n - 1);
    } else {
      ScanGaveUp(ids, maxId, n - 1);
      CostGrows(ids, n - 2, n - 1);
    }
  }

  // ----- What is written -----

  /**
    The list of ranges is written when the ids go beyond 45 and what precedes the largest id
    costs less than the field: 16 bits per lone id, 33 per run, 17 for the run of the largest.
   */
  predicate Ranged(ids: set<nat>, maxId: nat) {
    && maxId > 45
    && 29 + 16 * Lone(ids, maxId - 1) + 33 * Ends(ids, maxId - 1) + (if maxId - 1 in ids then 17 else 0) < 17 + maxId
  }

  lemma {:induction false} FormChosen(ids: set<nat>, maxId: nat)
    requires Proper(ids, maxId)
    ensures Scan(ids, maxId, maxId).ranging <==> Ranged(ids, maxId)
    ensures Ranged(ids, maxId) ==> Scan(ids, maxId, maxId).entries == Runs(ids, maxId)
  {
    if maxId > 0 {
      var s := Scan(ids, maxId, maxId - 1);
      SizeGrows(ids, maxId, s, maxId);
      ScanRuns(ids, maxId, maxId - 1);
      ScanRuns(ids, maxId, maxId);
      if maxId > 45 && !s.ranging {
        ScanGaveUp(ids, maxId, maxId - 1);
        CostGrows(ids, maxId - 2, maxId - 1);
      }
    }
  }

  function EntryWord(e: Entry): Bits {
    match e
    case Single(id) => [false] + Word(id, ID_BITS)
    case Span(first, last) => [true] + Word(first, ID_BITS) + Word(last, ID_BITS)
  }

  function EntryWords(es: seq<Entry>): Bits {
    if es == [] then [] else EntryWord(es[0]) + EntryWords(es[1..])
  }

  function Field(ids: set<nat>, n: nat): Bits {
    seq(n, k => k + 1 in ids)
  }

  function Written(ids: set<nat>, maxId: nat): Bits {
    Word(maxId, ID_BITS) +
    if Ranged(ids, maxId) then
      [true] + (Word(Lone(ids, maxId) + Ends(ids, maxId), COUNT_BITS) + EntryWords(Runs(ids, maxId)))
    else [false] + Field(ids, maxId)
  }

  lemma {:induction false} EntryIsWord(e: Entry)
    ensures EntryBits(e).Ok? ==> EntryBits(e).value == EntryWord(e)
  {
    match e
    case Single(id) => IntIsWord(id, ID_BITS);
    case Span(first, last) => IntIsWord(first, ID_BITS); IntIsWord(last, ID_BITS);
  }

  lemma {:induction false} EntriesAreWords(es: seq<Entry>)
    ensures EntriesBits(es).Ok? ==> EntriesBits(es).value == EntryWords(es)
  {
    if es != [] {
      EntryIsWord(es[0]);
      EntriesAreWords(es[1..]);
    }
  }

  /** Whatever is encoded is written from the set as the format says, in the form chosen. */
  lemma {:induction false} EncodingFromSet(ids: set<nat>, maxId: nat)
    requires Proper(ids, maxId) && Encode(ids, maxId).Ok?
    ensures Encode(ids, maxId).value == Written(ids, maxId)
  {
    FormChosen(ids, maxId);
    IntIsWord(maxId, ID_BITS);
    if Ranged(ids, maxId) {
      RunsCount(ids, maxId);
      IntIsWord(|Runs(ids, maxId)|, COUNT_BITS);
      EntriesAreWords(Runs(ids, maxId));
    } else {
      FieldBits(ids, maxId, maxId);
      assert Scan(ids, maxId, maxId).bits == Field(ids, maxId);
    }
  }

  lemma {:induction false} RunsLength(ids: set<nat>, n: nat)
    ensures |EntryWords(Runs(ids, n))| == 17 * Lone(ids, n) + 33 * Ends(ids, n)
  {
    if n > 0 {
      RunsLength(ids, n - 1);
      if EndsRun(ids, n) {
        EntryWordsLast(Runs(ids, n - 1), Last(Runs(ids, n)));
        assert Runs(ids, n) == Runs(ids, n - 1) + [Last(Runs(ids, n))];
      } else {
        assert Runs(ids, n) == Runs(ids, n - 1);
      }
    }
  }

  lemma {:induction false} EntryWordsLast(es: seq<Entry>, e: Entry)
    ensures EntryWords(es + [e]) == EntryWords(es) + EntryWord(e)
  {
    if es == [] {
      assert es + [e] == [e] && [e][1..] == [];
    } else {
      assert (es + [e])[1..] == es[1..] + [e];
      EntryWordsLast(es[1..], e);
    }
  }

  /** The seventeenth bit says which form it is, and the form says how long it is. */
  lemma {:induction false} FormAndLength(ids: set<nat>, maxId: nat)
    requires Proper(ids, maxId) && Encode(ids, maxId).Ok?
    ensures
      var bits := Encode(ids, maxId).value;
      && 16 < |bits| && (bits[16] <==> Ranged(ids, maxId))
      && |bits| == if bits[16] then 29 + 17 * Lone(ids, maxId) + 33 * Ends(ids, maxId) else 17 + maxId
  {
    EncodingFromSet(ids, maxId);
    RunsLength(ids, maxId);
  }

  // ----- What is read -----

  /** The bits `w` stand at `at`. */
  predicate At(bs: Bits, at: nat, w: Bits) {
    at + |w| <= |bs| && bs[at..at + |w|] == w
  }

  lemma {:induction false} AtBoth(bs: Bits, at: nat, a: Bits, b: Bits)
    ensures At(bs, at, a + b) <==> At(bs, at, a) && At(bs, at + |a|, b)
  {
    if at + |a| + |b| <= |bs| {
      var w := bs[at..at + |a| + |b|];
      assert w[..|a|] == bs[at..at + |a|] && w[|a|..] == bs[at + |a|..at + |a| + |b|];
      assert (a + b)[..|a|] == a && (a + b)[|a|..] == b;
      assert w == w[..|a|] + w[|a|..];
    }
  }

  lemma {:induction false} AtBit(bs: Bits, at: nat, x: bool)
    ensures At(bs, at, [x]) <==> at < |bs| && bs[at] == x
    ensures Substr(bs, at, 1) == [true] <==> At(bs, at, [true])
  {
    if at < |bs| {
      assert bs[at..at + 1] == [bs[at]];
    }
  }

  lemma {:induction false} ReadsWord(bs: Bits, at: nat, width: nat, n: nat)
    requires width > 0
    ensures DecodeInt(Substr(bs, at, width), width) == Ok(n) <==> n < Pow2(width) && At(bs, at, Word(n, width))
  {
    var w := Substr(bs, at, width);
    if |w| == width {
      ValueBound(w);
      if n < Pow2(width) {
        WordValue(n, width);
        if Value(w) == n {
          ValueInjective(w, Word(n, width));
        }
      }
    }
  }

  lemma {:induction false} Powers()
    ensures Pow2(COUNT_BITS) == 4096 && Pow2(ID_BITS) == IDS
  {
    PowersOfTwo();
  }

  predicate Readable(e: Entry) {
    match e
    case Single(id) => 1 <= id < IDS
    case Span(first, last) => 1 <= first < IDS && last < IDS
  }

  predicate AllReadable(es: seq<Entry>) {
    forall i | 0 <= i < |es| :: Readable(es[i])
  }

  lemma {:induction false} SingleReads(bs: Bits, at: nat, id: nat)
    ensures ReadEntry(bs, at) == Ok(Single(id)) <==> Readable(Single(id)) && At(bs, at, EntryWord(Single(id)))
  {
    Powers();
    AtBoth(bs, at, [false], Word(id, ID_BITS));
    AtBit(bs, at, false);
    ReadsWord(bs, at + 1, ID_BITS, id);
  }

  lemma {:induction false} SpanReads(bs: Bits, at: nat, first: nat, last: nat)
    ensures
      ReadEntry(bs, at) == Ok(Span(first, last))
      <==> Readable(Span(first, last)) && At(bs, at, EntryWord(Span(first, last)))
  {
    Powers();
    AtBoth(bs, at, [true] + Word(first, ID_BITS), Word(last, ID_BITS));
    AtBoth(bs, at, [true], Word(first, ID_BITS));
    AtBit(bs, at, true);
    ReadsWord(bs, at + 1, ID_BITS, first);
    ReadsWord(bs, at + 17, ID_BITS, last);
  }

  lemma {:induction false} ReadsEntry(bs: Bits, at: nat, e: Entry)
    ensures ReadEntry(bs, at) == Ok(e) <==> Readable(e) && At(bs, at, EntryWord(e))
    ensures |EntryWord(e)| == Width(e)
  {
    match e
    case Single(id) => SingleReads(bs, at, id);
    case Span(first, last) => SpanReads(bs, at, first, last);
  }

  lemma {:induction false} FirstReadable(es: seq<Entry>)
    requires es != []
    ensures AllReadable(es) <==> Readable(es[0]) && AllReadable(es[1..])
  {
    assert forall i | 0 <= i < |es| - 1 :: es[1..][i] == es[i + 1];
    if Readable(es[0]) && AllReadable(es[1..]) {
      forall i | 0 <= i < |es|
        ensures Readable(es[i])
      {
        assert i > 0 ==> Readable(es[1..][i - 1]);
      }
    }
  }

  lemma {:induction false} ReadsEntries(bs: Bits, at: nat, es: seq<Entry>)
    requires at <= |bs|
    ensures EntriesAt(bs, at, es) <==> AllReadable(es) && At(bs, at, EntryWords(es))
    ensures |EntryWords(es)| == Widths(es)
    decreases |es|
  {
    if es != [] {
      var e, rest := es[0], es[1..];
      ReadsEntry(bs, at, e);
      FirstReadable(es);
      AtBoth(bs, at, EntryWord(e), EntryWords(rest));
      if at + Width(e) <= |bs| {
        ReadsEntries(bs, at + Width(e), rest);
      } else {
        ReadsEntries(bs, 0, rest);
      }
    }
  }

  lemma {:induction false} SomeEntries(bs: Bits, at: nat, n: nat, ids: set<nat>) returns (es: seq<Entry>)
    requires DecodeEntries(bs, at, n, ids).Ok?
    ensures |es| == n && EntriesAt(bs, at, es)
    decreases n
  {
    if n == 0 {
      es := [];
    } else {
      var e := ReadEntry(bs, at).value;
      var rest := SomeEntries(bs, at + Width(e), n - 1, ids + Ids(e));
      es := [e] + rest;
      assert es[1..] == rest;
    }
  }

  /** A list of entries stands at `at`, and `d` is what it says. */
  ghost predicate ListForm(bs: Bits, at: nat, es: seq<Entry>, d: Decoded) {
    && |es| < 4096 && AllReadable(es) && At(bs, at, Word(|es|, COUNT_BITS) + EntryWords(es))
    && d == Decoded(CoveredFrom(es), at + 12 + |EntryWords(es)|)
  }

  function ReadList(bs: Bits, at: nat): Result<Decoded> {
    var n := DecodeInt(Substr(bs, at, COUNT_BITS), COUNT_BITS);
    if n.Err? then Err else DecodeEntries(bs, at + 12, n.value, {})
  }

  lemma {:induction false} EntriesGive(bs: Bits, at: nat, es: seq<Entry>)
    requires EntriesAt(bs, at, es)
    ensures DecodeEntries(bs, at, |es|, {}) == Ok(Decoded(CoveredFrom(es), at + Widths(es)))
  {
    EntriesDecode(bs, at, es, {});
    assert {} + CoveredFrom(es) == CoveredFrom(es);
  }

  lemma {:induction false} ListStands(bs: Bits, at: nat, es: seq<Entry>)
    requires |es| < 4096 && AllReadable(es) && At(bs, at, Word(|es|, COUNT_BITS) + EntryWords(es))
    ensures DecodeInt(Substr(bs, at, COUNT_BITS), COUNT_BITS) == Ok(|es|)
    ensures EntriesAt(bs, at + 12, es) && |EntryWords(es)| == Widths(es)
  {
    Powers();
    AtBoth(bs, at, Word(|es|, COUNT_BITS), EntryWords(es));
    ReadsWord(bs, at, COUNT_BITS, |es|);
    ReadsEntries(bs, at + 12, es);
  }

  lemma {:induction false} ListReads(bs: Bits, at: nat, es: seq<Entry>, d: Decoded)
    requires ListForm(bs, at, es, d)
    ensures ReadList(bs, at) == Ok(d)
  {
    ListStands(bs, at, es);
    ListGives(bs, at, es);
  }

  lemma {:induction false} ListGives(bs: Bits, at: nat, es: seq<Entry>)
    requires DecodeInt(Substr(bs, at, COUNT_BITS), COUNT_BITS) == Ok(|es|) && EntriesAt(bs, at + 12, es)
    ensures ReadList(bs, at) == Ok(Decoded(CoveredFrom(es), at + 12 + Widths(es)))
  {
    EntriesGive(bs, at + 12, es);
  }

  lemma {:induction false} ListWasWritten(bs: Bits, at: nat, d: Decoded) returns (es: seq<Entry>)
    requires ReadList(bs, at) == Ok(d)
    ensures ListForm(bs, at, es, d)
  {
    Powers();
    var n := DecodeInt(Substr(bs, at, COUNT_BITS), COUNT_BITS).value;
    ReadsWord(bs, at, COUNT_BITS, n);
    es := SomeEntries(bs, at + 12, n, {});
    EntriesGive(bs, at + 12, es);
    ReadsEntries(bs, at + 12, es);
    AtBoth(bs, at, Word(|es|, COUNT_BITS), EntryWords(es));
  }

  // ----- What a decoder accepts -----

  /** A bit field: the number of ids, a zero, and a bit for each. */
  ghost predicate FieldForm(bs: Bits, d: Decoded) {
    var m := d.bitLength - 17;
    && 0 <= m < IDS && d.bitLength <= |bs| && At(bs, 0, Word(m, ID_BITS)) && !bs[16]
    && forall x: nat :: x in d.ids <==> 1 <= x <= m && bs[16 + x]
  }

  /** A list: any sixteen bits, a one, in version 1 a zero for the default, and the entries. */
  ghost predicate RangeForm(bs: Bits, version: nat, es: seq<Entry>, d: Decoded) {
    && 16 < |bs| && bs[16] && (version == 1 && 17 < |bs| ==> !bs[17])
    && ListForm(bs, if version == 1 then 18 else 17, es, d)
  }

  lemma {:induction false} HeadReads(bs: Bits)
    requires 16 < |bs|
    ensures DecodeInt(Substr(bs, 0, 16), 16).Ok? && DecodeInt(Substr(bs, 16, 1), 1) == Ok(if bs[16] then 1 else 0)
  {
    assert Substr(bs, 16, 1) == [bs[16]] && Init([bs[16]]) == [];
    assert Value([bs[16]]) == 2 * Value([]) + if bs[16] then 1 else 0;
  }

  lemma {:induction false} ListBranch(bs: Bits, version: nat)
    requires 16 < |bs| && bs[16]
    ensures
      Decode(bs, version)
      == if version == 1 && 17 < |bs| && bs[17] then Err else ReadList(bs, if version == 1 then 18 else 17)
  {
    HeadReads(bs);
    AtBit(bs, 17, true);
  }

  lemma {:induction false} WhatListDecodes(bs: Bits, version: nat, d: Decoded)
    requires 16 < |bs| && bs[16]
    ensures Decode(bs, version) == Ok(d) <==> exists es :: RangeForm(bs, version, es, d)
  {
    ListBranch(bs, version);
    var at := if version == 1 then 18 else 17;
    if Decode(bs, version) == Ok(d) {
      var es := ListWasWritten(bs, at, d);
      assert RangeForm(bs, version, es, d);
    }
    forall es | RangeForm(bs, version, es, d)
      ensures Decode(bs, version) == Ok(d)
    {
      ListReads(bs, at, es, d);
    }
  }

  lemma {:induction false} FieldBranch(bs: Bits, version: nat)
    requires 16 < |bs| && !bs[16]
    ensures
      var m := Value(bs[..16]);
      Decode(bs, version) == if |bs| < 17 + m then Err else Ok(Decoded(FieldIds(bs[17..17 + m]), 17 + m))
  {
    HeadReads(bs);
  }

  ghost predicate MembersOf(ids: set<nat>, bs: Bits, m: nat)
    requires 17 + m <= |bs|
  {
    forall x: nat :: x in ids <==> 1 <= x <= m && bs[16 + x]
  }

  lemma {:induction false} FieldMembers(bs: Bits, m: nat)
    requires 17 + m <= |bs|
    ensures MembersOf(FieldIds(bs[17..17 + m]), bs, m)
  {
    var field := bs[17..17 + m];
    forall x: nat
      ensures x in FieldIds(field) <==> 1 <= x <= m && bs[16 + x]
    {
      if 1 <= x <= m {
        assert field[x - 1] == bs[16 + x];
      }
    }
  }

  lemma {:induction false} SameMembers(a: set<nat>, b: set<nat>, bs: Bits, m: nat)
    requires 17 + m <= |bs| && MembersOf(a, bs, m) && MembersOf(b, bs, m)
    ensures a == b
  {
  }

  lemma {:induction false} WhatFieldDecodes(bs: Bits, version: nat, d: Decoded)
    requires 16 < |bs| && !bs[16]
    ensures Decode(bs, version) == Ok(d) <==> FieldForm(bs, d)
  {
    var m := Value(bs[..16]);
    Powers();
    FieldBranch(bs, version);
    assert bs[..16] == Substr(bs, 0, 16);
    ReadsWord(bs, 0, ID_BITS, m);
    if 17 + m <= |bs| {
      FieldMembers(bs, m);
    }
    if FieldForm(bs, d) {
      ReadsWord(bs, 0, ID_BITS, d.bitLength - 17);
      SameMembers(d.ids, FieldIds(bs[17..17 + m]), bs, m);
    }
  }

  /** A decoder accepts exactly a field or a list written in the format, whatever bits come after it. */
  lemma {:induction false} WhatDecodes(bs: Bits, version: nat, d: Decoded)
    ensures Decode(bs, version) == Ok(d) <==> FieldForm(bs, d) || exists es :: RangeForm(bs, version, es, d)
  {
    if |bs| <= 16 {
      assert |Substr(bs, 16, 1)| == 0;
    } else if bs[16] {
      WhatListDecodes(bs, version, d);
    } else {
      WhatFieldDecodes(bs, version, d);
    }
  }
}
