/** Decoding an encoded vendor section gives the vendors back, whichever form was chosen and whatever follows. */
module TcfRoundTrip {
  import opened Prelude
  import opened TcfBits
  import opened TcfVendors

  // ----- What the scan collects -----

  function Covered(es: seq<Entry>): set<nat> {
    if es == [] then {} else Covered(Init(es)) + Ids(Last(es))
  }

  function End(e: Entry): nat {
    if e.Single? then e.id else e.last
  }

  predicate Within(e: Entry, n: nat) {
    match e
    case Single(id) => 1 <= id <= n
    case Span(first, last) => 1 <= first <= last <= n
  }

  /** Ids up to `n` are in an entry, or in the run that is open and goes on. */
  ghost predicate Complete(ids: set<nat>, s: ScanState, n: nat) {
    && (forall i | 0 <= i < |s.entries| :: Within(s.entries[i], n) && End(s.entries[i]) + 1 !in ids)
    && (s.open.Some? <==> n > 0 && n in ids && n + 1 in ids)
    && (s.open.Some? ==> 1 <= s.open.value <= n)
    && (forall x: nat ::
          x in Covered(s.entries) || (s.open.Some? && Between(s.open.value, x, n)) <==> x in ids && x <= n)
  }

  lemma {:induction false} CoveredPush(es: seq<Entry>, e: Entry)
    ensures Covered(es + [e]) == Covered(es) + Ids(e)
  {
    assert Init(es + [e]) == es;
  }

  lemma {:induction false} ClosesComplete(ids: set<nat>, s: ScanState, t: ScanState, n: nat)
    requires Complete(ids, s, n) && n + 1 in ids && n + 2 !in ids
    requires t.open.None? && t.entries == s.entries + [Close(s.open, n + 1)]
    ensures Complete(ids, t, n + 1)
  {
    var e := Close(s.open, n + 1);
    CoveredPush(s.entries, e);
    forall x: nat
      ensures x in Covered(t.entries) <==> x in ids && x <= n + 1
    {
      assert x in Ids(e) <==> x == n + 1 || (s.open.Some? && Between(s.open.value, x, n));
    }
  }

  lemma {:induction false} KeepsComplete(ids: set<nat>, s: ScanState, t: ScanState, n: nat)
    requires Complete(ids, s, n) && t.entries == s.entries
    requires
      if n + 1 in ids then n + 2 in ids && t.open == (if s.open.Some? then s.open else Some(n + 1))
      else t.open == s.open
    ensures Complete(ids, t, n + 1)
  {
    forall x: nat
      ensures x in Covered(t.entries) || (t.open.Some? && Between(t.open.value, x, n + 1)) <==> x in ids && x <= n + 1
    {
      assert x in Covered(s.entries) || (s.open.Some? && Between(s.open.value, x, n)) <==> x in ids && x <= n;
    }
  }

  lemma {:induction false} StepComplete(ids: set<nat>, maxId: nat, s: ScanState, n: nat)
    requires Complete(ids, s, n) && Proper(ids, maxId) && Prefers(maxId, s.size)
    ensures Complete(ids, ScanId(ids, maxId, s, n + 1), n + 1)
  {
    var t := ScanId(ids, maxId, s, n + 1);
    if n + 1 in ids && n + 2 !in ids {
      ClosesComplete(ids, s, t, n);
    } else {
      KeepsComplete(ids, s, t, n);
    }
  }

  lemma {:induction false} SizeGrows(ids: set<nat>, maxId: nat, s: ScanState, id: nat)
    ensures var t := ScanId(ids, maxId, s, id); s.size <= t.size && t.ranging == Prefers(maxId, s.size)
  {
  }

  /** While ranges are preferred nothing is missed, and once they are not they never are again. */
  lemma {:induction false} ScanComplete(ids: set<nat>, maxId: nat, n: nat)
    requires Proper(ids, maxId)
    ensures var s := Scan(ids, maxId, n); Prefers(maxId, s.size) ==> s.ranging || n == 0
    ensures var s := Scan(ids, maxId, n); s.ranging || n == 0 ==> Complete(ids, s, n)
  {
    if n == 0 {
      StartComplete(ids, maxId);
    } else {
      ScanComplete(ids, maxId, n - 1);
      var s := Scan(ids, maxId, n - 1);
      SizeGrows(ids, maxId, s, n);
      if Prefers(maxId, s.size) {
        StepComplete(ids, maxId, s, n - 1);
      }
    }
  }

  lemma {:induction false} StartComplete(ids: set<nat>, maxId: nat)
    requires Proper(ids, maxId)
    ensures Complete(ids, START, 0)
  {
  }

  lemma {:induction false} FieldBits(ids: set<nat>, maxId: nat, n: nat)
    ensures var bits := Scan(ids, maxId, n).bits; |bits| == n && forall k | 0 <= k < n :: bits[k] == (k + 1 in ids)
  {
    if n > 0 {
      FieldBits(ids, maxId, n - 1);
    }
  }

  // ----- Reading it back -----

  lemma {:induction false} SubstrOf(a: Bits, b: Bits, c: Bits)
    ensures Substr(a + b + c, |a|, |b|) == b
  {
  }

  /** An id is written in sixteen bits and read back. */
  lemma {:induction false} IdFits(id: nat)
    requires id < IDS
    ensures EncodeInt(id, ID_BITS).Ok? && |EncodeInt(id, ID_BITS).value| == ID_BITS
    ensures DecodeInt(EncodeInt(id, ID_BITS).value, ID_BITS) == Ok(id)
  {
    assert Pow2(16) == IDS by { PowersOfTwo(); }
    IntRoundTrip(id, ID_BITS);
  }

  lemma PowersOfTwo()
    ensures Pow2(12) == 4096 && Pow2(16) == IDS
  {
    assert Pow2(4) == 16 by { assert Pow2(2) == 4; }
    assert Pow2(8) == 256 by { assert Pow2(6) == 64; }
    assert Pow2(12) == 4096 by { assert Pow2(10) == 1024; }
    assert Pow2(14) == 16384;
  }

  function Widths(es: seq<Entry>): nat {
    if es == [] then 0 else Width(es[0]) + Widths(es[1..])
  }

  function CoveredFrom(es: seq<Entry>): set<nat> {
    if es == [] then {} else Ids(es[0]) + CoveredFrom(es[1..])
  }

  lemma {:induction false} CoveredEitherWay(es: seq<Entry>)
    ensures CoveredFrom(es) == Covered(es)
  {
    if es != [] {
      if |es| == 1 {
        assert es[1..] == [] && Init(es) == [];
      } else {
        CoveredEitherWay(es[1..]);
        CoveredEitherWay(Init(es));
        CoveredEitherWay(Init(es[1..]));
        assert Init(es)[1..] == Init(es[1..]);
      }
    }
  }

  /** The bits from `at` on read as the entries. */
  predicate EntriesAt(bs: Bits, at: nat, es: seq<Entry>)
    decreases |es|
  {
    es == [] || (ReadEntry(bs, at) == Ok(es[0]) && EntriesAt(bs, at + Width(es[0]), es[1..]))
  }

  lemma {:induction false} SingleStays(pre: Bits, id: nat, post: Bits)
    requires 1 <= id < IDS
    ensures EntryBits(Single(id)).Ok? && |EntryBits(Single(id)).value| == 17
    ensures ReadEntry(pre + EntryBits(Single(id)).value + post, |pre|) == Ok(Single(id))
  {
    IdFits(id);
    var w := EncodeInt(id, ID_BITS).value;
    var bs := pre + EntryBits(Single(id)).value + post;
    assert bs == pre + [false] + (w + post) && bs == (pre + [false]) + w + post;
    SubstrOf(pre, [false], w + post);
    SubstrOf(pre + [false], w, post);
  }

  lemma {:induction false} SpanSlices(pre: Bits, v: Bits, w: Bits, post: Bits)
    requires |v| == |w| == ID_BITS
    ensures
      var bs := pre + ([true] + v + w) + post;
      && Substr(bs, |pre|, 1) == [true] && Substr(bs, |pre| + 1, ID_BITS) == v
      && Substr(bs, |pre| + 1 + ID_BITS, ID_BITS) == w
  {
    var bs := pre + ([true] + v + w) + post;
    assert bs == pre + [true] + (v + w + post);
    SubstrOf(pre, [true], v + w + post);
    assert bs == (pre + [true]) + v + (w + post);
    SubstrOf(pre + [true], v, w + post);
    assert bs == (pre + [true] + v) + w + post;
    SubstrOf(pre + [true] + v, w, post);
  }

  lemma {:induction false} SpanStays(pre: Bits, first: nat, last: nat, post: Bits)
    requires 1 <= first < IDS && last < IDS
    ensures EntryBits(Span(first, last)).Ok? && |EntryBits(Span(first, last)).value| == 33
    ensures ReadEntry(pre + EntryBits(Span(first, last)).value + post, |pre|) == Ok(Span(first, last))
  {
    IdFits(first);
    IdFits(last);
    SpanSlices(pre, EncodeInt(first, ID_BITS).value, EncodeInt(last, ID_BITS).value, post);
  }

  lemma {:induction false} EntryStays(pre: Bits, e: Entry, post: Bits)
    requires Within(e, IDS - 1)
    ensures EntryBits(e).Ok? && |EntryBits(e).value| == Width(e)
    ensures ReadEntry(pre + EntryBits(e).value + post, |pre|) == Ok(e)
  {
    match e
    case Single(id) => SingleStays(pre, id, post);
    case Span(first, last) => SpanStays(pre, first, last, post);
  }

  lemma Regroup(a: Bits, b: Bits, c: Bits, d: Bits)
    ensures a + (b + c) + d == a + b + (c + d)
    ensures a + (b + c) + d == (a + b) + c + d
  {
  }

  lemma {:induction false} EntriesFit(es: seq<Entry>)
    requires forall i | 0 <= i < |es| :: Within(es[i], IDS - 1)
    ensures EntriesBits(es).Ok? && |EntriesBits(es).value| == Widths(es)
  {
    if es != [] {
      EntryStays([], es[0], []);
      EntriesFit(es[1..]);
    }
  }

  /** Written entries stand where they were written. */
  lemma {:induction false} EntriesStay(pre: Bits, es: seq<Entry>, post: Bits)
    requires forall i | 0 <= i < |es| :: Within(es[i], IDS - 1)
    ensures EntriesBits(es).Ok?
    ensures EntriesAt(pre + EntriesBits(es).value + post, |pre|, es)
    decreases |es|
  {
    EntriesFit(es);
    if es != [] {
      EntriesFit(es[1..]);
      var b, c := EntryBits(es[0]).value, EntriesBits(es[1..]).value;
      Regroup(pre, b, c, post);
      EntryStays(pre, es[0], c + post);
      EntriesStay(pre + b, es[1..], post);
    }
  }

  /** Entries that stand in the bits are decoded. */
  lemma {:induction false} EntriesDecode(bs: Bits, at: nat, es: seq<Entry>, ids: set<nat>)
    requires EntriesAt(bs, at, es)
    ensures DecodeEntries(bs, at, |es|, ids) == Ok(Decoded(ids + CoveredFrom(es), at + Widths(es)))
    decreases |es|
  {
    if es == [] {
      assert ids + {} == ids;
    } else {
      EntriesDecode(bs, at + Width(es[0]), es[1..], ids + Ids(es[0]));
      assert ids + Ids(es[0]) + CoveredFrom(es[1..]) == ids + CoveredFrom(es);
    }
  }

  lemma {:induction false} EntriesRead(pre: Bits, es: seq<Entry>, post: Bits, ids: set<nat>)
    requires forall i | 0 <= i < |es| :: Within(es[i], IDS - 1)
    ensures EntriesBits(es).Ok?
    ensures DecodeEntries(pre + EntriesBits(es).value + post, |pre|, |es|, ids)
         == Ok(Decoded(ids + CoveredFrom(es), |pre| + |EntriesBits(es).value|))
  {
    EntriesFit(es);
    EntriesStay(pre, es, post);
    EntriesDecode(pre + EntriesBits(es).value + post, |pre|, es, ids);
  }

  // ----- The round trip -----

  lemma {:induction false} KindReads(maxId: nat, kind: bool, rest: Bits)
    requires maxId < IDS
    ensures EncodeInt(maxId, ID_BITS).Ok?
    ensures
      var bs := EncodeInt(maxId, ID_BITS).value + [kind] + rest;
      && DecodeInt(Substr(bs, 0, ID_BITS), ID_BITS) == Ok(maxId)
      && DecodeInt(Substr(bs, ID_BITS, 1), 1) == Ok(if kind then 1 else 0)
  {
    IdFits(maxId);
    var m := EncodeInt(maxId, ID_BITS).value;
    var bs := m + [kind] + rest;
    assert bs == [] + m + ([kind] + rest);
    SubstrOf([], m, [kind] + rest);
    SubstrOf(m, [kind], rest);
    assert Init([kind]) == [] && Value([kind]) == if kind then 1 else 0;
  }

  lemma {:induction false} FieldGivesBack(ids: set<nat>, maxId: nat, bits: Bits)
    requires Proper(ids, maxId) && |bits| == maxId && forall k | 0 <= k < maxId :: bits[k] == (k + 1 in ids)
    ensures FieldIds(bits) == ids
  {
    forall x: nat
      ensures x in FieldIds(bits) <==> x in ids
    {
      if x in ids {
        assert bits[x - 1];
      }
    }
  }

  lemma {:induction false} FieldReads(m: Bits, bits: Bits, post: Bits, maxId: nat)
    requires maxId < IDS && EncodeInt(maxId, ID_BITS) == Ok(m) && |m| == ID_BITS && |bits| == maxId
    ensures Decode(m + [false] + (bits + post), 2) == Ok(Decoded(FieldIds(bits), 17 + maxId))
  {
    KindReads(maxId, false, bits + post);
    assert m + [false] + (bits + post) == (m + [false]) + bits + post;
    SubstrOf(m + [false], bits, post);
  }

  lemma {:induction false} FieldWritten(ids: set<nat>, maxId: nat)
    requires maxId < IDS && !Scan(ids, maxId, maxId).ranging
    ensures EncodeInt(maxId, ID_BITS).Ok? && |EncodeInt(maxId, ID_BITS).value| == ID_BITS
    ensures Encode(ids, maxId) == Ok(EncodeInt(maxId, ID_BITS).value + ([false] + Scan(ids, maxId, maxId).bits))
  {
    IdFits(maxId);
  }

  lemma {:induction false} FieldShape(m: Bits, bits: Bits, post: Bits)
    ensures m + ([false] + bits) + post == m + [false] + (bits + post)
  {
  }

  lemma {:induction false} FieldRoundTrip(ids: set<nat>, maxId: nat, post: Bits)
    requires Proper(ids, maxId) && maxId < IDS && !Scan(ids, maxId, maxId).ranging
    ensures Encode(ids, maxId).Ok?
    ensures Decode(Encode(ids, maxId).value + post, 2) == Ok(Decoded(ids, |Encode(ids, maxId).value|))
  {
    var bits := Scan(ids, maxId, maxId).bits;
    FieldBits(ids, maxId, maxId);
    FieldGivesBack(ids, maxId, bits);
    FieldWritten(ids, maxId);
    var m := EncodeInt(maxId, ID_BITS).value;
    FieldShape(m, bits, post);
    FieldReads(m, bits, post, maxId);
  }

  lemma {:induction false} CountReads(head: Bits, n: nat, rest: Bits)
    requires n < 4096
    ensures EncodeInt(n, COUNT_BITS).Ok? && |EncodeInt(n, COUNT_BITS).value| == COUNT_BITS
    ensures DecodeInt(Substr(head + EncodeInt(n, COUNT_BITS).value + rest, |head|, COUNT_BITS), COUNT_BITS) == Ok(n)
  {
    PowersOfTwo();
    IntRoundTrip(n, COUNT_BITS);
    SubstrOf(head, EncodeInt(n, COUNT_BITS).value, rest);
  }

  /** The finished list holds exactly the ids. */
  lemma {:induction false} EntriesComplete(ids: set<nat>, maxId: nat)
    requires Proper(ids, maxId) && Scan(ids, maxId, maxId).ranging
    ensures
      var es := Scan(ids, maxId, maxId).entries;
      Covered(es) == ids && forall i | 0 <= i < |es| :: Within(es[i], maxId) && End(es[i]) + 1 !in ids
  {
    ScanComplete(ids, maxId, maxId);
    var s := Scan(ids, maxId, maxId);
    assert maxId + 1 !in ids;
    assert s.open.None?;
  }

  lemma {:induction false} RangeDecode(bs: Bits, maxId: nat, n: nat)
    requires DecodeInt(Substr(bs, 0, ID_BITS), ID_BITS) == Ok(maxId) && DecodeInt(Substr(bs, ID_BITS, 1), 1) == Ok(1)
    requires DecodeInt(Substr(bs, 17, COUNT_BITS), COUNT_BITS) == Ok(n)
    ensures Decode(bs, 2) == DecodeEntries(bs, 29, n, {})
  {
  }

  lemma Shapes(m: Bits, k: Bits, n: Bits, b: Bits, post: Bits)
    ensures m + (k + (n + b)) + post == m + k + (n + b + post)
    ensures m + (k + (n + b)) + post == (m + k) + n + (b + post)
    ensures m + (k + (n + b)) + post == (m + k + n) + b + post
  {
  }

  lemma {:induction false} HeaderReads(m: Bits, n: Bits, rest: Bits, maxId: nat, count: nat)
    requires maxId < IDS && count < 4096 && Ok(m) == EncodeInt(maxId, ID_BITS) && Ok(n) == EncodeInt(count, COUNT_BITS)
    ensures |m| == 16 && |n| == 12
    ensures
      var bs := m + [true] + (n + rest);
      bs == (m + [true]) + n + rest && Decode(bs, 2) == DecodeEntries(bs, 29, count, {})
  {
    IdFits(maxId);
    CountReads(m + [true], count, rest);
    KindReads(maxId, true, n + rest);
    var bs := m + [true] + (n + rest);
    assert bs == (m + [true]) + n + rest;
    RangeDecode(bs, maxId, count);
  }

  /** The bits of a range section, one after the other. */
  lemma {:induction false} RangeReads(m: Bits, n: Bits, es: seq<Entry>, b: Bits, post: Bits, maxId: nat)
    requires maxId < IDS && |es| < 4096 && forall i | 0 <= i < |es| :: Within(es[i], IDS - 1)
    requires Ok(m) == EncodeInt(maxId, ID_BITS) && Ok(n) == EncodeInt(|es|, COUNT_BITS) && Ok(b) == EntriesBits(es)
    ensures Decode(m + ([true] + (n + b)) + post, 2) == Ok(Decoded(CoveredFrom(es), |m + ([true] + (n + b))|))
  {
    Shapes(m, [true], n, b, post);
    HeaderReads(m, n, b + post, maxId, |es|);
    EntriesRead(m + [true] + n, es, post, {});
    assert {} + CoveredFrom(es) == CoveredFrom(es);
  }

  lemma {:induction false} RangeRoundTrip(ids: set<nat>, maxId: nat, post: Bits)
    requires Proper(ids, maxId) && maxId < IDS && Scan(ids, maxId, maxId).ranging
      && |Scan(ids, maxId, maxId).entries| < 4096
    ensures Encode(ids, maxId).Ok?
    ensures Decode(Encode(ids, maxId).value + post, 2) == Ok(Decoded(ids, |Encode(ids, maxId).value|))
  {
    var es := Scan(ids, maxId, maxId).entries;
    EntriesComplete(ids, maxId);
    assert forall i | 0 <= i < |es| :: Within(es[i], IDS - 1);
    IdFits(maxId);
    CountReads([], |es|, []);
    EntriesRead([], es, [], {});
    CoveredEitherWay(es);
    var m, n := EncodeInt(maxId, ID_BITS).value, EncodeInt(|es|, COUNT_BITS).value;
    RangeReads(m, n, es, EntriesBits(es).value, post, maxId);
  }

  // ----- When encoding fails -----

  predicate AllSingle(es: seq<Entry>) {
    forall i | 0 <= i < |es| :: es[i].Single?
  }

  function Weight(es: seq<Entry>): nat {
    if es == [] then 0 else Weight(Init(es)) + if Last(es).Single? then 16 else 33
  }

  /** The running size is what the entries weigh, with one id less than it takes. */
  lemma {:induction false} SizeIsWeight(ids: set<nat>, maxId: nat, n: nat)
    requires Proper(ids, maxId)
    ensures
      var s := Scan(ids, maxId, n);
      s.ranging || n == 0 ==> s.size == 29 + Weight(s.entries) + if s.open.Some? then 17 else 0
  {
    if n > 0 {
      SizeIsWeight(ids, maxId, n - 1);
      ScanComplete(ids, maxId, n - 1);
      var s := Scan(ids, maxId, n - 1);
      var t := Scan(ids, maxId, n);
      if t.entries != s.entries {
        assert Init(t.entries) == s.entries;
      }
    }
  }

  lemma {:induction false} WeightBound(es: seq<Entry>)
    ensures 16 * |es| <= Weight(es)
    ensures AllSingle(es) ==> Weight(es) == 16 * |es|
    ensures !AllSingle(es) ==> 16 * |es| + 17 <= Weight(es)
  {
    if es != [] {
      WeightBound(Init(es));
      assert AllSingle(es) <==> AllSingle(Init(es)) && Last(es).Single? by {
        assert forall i | 0 <= i < |es| - 1 :: es[i] == Init(es)[i];
      }
    }
  }

  /** Single entries of a scan are different ids. */
  lemma {:induction false} SinglesCount(ids: set<nat>, maxId: nat, n: nat)
    requires Proper(ids, maxId)
    ensures
      var s := Scan(ids, maxId, n);
      (s.ranging || n == 0) && AllSingle(s.entries) ==> |Covered(s.entries)| == |s.entries|
  {
    if n > 0 {
      SinglesCount(ids, maxId, n - 1);
      ScanComplete(ids, maxId, n - 1);
      var s, t := Scan(ids, maxId, n - 1), Scan(ids, maxId, n);
      if t.ranging && AllSingle(t.entries) && t.entries != s.entries {
        assert t.entries == s.entries + [Single(n)];
        assert forall i | 0 <= i < |s.entries| :: t.entries[i] == s.entries[i];
        CoveredPush(s.entries, Single(n));
        assert n !in Covered(s.entries);
      }
    }
  }

  predicate NoNeighbours(ids: set<nat>) {
    forall x | x in ids :: x + 1 !in ids
  }

  /** 4096 ids that stand alone, with the largest so large that ranges still look shorter. */
  predicate Overflows(ids: set<nat>, maxId: nat) {
    |ids| == 4096 && NoNeighbours(ids) && maxId >= 65533
  }

  lemma {:induction false} RoomLeft(ids: set<nat>, maxId: nat, n: nat)
    requires Proper(ids, maxId) && Overflows(ids, maxId) && n < maxId
    requires var s := Scan(ids, maxId, n); (s.ranging || n == 0) && AllSingle(s.entries) && s.open.None?
    ensures Prefers(maxId, Scan(ids, maxId, n).size)
  {
    var s := Scan(ids, maxId, n);
    ScanComplete(ids, maxId, n);
    SizeIsWeight(ids, maxId, n);
    WeightBound(s.entries);
    SinglesCount(ids, maxId, n);
    assert Covered(s.entries) <= ids - {maxId};
    Smaller(Covered(s.entries), ids - {maxId});
  }

  lemma {:induction false} AloneIsSingle(ids: set<nat>, maxId: nat, n: nat)
    requires Proper(ids, maxId) && Overflows(ids, maxId) && n <= maxId
    ensures var s := Scan(ids, maxId, n); (s.ranging || n == 0) && AllSingle(s.entries) && s.open.None?
  {
    if n > 0 {
      AloneIsSingle(ids, maxId, n - 1);
      RoomLeft(ids, maxId, n - 1);
    }
  }

  lemma {:induction false} Smaller(a: set<nat>, b: set<nat>)
    requires a <= b
    ensures |a| <= |b|
  {
    assert b == a + (b - a);
  }

  /** The last id always closes an entry. */
  lemma {:induction false} LastEntry(ids: set<nat>, maxId: nat)
    requires Proper(ids, maxId) && Scan(ids, maxId, maxId).ranging
    ensures maxId > 0 && Prefers(maxId, Scan(ids, maxId, maxId - 1).size)
    ensures
      var s := Scan(ids, maxId, maxId - 1);
      Scan(ids, maxId, maxId).entries == s.entries + [Close(s.open, maxId)]
  {
  }

  /** A list that is too long leaves no room for anything but single ids. */
  lemma {:induction false} LongListIsSingle(ids: set<nat>, maxId: nat)
    requires Proper(ids, maxId) && maxId < IDS && Scan(ids, maxId, maxId).ranging
      && 4096 <= |Scan(ids, maxId, maxId).entries|
    ensures |Scan(ids, maxId, maxId).entries| == 4096 && AllSingle(Scan(ids, maxId, maxId).entries) && maxId >= 65533
  {
    var s := Scan(ids, maxId, maxId - 1);
    LastEntry(ids, maxId);
    ScanComplete(ids, maxId, maxId - 1);
    SizeIsWeight(ids, maxId, maxId - 1);
    WeightBound(s.entries);
    assert AllSingle(s.entries) && s.open.None?;
  }

  lemma {:induction false} TooManyEntries(ids: set<nat>, maxId: nat)
    requires Proper(ids, maxId) && maxId < IDS && Scan(ids, maxId, maxId).ranging
    ensures 4096 <= |Scan(ids, maxId, maxId).entries| <==> Overflows(ids, maxId)
  {
    var es := Scan(ids, maxId, maxId).entries;
    EntriesComplete(ids, maxId);
    SinglesCount(ids, maxId, maxId);
    if Overflows(ids, maxId) {
      AloneIsSingle(ids, maxId, maxId);
    } else if |es| >= 4096 {
      LongListIsSingle(ids, maxId);
      SinglesAlone(ids, es);
    }
  }

  lemma {:induction false} SinglesAlone(ids: set<nat>, es: seq<Entry>)
    requires AllSingle(es) && Covered(es) <= ids && forall i | 0 <= i < |es| :: End(es[i]) + 1 !in ids
    ensures forall x | x in Covered(es) :: x + 1 !in ids
  {
    if es != [] {
      assert forall i | 0 <= i < |es| - 1 :: es[i] == Init(es)[i];
      SinglesAlone(ids, Init(es));
      assert Last(es) == es[|es| - 1];
    }
  }

  lemma {:induction false} CountTooLarge(n: nat)
    ensures EncodeInt(n, COUNT_BITS).Ok? <==> n < 4096
  {
    PowersOfTwo();
    IntRoundTrip(n, COUNT_BITS);
  }

  lemma {:induction false} IdTooLarge(n: nat)
    ensures EncodeInt(n, ID_BITS).Ok? <==> n < IDS
  {
    PowersOfTwo();
    IntRoundTrip(n, ID_BITS);
  }

  /**
    Encoding fails only for ids that do not fit sixteen bits, and for 4096 ids that stand
    alone up to the very end: the scan counts a single id one bit short, so it still picks
    ranges there, one more than the twelve-bit count can hold.
   */
  lemma {:induction false} WhenEncodable(ids: set<nat>, maxId: nat)
    requires Proper(ids, maxId)
    ensures Encode(ids, maxId).Ok? <==> maxId < IDS && !Overflows(ids, maxId)
  {
    IdTooLarge(maxId);
    var s := Scan(ids, maxId, maxId);
    if maxId < IDS {
      if s.ranging {
        TooManyEntries(ids, maxId);
        CountTooLarge(|s.entries|);
        if |s.entries| < 4096 {
          RangeRoundTrip(ids, maxId, []);
        }
      } else {
        FieldRoundTrip(ids, maxId, []);
        if Overflows(ids, maxId) {
          AloneIsSingle(ids, maxId, maxId);
        }
      }
    }
  }

  function Odds(n: nat): set<nat> {
    if n == 0 then {} else Odds(n - 1) + {2 * n - 1}
  }

  lemma {:induction false} OddsCount(n: nat)
    ensures |Odds(n)| == n && forall x | x in Odds(n) :: x % 2 == 1 && x < 2 * n
  {
    if n > 0 {
      OddsCount(n - 1);
    }
  }

  lemma {:induction false} OddIdsOverflow(odds: set<nat>, maxId: nat)
    requires |odds| == 4095 && maxId == 65535 && forall x | x in odds :: x % 2 == 1 && x < maxId
    ensures Proper(odds + {maxId}, maxId) && Overflows(odds + {maxId}, maxId)
  {
    forall x | x in odds + {maxId}
      ensures x + 1 !in odds + {maxId}
    {
      assert (x + 1) % 2 == 0;
    }
  }

  /** Such a set exists: the first 4095 odd ids and the largest id there is. */
  lemma {:induction false} EncodingCanFail(n: nat, maxId: nat)
    requires n == 4095 && maxId == 65535
    ensures Proper(Odds(n) + {maxId}, maxId) && Encode(Odds(n) + {maxId}, maxId).Err?
  {
    var odds := Odds(n);
    OddsCount(n);
    OddIdsOverflow(odds, maxId);
    WhenEncodable(odds + {maxId}, maxId);
  }

  /** Whatever encodes decodes to the same ids, with the length that was written, whatever comes after it. */
  lemma {:induction false} VendorsRoundTrip(ids: set<nat>, maxId: nat, post: Bits)
    requires Proper(ids, maxId) && Encode(ids, maxId).Ok?
    ensures Decode(Encode(ids, maxId).value + post, 2) == Ok(Decoded(ids, |Encode(ids, maxId).value|))
  {
    IdTooLarge(maxId);
    var s := Scan(ids, maxId, maxId);
    if s.ranging {
      CountTooLarge(|s.entries|);
      RangeRoundTrip(ids, maxId, post);
    } else {
      FieldRoundTrip(ids, maxId, post);
    }
  }

  /** Base64url's padding does not disturb it. */
  lemma {:induction false} ConsentStringRoundTrip(ids: set<nat>, maxId: nat)
    requires Proper(ids, maxId) && Encode(ids, maxId).Ok?
    ensures
      var bits := Encode(ids, maxId).value;
      && Encode64(bits).Ok? && Decode64(Encode64(bits).value).Ok?
      && Decode(Decode64(Encode64(bits).value).value, 2) == Ok(Decoded(ids, |bits|))
  {
    var bits := Encode(ids, maxId).value;
    IdTooLarge(maxId);
    IdFits(maxId);
    assert bits != [];
    Base64RoundTrip(bits);
    VendorsRoundTrip(ids, maxId, Zeros(|Padded(bits)| - |bits|));
  }
}
