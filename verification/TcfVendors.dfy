/**
  The vendor section of a consent string (IAB TCF v2, Vendor Consent Section): a bit
  field or a list of ranges, whichever the scan over the ids finds shorter.
 */
module TcfVendors {
  import opened Prelude
  import opened TcfBits

  const ID_BITS := 16
  const COUNT_BITS := 12
  const IDS: nat := 0x1_0000

  datatype Entry = Single(id: nat) | Span(first: nat, last: nat)

  // ----- The vector of ids -----

  ghost predicate Proper(ids: set<nat>, maxId: nat) {
    && (forall x | x in ids :: 1 <= x <= maxId)
    && (maxId > 0 ==> maxId in ids)
  }

  function Elements<T(==)>(xs: seq<T>): set<T> {
    set x | x in xs
  }

  /** How many of the numbers come before the first that is not positive. */
  function Positive(xs: seq<int>): (n: nat)
    ensures n <= |xs| && (forall i | 0 <= i < n :: xs[i] > 0) && (n < |xs| ==> xs[n] <= 0)
  {
    if xs == [] || xs[0] <= 0 then 0 else 1 + Positive(xs[1..])
  }

  class Vector {
    var ids: set<nat>
    var maxId: nat
    var bitLength: nat

    ghost predicate Valid()
      reads this
    {
      Proper(ids, maxId)
    }

    constructor ()
      ensures Valid() && ids == {} && bitLength == 0
    {
      ids, maxId, bitLength := {}, 0, 0;
    }

    /** Adds an id; anything but a positive number is refused. */
    method Set(id: int) returns (ok: bool)
      requires Valid()
      modifies this
      ensures Valid() && ok == (id > 0)
      ensures ids == (if ok then old(ids) + {id} else old(ids)) && bitLength == if ok then 0 else old(bitLength)
    {
      ok := id > 0;
      if ok {
        ids, bitLength := ids + {id}, 0;
        if maxId < id {
          maxId := id;
        }
      }
    }

    /** Removes an id; the largest id is then looked up again. */
    method Unset(id: nat)
      requires Valid()
      modifies this
      ensures Valid() && ids == old(ids) - {id} && bitLength == 0
    {
      ids, bitLength := ids - {id}, 0;
      if id == maxId {
        maxId := 0;
        var left := ids;
        while left != {}
          modifies this`maxId
          invariant left <= ids && (forall x | x in ids :: 1 <= x)
          invariant forall x | x in ids && x !in left :: x <= maxId
          invariant maxId > 0 ==> maxId in ids
          decreases left
        {
          var x :| x in left;
          if maxId < x {
            maxId := x;
          }
          left := left - {x};
        }
      }
    }

    /** An array of ids, one after the other; the first bad one is refused and those before it stay. */
    method SetEach(xs: seq<int>) returns (ok: bool)
      requires Valid()
      modifies this
      ensures Valid() && (ok <==> Positive(xs) == |xs|)
      ensures ids == old(ids) + Elements(xs[..Positive(xs)])
    {
      var i := 0;
      while i < |xs|
        invariant i <= Positive(xs) && Valid()
        invariant ids == old(ids) + Elements(xs[..i])
      {
        ok := Set(xs[i]);
        if !ok {
          return false;
        }
        assert xs[..i + 1] == xs[..i] + [xs[i]];
        i := i + 1;
      }
      return true;
    }

    method UnsetEach(xs: seq<nat>)
      requires Valid()
      modifies this
      ensures Valid() && ids == old(ids) - Elements(xs)
    {
      var i := 0;
      while i < |xs|
        invariant i <= |xs| && Valid()
        invariant ids == old(ids) - Elements(xs[..i])
      {
        Unset(xs[i]);
        assert xs[..i + 1] == xs[..i] + [xs[i]];
        i := i + 1;
      }
      assert xs[..i] == xs;
    }
  }

  // ----- Encoding -----

  datatype ScanState = ScanState(bits: Bits, entries: seq<Entry>, open: Option<nat>, size: nat, ranging: bool)

  const START := ScanState([], [], None, 29, false)

  /** Ranges are still worth while: the ids go beyond 45 and the list so far is shorter than the field. */
  predicate Prefers(maxId: nat, size: nat) {
    maxId > 2 * ID_BITS + 1 + COUNT_BITS && size < ID_BITS + 1 + maxId
  }

  function Close(open: Option<nat>, id: nat): Entry {
    if open.None? then Single(id) else Span(open.value, id)
  }

  /** One id of the scan. An entry for one id counts 16 bits here, though it takes 17. */
  function ScanId(ids: set<nat>, maxId: nat, s: ScanState, id: nat): ScanState {
    var t := s.(bits := s.bits + [id in ids], ranging := Prefers(maxId, s.size));
    if !t.ranging || id !in ids then t
    else if id + 1 !in ids then t.(entries := s.entries + [Close(s.open, id)], open := None, size := s.size + ID_BITS)
    else if s.open.None? then t.(open := Some(id), size := s.size + 1 + ID_BITS)
    else t
  }

  function Scan(ids: set<nat>, maxId: nat, n: nat): ScanState {
    if n == 0 then START else ScanId(ids, maxId, Scan(ids, maxId, n - 1), n)
  }

  function Then(a: Result<Bits>, b: Result<Bits>): Result<Bits> {
    if a.Ok? && b.Ok? then Ok(a.value + b.value) else Err
  }

  function EntryBits(e: Entry): Result<Bits> {
    match e
    case Single(id) => Then(Ok([false]), EncodeInt(id, ID_BITS))
    case Span(first, last) => Then(Then(Ok([true]), EncodeInt(first, ID_BITS)), EncodeInt(last, ID_BITS))
  }

  function EntriesBits(es: seq<Entry>): Result<Bits> {
    if es == [] then Ok([]) else Then(EntryBits(es[0]), EntriesBits(es[1..]))
  }

  function Encode(ids: set<nat>, maxId: nat): Result<Bits> {
    var s := Scan(ids, maxId, maxId);
    var body :=
      if s.ranging then Then(Ok([true]), Then(EncodeInt(|s.entries|, COUNT_BITS), EntriesBits(s.entries)))
      else Ok([false] + s.bits);
    Then(EncodeInt(maxId, ID_BITS), body)
  }

  lemma {:induction false} NextEntry(bits: Bits, es: seq<Entry>)
    requires es != []
    ensures
      var e := EntryBits(es[0]);
      Then(Ok(bits), EntriesBits(es)) == if e.Err? then Err else Then(Ok(bits + e.value), EntriesBits(es[1..]))
  {
    var e, rest := EntryBits(es[0]), EntriesBits(es[1..]);
    assert EntriesBits(es) == Then(e, rest);
    assert e.Ok? && rest.Ok? ==> bits + (e.value + rest.value) == bits + e.value + rest.value;
  }

  method EncodeEntries(entries: seq<Entry>) returns (r: Result<Bits>)
    ensures r == EntriesBits(entries)
  {
    var bits, i := [], 0;
    ghost var all := EntriesBits(entries);
    assert entries[0..] == entries;
    assert all.Ok? ==> [] + all.value == all.value;
    while i < |entries|
      invariant i <= |entries| && all == Then(Ok(bits), EntriesBits(entries[i..]))
    {
      NextEntry(bits, entries[i..]);
      assert entries[i..][1..] == entries[i + 1..];
      var e := EntryBits(entries[i]);
      if e.Err? {
        return Err;
      }
      bits, i := bits + e.value, i + 1;
    }
    assert EntriesBits(entries[i..]) == Ok([]) && bits + [] == bits;
    return Ok(bits);
  }

  method EncodeVendors(v: Vector) returns (r: Result<Bits>)
    requires v.Valid()
    ensures r == Encode(v.ids, v.maxId)
  {
    var s := START;
    var id := 0;
    while id < v.maxId
      invariant id <= v.maxId && s == Scan(v.ids, v.maxId, id)
    {
      id := id + 1;
      s := ScanId(v.ids, v.maxId, s, id);
    }
    var entries := EncodeEntries(s.entries);
    var body :=
      if s.ranging then Then(Ok([true]), Then(EncodeInt(|s.entries|, COUNT_BITS), entries)) else Ok([false] + s.bits);
    return Then(EncodeInt(v.maxId, ID_BITS), body);
  }

  // ----- Decoding -----

  datatype Decoded = Decoded(ids: set<nat>, bitLength: nat)

  /** `s.substr(at, n)` */
  function Substr(bs: Bits, at: nat, n: nat): Bits {
    if |bs| <= at then [] else if |bs| < at + n then bs[at..] else bs[at..at + n]
  }

  predicate Between(first: nat, x: nat, last: nat) {
    first <= x <= last
  }

  function Interval(first: nat, last: nat): set<nat> {
    set x: nat | x <= last && Between(first, x, last)
  }

  function Ids(e: Entry): set<nat> {
    match e
    case Single(id) => {id}
    case Span(first, last) => Interval(first, last)
  }

  function Width(e: Entry): nat {
    if e.Single? then 1 + ID_BITS else 1 + 2 * ID_BITS
  }

  /** Id 0 is refused by the vector, and a bit beyond the end reads as false. */
  function ReadEntry(bs: Bits, at: nat): Result<Entry> {
    var first := DecodeInt(Substr(bs, at + 1, ID_BITS), ID_BITS);
    if first.Err? || first.value == 0 then Err
    else if Substr(bs, at, 1) == [true] then
      var last := DecodeInt(Substr(bs, at + 1 + ID_BITS, ID_BITS), ID_BITS);
      if last.Err? then Err else Ok(Span(first.value, last.value))
    else Ok(Single(first.value))
  }

  function DecodeEntries(bs: Bits, at: nat, n: nat, ids: set<nat>): Result<Decoded>
    decreases n
  {
    if n == 0 then Ok(Decoded(ids, at))
    else
      match ReadEntry(bs, at)
      case Err => Err
      case Ok(e) => DecodeEntries(bs, at + Width(e), n - 1, ids + Ids(e))
  }

  function FieldIds(field: Bits): set<nat> {
    set k | 0 <= k < |field| && field[k] :: k + 1
  }

  function Decode(bs: Bits, version: nat): Result<Decoded> {
    var maxId := DecodeInt(Substr(bs, 0, ID_BITS), ID_BITS);
    var kind := DecodeInt(Substr(bs, ID_BITS, 1), 1);
    if maxId.Err? || kind.Err? then Err
    else if kind.value == 1 then
      if version == 1 && Substr(bs, ID_BITS + 1, 1) == [true] then Err
      else
        var at := if version == 1 then ID_BITS + 2 else ID_BITS + 1;
        var n := DecodeInt(Substr(bs, at, COUNT_BITS), COUNT_BITS);
        if n.Err? then Err else DecodeEntries(bs, at + COUNT_BITS, n.value, {})
    else
      var field := Substr(bs, ID_BITS + 1, maxId.value);
      if |field| != maxId.value then Err else Ok(Decoded(FieldIds(field), ID_BITS + 1 + maxId.value))
  }

  method DecodeRange(bs: Bits, at: nat) returns (e: Result<Entry>)
    ensures e == ReadEntry(bs, at)
  {
    var span := Substr(bs, at, 1) == [true];
    var first := DecodeInt(Substr(bs, at + 1, ID_BITS), ID_BITS);
    if first.Err? || first.value == 0 {
      return Err;
    }
    if span {
      var last := DecodeInt(Substr(bs, at + 1 + ID_BITS, ID_BITS), ID_BITS);
      return if last.Err? then Err else Ok(Span(first.value, last.value));
    }
    return Ok(Single(first.value));
  }

  method DecodeRanges(bs: Bits, from: nat, count: nat) returns (r: Result<Decoded>)
    ensures r == DecodeEntries(bs, from, count, {})
  {
    var ids: set<nat>, at: nat, left: nat := {}, from, count;
    while left > 0
      invariant left <= count && DecodeEntries(bs, at, left, ids) == DecodeEntries(bs, from, count, {})
    {
      var e := DecodeRange(bs, at);
      if e.Err? {
        return Err;
      }
      ids, at, left := ids + Ids(e.value), at + Width(e.value), left - 1;
    }
    return Ok(Decoded(ids, at));
  }

  method DecodeVendors(bs: Bits, version: nat) returns (r: Result<Decoded>)
    ensures r == Decode(bs, version)
  {
    var maxId := DecodeInt(Substr(bs, 0, ID_BITS), ID_BITS);
    var kind := DecodeInt(Substr(bs, ID_BITS, 1), 1);
    if maxId.Err? || kind.Err? {
      return Err;
    }
    var at := ID_BITS + 1;
    if kind.value == 1 {
      if version == 1 {
        if Substr(bs, at, 1) == [true] {
          return Err;
        }
        at := at + 1;
      }
      var n := DecodeInt(Substr(bs, at, COUNT_BITS), COUNT_BITS);
      if n.Err? {
        return Err;
      }
      r := DecodeRanges(bs, at + COUNT_BITS, n.value);
    } else {
      var field := Substr(bs, at, maxId.value);
      if |field| != maxId.value {
        return Err;
      }
      var ids: set<nat>, i := {}, 0;
      while i < |field|
        invariant i <= |field| && ids == FieldIds(field[..i])
      {
        ids := if field[i] then ids + {i + 1} else ids;
        FieldStep(field, i);
        i := i + 1;
      }
      assert field[..i] == field;
      return Ok(Decoded(ids, at + maxId.value));
    }
  }

  lemma {:induction false} FieldStep(field: Bits, i: nat)
    requires i < |field|
    ensures FieldIds(field[..i + 1]) == if field[i] then FieldIds(field[..i]) + {i + 1} else FieldIds(field[..i])
  {
    var a, b := field[..i], field[..i + 1];
    assert forall k | 0 <= k < i :: a[k] == b[k] == field[k];
    assert b[i] == field[i];
  }
}
