/**
  Bit strings of the IAB TCF v2 consent string: fixed-width integers, and the
  base64url alphabet of section 5 of RFC 4648.
 */
module TcfBits {
  import opened Prelude

  type Bits = seq<bool>

  function Pow2(n: nat): nat {
    if n == 0 then 1 else 2 * Pow2(n - 1)
  }

  /** `n.toString(2)` */
  function Binary(n: nat): (bs: Bits)
    ensures bs != []
  {
    if n < 2 then [n == 1] else Binary(n / 2) + [n % 2 == 1]
  }

  function Zeros(n: nat): (bs: Bits)
    ensures |bs| == n && forall i | 0 <= i < n :: !bs[i]
  {
    seq(n, _ => false)
  }

  /** `parseInt(bits, 2)` */
  function Value(bs: Bits): nat {
    if bs == [] then 0 else 2 * Value(Init(bs)) + if Last(bs) then 1 else 0
  }

  /** `IntEncoder.encode`: fails when the number is too large for the width. */
  function EncodeInt(n: nat, width: nat): Result<Bits> {
    var bs := Binary(n);
    if |bs| > width then Err else Ok(Zeros(width - |bs|) + bs)
  }

  /** `IntEncoder.decode`: fails when the bits are not of the given width. */
  function DecodeInt(bs: Bits, width: nat): Result<nat> {
    if |bs| == width then Ok(Value(bs)) else Err
  }

  lemma {:induction false} BinaryValue(n: nat)
    ensures Value(Binary(n)) == n
  {
    if n < 2 {
      assert Init([n == 1]) == [];
    } else {
      BinaryValue(n / 2);
      assert Init(Binary(n)) == Binary(n / 2) && Last(Binary(n)) == (n % 2 == 1);
    }
  }

  lemma {:induction false} LeadingZeros(k: nat, bs: Bits)
    ensures Value(Zeros(k) + bs) == Value(bs)
    decreases |bs|, k
  {
    if bs != [] {
      assert Init(Zeros(k) + bs) == Zeros(k) + Init(bs) && Last(Zeros(k) + bs) == Last(bs);
      LeadingZeros(k, Init(bs));
    } else if k > 0 {
      assert Zeros(k) + [] == Zeros(k) && Init(Zeros(k)) == Zeros(k - 1) && Zeros(k - 1) + [] == Zeros(k - 1);
      LeadingZeros(k - 1, []);
    }
  }

  lemma {:induction false} BinaryLength(n: nat, width: nat)
    requires width > 0
    ensures |Binary(n)| <= width <==> n < Pow2(width)
  {
    if n >= 2 && width > 1 {
      BinaryLength(n / 2, width - 1);
    } else if n < 2 {
      PowPositive(width - 1);
    }
  }

  lemma {:induction false} PowPositive(n: nat)
    ensures Pow2(n) >= 1
  {
    if n > 0 {
      PowPositive(n - 1);
    }
  }

  /** A number that fits takes exactly its width and comes back; one that does not is refused. */
  lemma {:induction false} IntRoundTrip(n: nat, width: nat)
    requires width > 0
    ensures EncodeInt(n, width).Ok? <==> n < Pow2(width)
    ensures n < Pow2(width) ==>
      |EncodeInt(n, width).value| == width && DecodeInt(EncodeInt(n, width).value, width) == Ok(n)
  {
    BinaryLength(n, width);
    BinaryValue(n);
    if |Binary(n)| <= width {
      LeadingZeros(width - |Binary(n)|, Binary(n));
    }
  }

  // ----- Base64url -----

  /** `DICT[v]` */
  function Letter(v: nat): char
    requires v < 64
  {
    if v < 26 then 'A' + v as char
    else if v < 52 then 'a' + (v - 26) as char
    else if v < 62 then '0' + (v - 52) as char
    else if v == 62 then '-' else '_'
  }

  /** `REVERSE_DICT.get(c)` */
  function LetterValue(c: char): Option<nat> {
    if 'A' <= c <= 'Z' then Some((c - 'A') as nat)
    else if 'a' <= c <= 'z' then Some((c - 'a') as nat + 26)
    else if '0' <= c <= '9' then Some((c - '0') as nat + 52)
    else if c == '-' then Some(62)
    else if c == '_' then Some(63)
    else None
  }

  lemma LetterRoundTrip(v: nat, c: char)
    ensures v < 64 ==> LetterValue(Letter(v)) == Some(v)
    ensures LetterValue(c).Some? ==> LetterValue(c).value < 64 && Letter(LetterValue(c).value) == c
  {
  }

  /** Zeros up to the next multiple of 24 bits. */
  function Padded(bs: Bits): (ps: Bits)
    ensures |ps| % 24 == 0 && |ps| % 6 == 0 && bs <= ps && |ps| < |bs| + 24
  {
    var ps := if |bs| % 24 == 0 then bs else bs + Zeros(24 - |bs| % 24);
    FourSixes(|ps|);
    ps
  }

  lemma FourSixes(n: nat)
    requires n % 24 == 0
    ensures n % 6 == 0
  {
    assert n == 6 * (4 * (n / 24));
  }

  lemma {:induction false} ValueBound(bs: Bits)
    ensures Value(bs) < Pow2(|bs|)
  {
    if bs != [] {
      ValueBound(Init(bs));
    }
  }

  lemma {:induction false} SixBits(bs: Bits)
    requires |bs| == 6
    ensures Value(bs) < 64
  {
    ValueBound(bs);
    assert Pow2(6) == 2 * Pow2(5) == 4 * Pow2(4) == 8 * Pow2(3);
    assert Pow2(3) == 2 * Pow2(2) == 4 * Pow2(1);
  }

  function Letters(bs: Bits): string
    requires |bs| % 6 == 0
    decreases |bs|
  {
    if bs == [] then []
    else
      SixBits(bs[..6]);
      [Letter(Value(bs[..6]))] + Letters(bs[6..])
  }

  function Encode64(bs: Bits): Result<string> {
    if bs == [] then Err else Ok(Letters(Padded(bs)))
  }

  function SixOf(v: nat): Bits
    requires v < 64
  {
    var bs := Binary(v);
    if |bs| <= 6 then Zeros(6 - |bs|) + bs else bs
  }

  function Unletters(s: string): Result<Bits> {
    if s == [] then Ok([])
    else
      match LetterValue(s[0])
      case None => Err
      case Some(v) =>
        LetterRoundTrip(v, s[0]);
        var rest := Unletters(s[1..]);
        if rest.Err? then Err else Ok(SixOf(v) + rest.value)
  }

  function Decode64(s: string): Result<Bits> {
    if s == [] then Err else Unletters(s)
  }

  lemma {:induction false} ValueInjective(a: Bits, b: Bits)
    requires |a| == |b| && Value(a) == Value(b)
    ensures a == b
  {
    if a != [] {
      ValueInjective(Init(a), Init(b));
      assert a == Init(a) + [Last(a)] && b == Init(b) + [Last(b)];
    }
  }

  lemma {:induction false} SixRoundTrip(bs: Bits)
    requires |bs| == 6
    ensures Value(bs) < 64 && SixOf(Value(bs)) == bs
  {
    SixBits(bs);
    ValueBound(bs);
    BinaryLength(Value(bs), 6);
    IntRoundTrip(Value(bs), 6);
    ValueInjective(SixOf(Value(bs)), bs);
  }

  lemma {:induction false} LettersRoundTrip(bs: Bits)
    requires |bs| % 6 == 0
    ensures Unletters(Letters(bs)) == Ok(bs)
    decreases |bs|
  {
    if bs != [] {
      SixRoundTrip(bs[..6]);
      LetterRoundTrip(Value(bs[..6]), 'A');
      LettersRoundTrip(bs[6..]);
      assert Letters(bs)[1..] == Letters(bs[6..]);
      assert bs[..6] + bs[6..] == bs;
    }
  }

  /** Decoding gives the bits back, followed by fewer than 24 zeros; only the empty bit string is refused. */
  lemma {:induction false} Base64RoundTrip(bs: Bits)
    ensures Encode64(bs).Ok? <==> bs != []
    ensures bs != [] ==>
      Decode64(Encode64(bs).value) == Ok(bs + Zeros(|Padded(bs)| - |bs|)) && |Padded(bs)| - |bs| < 24
  {
    if bs != [] {
      var ps := Padded(bs);
      LettersRoundTrip(ps);
      assert Letters(ps) != [];
      assert ps == bs + Zeros(|ps| - |bs|);
    }
  }

  method EncodeBase64(bits: Bits) returns (r: Result<string>)
    ensures r == Encode64(bits)
  {
    if bits == [] {
      return Err;
    }
    var rest, out := Padded(bits), [];
    ghost var all := Letters(rest);
    while rest != []
      invariant |rest| % 6 == 0 && out + Letters(rest) == all
      decreases |rest|
    {
      SixBits(rest[..6]);
      assert out + ([Letter(Value(rest[..6]))] + Letters(rest[6..]))
        == out + [Letter(Value(rest[..6]))] + Letters(rest[6..]);
      out := out + [Letter(Value(rest[..6]))];
      rest := rest[6..];
    }
    assert out + [] == out;
    return Ok(out);
  }

  function After(out: Bits, r: Result<Bits>): Result<Bits> {
    if r.Err? then Err else Ok(out + r.value)
  }

  method DecodeBase64(s: string) returns (r: Result<Bits>)
    ensures r == Decode64(s)
  {
    if s == [] {
      return Err;
    }
    var out, i := [], 0;
    assert s[0..] == s;
    assert Unletters(s).Ok? ==> [] + Unletters(s).value == Unletters(s).value;
    while i < |s|
      invariant i <= |s| && Unletters(s) == After(out, Unletters(s[i..]))
    {
      assert s[i..][0] == s[i] && s[i..][1..] == s[i + 1..];
      var v := LetterValue(s[i]);
      if v.None? {
        return Err;
      }
      LetterRoundTrip(v.value, s[i]);
      ghost var tail := Unletters(s[i + 1..]);
      assert tail.Ok? ==> out + (SixOf(v.value) + tail.value) == out + SixOf(v.value) + tail.value;
      out := out + SixOf(v.value);
      i := i + 1;
    }
    assert out + [] == out;
    return Ok(out);
  }
}
