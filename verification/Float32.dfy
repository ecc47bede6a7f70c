/**
  IEEE 754 binary32 arithmetic, exactly as far as the reveal rate needs it: the
  conversion, division and multiplication of non-negative numbers that stay in
  the normal range, each rounded to a 24-bit significand, ties to even.
 */
module Float32 {
  const LOW: real := 8388608.0   // 2^23: significands lie in [LOW, HIGH)
  const HIGH: real := 16777216.0 // 2^24

  function NearestEven(x: real): int {
    var n := x.Floor;
    var rest := x - n as real;
    if rest < 0.5 || (rest == 0.5 && n % 2 == 0) then n else n + 1
  }

  /** How far a number is from the range of significands. */
  function Distance(x: real): int
    requires 0.0 <= x
  {
    if x == 0.0 then 0 else if HIGH <= x then x.Floor else (HIGH / x).Floor
  }

  lemma {:induction false} Nearer(x: real)
    requires 0.0 < x
    ensures 0 <= Distance(x)
    ensures HIGH <= x ==> 0 <= Distance(x / 2.0) < Distance(x)
    ensures x < LOW ==> 0 <= Distance(2.0 * x) < Distance(x)
  {
    if x < LOW {
      var y := HIGH / x;
      assert HIGH / (2.0 * x) == y / 2.0 && y > 2.0;
    } else if HIGH <= x < 2.0 * HIGH {
      assert HIGH / (x / 2.0) <= 2.0;
    }
  }

  /** The binary32 number nearest to `x`; scaling by two is exact. */
  function Round(x: real): real
    requires 0.0 <= x
    decreases Distance(x)
  {
    if x == 0.0 then 0.0
    else
      Nearer(x);
      if HIGH <= x then 2.0 * Round(x / 2.0)
      else if x < LOW then Round(2.0 * x) / 2.0
      else NearestEven(x) as real
  }

  lemma {:induction false} RoundError(x: real)
    requires 0.0 <= x
    ensures HIGH * (Round(x) - x) <= x
    ensures HIGH * (x - Round(x)) <= x
    decreases Distance(x)
  {
    if 0.0 < x {
      Nearer(x);
      if HIGH <= x {
        RoundError(x / 2.0);
      } else if x < LOW {
        RoundError(2.0 * x);
      }
    }
  }

  function Ceiling(x: real): int {
    -((-x).Floor)
  }

  const REVEAL_TARGET: real := 200.0
  const TASK_UPDATE_MS: real := 16.0

  /** `len as f32 / REVEAL_TARGET * TASK_UPDATE_MS as f32` */
  function Share(len: nat): (p: real)
    ensures 0.0 <= p
  {
    RoundError(len as real);
    var quotient := Round(len as real) / REVEAL_TARGET;
    RoundError(quotient);
    var product := Round(quotient) * TASK_UPDATE_MS;
    RoundError(product);
    Round(product)
  }

  /** `.ceil() as usize` of that share */
  function BytesPerTick(len: nat): (n: nat) {
    Ceiling(Share(len))
  }

  /** Thirteen ticks at this rate cover the text, and a non-empty text has a positive rate. */
  lemma ThirteenTicksCover(len: nat)
    ensures len <= 13 * BytesPerTick(len)
  {
    var l := len as real;
    RoundError(l);
    var q := Round(l) / REVEAL_TARGET;
    RoundError(q);
    var p := Round(q) * TASK_UPDATE_MS;
    RoundError(p);
    assert l <= 13.0 * Round(p);
  }

  // ----- The rate, exactly -----

  lemma {:induction false} RoundDouble(x: real)
    requires 0.0 <= x
    ensures Round(2.0 * x) == 2.0 * Round(x)
  {
    if 0.0 < x < LOW {
      assert Round(x) == Round(2.0 * x) / 2.0;
    } else if LOW <= x {
      assert Round(2.0 * x) == 2.0 * Round(2.0 * x / 2.0);
      assert 2.0 * x / 2.0 == x;
    }
  }

  /** Whole numbers of at most 24 bits are represented exactly. */
  lemma {:induction false} RoundWhole(n: nat)
    requires n < 16777216
    ensures Round(n as real) == n as real
    decreases 16777216 - n
  {
    if 0 < n < 8388608 {
      RoundWhole(2 * n);
      assert (2 * n) as real == 2.0 * n as real;
      RoundDouble(n as real);
    } else if n > 0 {
      assert (n as real).Floor == n;
    }
  }

  lemma {:induction false} RoundEighth(k: nat)
    requires k < 16777216
    ensures Round(k as real / 8.0) == k as real / 8.0
  {
    var x := k as real;
    RoundWhole(k);
    RoundDouble(x / 8.0);
    RoundDouble(x / 4.0);
    RoundDouble(x / 2.0);
    assert 2.0 * (x / 8.0) == x / 4.0 && 2.0 * (x / 4.0) == x / 2.0 && 2.0 * (x / 2.0) == x;
  }

  /** A length divisible by 25 has a whole rate, computed without any rounding. */
  lemma {:induction false} WholeRate(k: nat)
    requires k < 4194304
    ensures 25 * k < 16777216 ==> BytesPerTick(25 * k) == 2 * k
  {
    if 25 * k < 16777216 {
      RoundWhole(25 * k);
      var q := (25 * k) as real / REVEAL_TARGET;
      assert q == k as real / 8.0;
      RoundEighth(k);
      RoundWhole(2 * k);
      assert Round(q) * TASK_UPDATE_MS == (2 * k) as real;
    }
  }

  /** Below two million bytes the roundings together are less than a thirtieth. */
  lemma {:induction false} ShareNear(len: nat)
    requires len < 2000000
    ensures 2.0 * len as real - 1.0 < 25.0 * Share(len) < 2.0 * len as real + 1.0
  {
    var l := len as real;
    RoundWhole(len);
    var q := l / REVEAL_TARGET;
    RoundError(q);
    var p := Round(q) * TASK_UPDATE_MS;
    RoundError(p);
    assert HIGH * (p - 16.0 * q) <= 16.0 * q && HIGH * (16.0 * q - p) <= 16.0 * q;
    assert 16.0 * q == l * 0.08 && l * 0.08 < 160000.0;
    assert p <= 160001.0;
    assert HIGH * (Round(p) - p) <= 160001.0 && HIGH * (p - Round(p)) <= 160001.0;
    assert HIGH * (Round(p) - l * 0.08) <= 320001.0 && HIGH * (l * 0.08 - Round(p)) <= 320001.0;
    assert Share(len) == Round(p);
  }

  lemma {:induction false} CeilingBetween(x: real, r: int)
    requires r as real - 1.0 < x <= r as real
    ensures Ceiling(x) == r
  {
  }

  /** Below two million bytes the rate is two bytes in 25, rounded up, in spite of all roundings. */
  lemma {:induction false} RateIsExact(len: nat)
    requires len < 2000000
    ensures BytesPerTick(len) == (2 * len + 24) / 25
  {
    var k := len / 25;
    if len % 25 == 0 {
      assert len == 25 * k;
      WholeRate(k);
    } else {
      var r := (2 * len + 24) / 25;
      assert 25 * r - 24 <= 2 * len <= 25 * r - 1;
      ShareNear(len);
      var l := len as real;
      assert (2 * len) as real == 2.0 * l;
      assert 25.0 * r as real - 24.0 <= 2.0 * l <= 25.0 * r as real - 1.0;
      CeilingBetween(Share(len), r);
    }
  }

  /** The rate is the length's share of a tick, rounded up: 8 bytes in 100, and never a whole byte more. */
  lemma {:induction false} RateBound(len: nat)
    ensures 100000 * BytesPerTick(len) < 8001 * len + 100000
  {
    var l := len as real;
    RoundError(l);
    var q := Round(l) / REVEAL_TARGET;
    RoundError(q);
    var p := Round(q) * TASK_UPDATE_MS;
    RoundError(p);
    assert 100000.0 * Round(p) <= 8001.0 * l;
  }

  /** Twelve ticks do not cover a text of more than 300 bytes, even if each tick goes on to the end of a character. */
  lemma {:induction false} TwelveTicksDoNot(len: nat)
    ensures len > 301 ==> 12 * BytesPerTick(len) < len
    ensures len > 1204 ==> 12 * (BytesPerTick(len) + 3) < len
  {
    RateBound(len);
  }
}
