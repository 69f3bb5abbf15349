/** Retry delays of the dead-letter queue: the int64 shift of internal/dlq/admin.go and
    internal/dlq/worker.go, with Go's wrap-around written out. Durations are nanoseconds. */
module Backoff {
  import opened Support

  const TWO_64: int := 0x1_0000_0000_0000_0000
  const SECOND: int := 1_000_000_000
  const DEFAULT_MAX_DELAY: int := 300 * SECOND
  const DEFAULT_JITTER: int := 250_000_000

  /** Two's-complement truncation to 64 bits. */
  function Wrap64(x: int): (r: int)
    ensures IsInt64(r)
    ensures IsInt64(x) ==> r == x
  {
    var m := x % TWO_64;
    if m < TWO_63 then m else m - TWO_64
  }

  function Pow2(n: nat): (r: nat)
    ensures r >= 1
  {
    if n == 0 then 1 else 2 * Pow2(n - 1)
  }

  /** Go's `x << k` on int64: the low 64 bits of x * 2^k. */
  function Shl(x: int, k: nat): (r: int)
    ensures IsInt64(r)
  {
    Wrap64(x * Pow2(k))
  }

  function Min(a: int, b: int): int {
    if a <= b then a else b
  }

  function EffectiveBase(base: int): (r: int)
    ensures r > 0
  {
    if base <= 0 then SECOND else base
  }

  function EffectiveMax(max: int): (r: int)
    ensures r > 0
  {
    if max <= 0 then DEFAULT_MAX_DELAY else max
  }

  function EffectiveJitter(jitter: int): (r: int)
    ensures r > 0
  {
    if jitter <= 0 then DEFAULT_JITTER else jitter
  }

  /** The shift count: attempts below 1 count as the first. */
  function Doublings(attempt: int): nat {
    if attempt < 1 then 0 else attempt - 1
  }

  /** The admin's delay before attempt number `attempt`. */
  function NextDelay(attempt: int, base: int, max: int): (d: int)
    requires IsInt64(base) && IsInt64(max)
  {
    var b := EffectiveBase(base);
    var m := EffectiveMax(max);
    var d := Shl(b, Doublings(attempt));
    if d < b || d > m then m else d
  }

  /** What the delay is meant to be: doubling, capped, over unbounded integers. */
  function IdealDelay(attempt: int, base: int, max: int): int {
    Min(EffectiveBase(base) * Pow2(Doublings(attempt)), EffectiveMax(max))
  }

  lemma DelayInRange(attempt: int, base: int, max: int)
    requires IsInt64(base) && IsInt64(max)
    ensures Min(EffectiveBase(base), EffectiveMax(max)) <= NextDelay(attempt, base, max) <= EffectiveMax(max)
  {
  }

  /** It begins with the base, one second if none is given, doubles with every attempt, and stops at the
      cap, five minutes if none is given. */
  lemma IdealDoubles(attempt: int, base: int, max: int)
    ensures var b, m := if base <= 0 then 1_000_000_000 else base, if max <= 0 then 300_000_000_000 else max;
      && (attempt <= 1 ==> IdealDelay(attempt, base, max) == Min(b, m))
      && (attempt >= 1 ==> IdealDelay(attempt + 1, base, max) == Min(2 * IdealDelay(attempt, base, max), m))
  {
    if attempt >= 1 {
      var b, p := EffectiveBase(base), Pow2(attempt - 1);
      assert Pow2(attempt) == 2 * p;
      assert b * (2 * p) == 2 * (b * p);
    }
  }

  /** The wrap-around is harmless at one attempt exactly when the product fits in int64, or
      when one of the two guards catches what the shift left (or it lands on the cap itself). */
  lemma DelayExactIff(attempt: int, base: int, max: int)
    requires IsInt64(base) && IsInt64(max)
    ensures NextDelay(attempt, base, max) == IdealDelay(attempt, base, max) <==>
            || EffectiveBase(base) * Pow2(Doublings(attempt)) < TWO_63
            || !(EffectiveBase(base) <= Shl(EffectiveBase(base), Doublings(attempt)) < EffectiveMax(max))
  {
  }

  lemma ProductAtLeast(a: int, n: int)
    requires a > 0 && n >= 1
    ensures a <= a * n
  {
  }

  /** A configuration on which every attempt is exact: base is an odd part times 2^s, and the
      odd part times the cap still fits in int64. */
  ghost predicate SafeConfig(base: int, max: int, s: nat, odd: int) {
    && odd > 0
    && EffectiveBase(base) == odd * Pow2(s)
    && odd * EffectiveMax(max) < TWO_63
  }

  lemma {:induction false} Pow2Add(m: nat, n: nat)
    ensures Pow2(m + n) == Pow2(m) * Pow2(n)
  {
    if m == 0 {
    } else {
      Pow2Add(m - 1, n);
      assert Pow2(m + n) == 2 * Pow2(m - 1 + n);
      assert 2 * (Pow2(m - 1) * Pow2(n)) == (2 * Pow2(m - 1)) * Pow2(n);
    }
  }

  lemma Pow2At64()
    ensures Pow2(64) == TWO_64
  {
    assert Pow2(4) == 16;
    Pow2Add(4, 4);
    Pow2Add(8, 8);
    Pow2Add(16, 16);
    Pow2Add(32, 32);
  }

  /** Truncation subtracts a multiple of 2^64. */
  lemma WrapRemoves(x: int) returns (c: int)
    ensures Wrap64(x) == x - c * TWO_64
  {
    c := x / TWO_64 + (if x % TWO_64 < TWO_63 then 0 else 1);
  }

  /** So a truncated multiple of 2^n is not positive, or it is at least 2^n. */
  lemma {:induction false} WrapKeepsFactor(q: int, n: nat)
    ensures Wrap64(q * Pow2(n)) <= 0 || Wrap64(q * Pow2(n)) >= Pow2(n)
  {
    Pow2At64();
    var p := Pow2(n);
    if n <= 64 {
      Pow2Add(n, 64 - n);
      var c := WrapRemoves(q * p);
      MultipleOf(Wrap64(q * p), p, q, c, Pow2(64 - n));
    } else {
      Pow2Add(n - 64, 64);
      var e := Pow2(n - 64);
      Regroup(q, e, TWO_64);
      MultipleMod(q * e);
      assert q * p == (q * e) * TWO_64;
    }
  }

  lemma Regroup(a: int, b: int, c: int)
    ensures a * (b * c) == (a * b) * c
  {
  }

  lemma MultipleMod(c: int)
    ensures (c * TWO_64) % TWO_64 == 0
  {
  }

  lemma MultipleOf(w: int, p: int, q: int, c: int, r: int)
    requires p >= 1 && w == q * p - c * (p * r)
    ensures w <= 0 || w >= p
  {
    Regroup(c, p, r);
    var f := q - c * r;
    assert w == f * p by {
      assert c * (p * r) == (c * r) * p;
    }
    if f >= 1 {
      ProductAtLeast(p, f);
    } else {
      assert f * p <= 0;
    }
  }

  lemma FactorAboveCap(odd: int, p: int, m: int)
    requires odd > 0 && odd * m < TWO_63 <= odd * p
    ensures p > m
  {
  }

  /** Under a safe configuration the int64 delay is the ideal one at every attempt. */
  lemma DelayIsIdeal(attempt: int, base: int, max: int, s: nat, odd: int)
    requires IsInt64(base) && IsInt64(max)
    requires SafeConfig(base, max, s, odd)
    ensures NextDelay(attempt, base, max) == IdealDelay(attempt, base, max)
  {
    var k := Doublings(attempt);
    var b, p := EffectiveBase(base), Pow2(k);
    Regroup(odd, Pow2(s), p);
    Pow2Add(s, k);
    assert b * p == odd * Pow2(s + k);
    if b * p >= TWO_63 {
      FactorAboveCap(odd, Pow2(s + k), EffectiveMax(max));
      WrapKeepsFactor(odd, s + k);
    }
    DelayExactIff(attempt, base, max);
  }

  lemma {:induction false} Pow2Monotone(m: nat, n: nat)
    requires m <= n
    ensures Pow2(m) <= Pow2(n)
  {
    Pow2Add(m, n - m);
    ProductAtLeast(Pow2(m), Pow2(n - m));
  }

  /** Hence later attempts never wait less. */
  lemma DelayMonotone(a1: int, a2: int, base: int, max: int, s: nat, odd: int)
    requires IsInt64(base) && IsInt64(max) && a1 <= a2
    requires SafeConfig(base, max, s, odd)
    ensures NextDelay(a1, base, max) <= NextDelay(a2, base, max)
  {
    DelayIsIdeal(a1, base, max, s, odd);
    DelayIsIdeal(a2, base, max, s, odd);
    Pow2Monotone(Doublings(a1), Doublings(a2));
    ScaleMonotone(EffectiveBase(base), Pow2(Doublings(a1)), Pow2(Doublings(a2)));
  }

  lemma ScaleMonotone(b: int, p1: int, p2: int)
    requires b > 0 && p1 <= p2
    ensures b * p1 <= b * p2
  {
  }

  /** The shipped defaults (1 s doubling up to 5 min) are safe: 10^9 = 1953125 * 2^9. */
  lemma DefaultConfigIsSafe()
    ensures SafeConfig(0, 0, 9, 1953125)
    ensures SafeConfig(SECOND, DEFAULT_MAX_DELAY, 9, 1953125)
  {
  }

  // ----- exactly which configurations are good -----

  /** Later attempts never wait less. */
  ghost predicate Monotone(base: int, max: int)
    requires IsInt64(base) && IsInt64(max)
  {
    forall a1: int, a2: int :: a1 <= a2 ==> NextDelay(a1, base, max) <= NextDelay(a2, base, max)
  }

  ghost predicate AlwaysIdeal(base: int, max: int)
    requires IsInt64(base) && IsInt64(max)
  {
    forall a: int :: NextDelay(a, base, max) == IdealDelay(a, base, max)
  }

  /** The k-fold doubling fits in int64, or a guard catches what the shift leaves of it. */
  predicate ShiftSafe(b: int, m: int, k: nat) {
    b * Pow2(k) < TWO_63 || !(b <= Shl(b, k) < m)
  }

  /** A check of 63 numbers that a loader of the configuration could make. */
  predicate SafeShifts(base: int, max: int) {
    forall k: nat | k < 63 :: ShiftSafe(EffectiveBase(base), EffectiveMax(max), k)
  }

  /** From 63 doublings on nothing positive is left. */
  lemma ShiftedOut(b: int, k: nat)
    requires k >= 63
    ensures Shl(b, k) <= 0
  {
    WrapKeepsFactor(b, k);
    Pow2At64();
    Pow2Monotone(63, k);
    assert 2 * Pow2(63) == Pow2(64);
  }

  /** Every attempt is exact exactly for the configurations that pass the check. */
  lemma AlwaysIdealIff(base: int, max: int)
    requires IsInt64(base) && IsInt64(max)
    ensures AlwaysIdeal(base, max) <==> SafeShifts(base, max)
  {
    var b, m := EffectiveBase(base), EffectiveMax(max);
    if SafeShifts(base, max) {
      forall a: int
        ensures NextDelay(a, base, max) == IdealDelay(a, base, max)
      {
        assert Doublings(a) < 63 ==> ShiftSafe(b, m, Doublings(a));
        if Doublings(a) >= 63 {
          ShiftedOut(b, Doublings(a));
        }
        DelayExactIff(a, base, max);
      }
    }
    if AlwaysIdeal(base, max) {
      forall k: nat | k < 63
        ensures ShiftSafe(b, m, k)
      {
        assert NextDelay(k + 1, base, max) == IdealDelay(k + 1, base, max);
        DelayExactIff(k + 1, base, max);
      }
    }
  }

  /** The first product that does not fit is below 2^64, so the shift leaves it negative. */
  lemma {:induction false} FirstOverflow(b: int, k: nat) returns (j: nat)
    requires 0 < b < TWO_63 <= b * Pow2(k)
    ensures j <= k && Shl(b, j) < 0
  {
    if k > 0 && b * Pow2(k - 1) >= TWO_63 {
      j := FirstOverflow(b, k - 1);
    } else {
      j := k;
      assert b * Pow2(k) == 2 * (b * Pow2(k - 1)) by {
        Regroup(b, 2, Pow2(k - 1));
      }
    }
  }

  /** Delays never shrink exactly for the same configurations: the first overflow already gives
      the cap, so a later one that slips through both guards is a drop. */
  lemma MonotoneIff(base: int, max: int)
    requires IsInt64(base) && IsInt64(max)
    ensures Monotone(base, max) <==> SafeShifts(base, max)
  {
    var b, m := EffectiveBase(base), EffectiveMax(max);
    if SafeShifts(base, max) {
      AlwaysIdealIff(base, max);
      forall a1: int, a2: int | a1 <= a2
        ensures NextDelay(a1, base, max) <= NextDelay(a2, base, max)
      {
        Pow2Monotone(Doublings(a1), Doublings(a2));
        ScaleMonotone(b, Pow2(Doublings(a1)), Pow2(Doublings(a2)));
      }
    } else {
      var k: nat :| k < 63 && !ShiftSafe(b, m, k);
      var j := FirstOverflow(b, k);
      assert NextDelay(j + 1, base, max) == m;
      assert NextDelay(k + 1, base, max) == Shl(b, k) < m;
    }
  }

  /** Not every configuration is: with a base of 5 ns and the largest cap, the 63rd shift wraps
      to 2^62, which passes both guards, so the delay drops below the one before it. */
  lemma UnsafeConfigShrinks()
    ensures NextDelay(63, 5, TWO_63 - 1) == 0x4000_0000_0000_0000
    ensures NextDelay(62, 5, TWO_63 - 1) > NextDelay(63, 5, TWO_63 - 1)
    ensures NextDelay(63, 5, TWO_63 - 1) != IdealDelay(63, 5, TWO_63 - 1)
  {
    Pow2At64();
    Pow2Add(2, 62);
    Pow2Add(3, 61);
    assert Pow2(2) == 4 && Pow2(3) == 8;
  }

  /** What the worker adds on top: a random jitter drawn from [0, jitter). */
  function WorkerDelay(attempt: int, base: int, max: int, draw: int): int
    requires IsInt64(base) && IsInt64(max)
  {
    Wrap64(NextDelay(attempt, base, max) + draw)
  }

  /** The worker's own copy of the computation, which reassigns `d` instead of combining the
      guards; `draw` stands for the result of the random source. */
  method WorkerNextDelay(attempt: int, baseDelay: int, maxDelay: int, jitter: int, draw: int) returns (r: int)
    requires IsInt64(baseDelay) && IsInt64(maxDelay) && IsInt64(jitter)
    requires 0 <= draw < if jitter <= 0 then 250_000_000 else jitter
    ensures r == WorkerDelay(attempt, baseDelay, maxDelay, draw)
  {
    var base := baseDelay;
    if base <= 0 { base := SECOND; }
    var max := maxDelay;
    if max <= 0 { max := DEFAULT_MAX_DELAY; }
    var n := attempt;
    if n < 1 { n := 1; }
    var d := Shl(base, n - 1);
    if d < base { d := max; }
    if d > max { d := max; }
    r := Wrap64(d + draw);
  }

  lemma WorkerDelayBoundIff(attempt: int, base: int, max: int, jitter: int, draw: int)
    requires IsInt64(base) && IsInt64(max) && IsInt64(jitter)
    requires 0 <= draw < EffectiveJitter(jitter)
    ensures NextDelay(attempt, base, max) <= WorkerDelay(attempt, base, max, draw)
              < NextDelay(attempt, base, max) + EffectiveJitter(jitter)
            <==> NextDelay(attempt, base, max) + draw < TWO_63
  {
  }

  /** At every attempt and for every draw the worker waits at least as long as the admin's delay
      and less than a jitter longer. */
  ghost predicate JitterStaysInBand(base: int, max: int, jitter: int)
    requires IsInt64(base) && IsInt64(max)
  {
    forall a: int, draw: int :: 0 <= draw < EffectiveJitter(jitter) ==>
      NextDelay(a, base, max) <= WorkerDelay(a, base, max, draw) < NextDelay(a, base, max) + EffectiveJitter(jitter)
  }

  /** That is so exactly when cap and jitter together fit in int64: attempt 65 shifts everything
      out and so waits for the cap, and the largest draw on top decides. */
  lemma JitterStaysInBandIff(base: int, max: int, jitter: int)
    requires IsInt64(base) && IsInt64(max) && IsInt64(jitter)
    ensures JitterStaysInBand(base, max, jitter) <==> EffectiveMax(max) + EffectiveJitter(jitter) <= TWO_63
  {
    var m, j := EffectiveMax(max), EffectiveJitter(jitter);
    if m + j <= TWO_63 {
      forall a: int, draw: int | 0 <= draw < j
        ensures NextDelay(a, base, max) <= WorkerDelay(a, base, max, draw) < NextDelay(a, base, max) + j
      {
        DelayInRange(a, base, max);
        WorkerDelayBoundIff(a, base, max, jitter, draw);
      }
    } else {
      ShiftedOut(EffectiveBase(base), 64);
      assert NextDelay(65, base, max) == m;
      WorkerDelayBoundIff(65, base, max, jitter, j - 1);
    }
  }

  /** A configuration beyond that: with the largest cap, a draw of 1 ns on top of it is a delay
      far in the past. */
  lemma JitterWrapsNegative()
    ensures WorkerDelay(65, SECOND, TWO_63 - 1, 1) == -TWO_63
    ensures !JitterStaysInBand(SECOND, TWO_63 - 1, 0)
  {
    ShiftedOut(SECOND, 64);
    JitterStaysInBandIff(SECOND, TWO_63 - 1, 0);
  }
}
