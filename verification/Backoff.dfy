/** `BackoffDuration`, in 64-bit nanoseconds. */
module Backoff {
  import opened Int64
  import opened Types

  const MILLISECOND := 1_000_000
  const BASE := 100 * MILLISECOND

  function Pow2(n: nat): nat { if n == 0 then 1 else 2 * Pow2(n - 1) }

  /** `1 << n` as an int64. */
  function Shift(n: nat): int { if n >= 64 then 0 else Wrap64(Pow2(n)) }

  function Jitter(attempt: nat): int { attempt * 37 % 100 * MILLISECOND }

  function BackoffDuration(strategy: BackoffStrategy, attempt: nat): int
    requires attempt >= 1
  {
    match strategy
    case Exponential => Wrap64(BASE * Shift(attempt - 1))
    case ExponentialJitter => Wrap64(Wrap64(BASE * Shift(attempt - 1)) + Jitter(attempt))
    case _ => Wrap64(BASE * attempt)
  }

  /** The wait as a number, before it is stored in 64 bits. */
  function Exact(strategy: BackoffStrategy, attempt: nat): int
    requires attempt >= 1
  {
    match strategy
    case Exponential => BASE * Pow2(attempt - 1)
    case ExponentialJitter => BASE * Pow2(attempt - 1) + Jitter(attempt)
    case _ => BASE * attempt
  }

  lemma {:induction false} Pow2Grows(m: nat, n: nat)
    requires m <= n
    ensures Pow2(m) <= Pow2(n)
    decreases n
  {
    if m < n { Pow2Grows(m, n - 1); }
  }

  lemma Pow2Bounds(n: nat)
    ensures n <= 36 ==> 1 <= Pow2(n) <= 0x10_0000_0000
    ensures n >= 37 ==> Pow2(n) >= 0x20_0000_0000
  {
    assert Pow2(9) == 512;
    assert Pow2(18) == 0x4_0000;
    assert Pow2(27) == 0x800_0000;
    assert Pow2(36) == 0x10_0000_0000;
    Pow2Grows(0, n);
    if n <= 36 { Pow2Grows(n, 36); } else { Pow2Grows(37, n); }
  }

  lemma {:induction false} Pow2Add(m: nat, n: nat)
    ensures Pow2(m + n) == Pow2(n) * Pow2(m)
  {
    if m > 0 { Pow2Add(m - 1, n); }
  }

  /** A shift is the power of two, modulo 2^64, also when every bit is shifted out. */
  lemma ShiftWraps(n: nat)
    ensures Shift(n) == Wrap64(Pow2(n))
  {
    if n >= 64 {
      Pow2Of64();
      Pow2Add(64, n - 64);
      WrapShift(0, Pow2(n - 64));
    }
  }

  lemma Pow2Of64()
    ensures Pow2(64) == TWO64
  {
    assert Pow2(8) == 0x100;
    Pow2Add(8, 8);
    Pow2Add(16, 16);
    Pow2Add(32, 32);
  }

  /** For every attempt, however late, the wait is the exact one modulo 2^64. */
  lemma WaitWraps(strategy: BackoffStrategy, attempt: nat)
    requires attempt >= 1
    ensures BackoffDuration(strategy, attempt) == Wrap64(Exact(strategy, attempt))
  {
    ShiftWraps(attempt - 1);
    WrapTimes(BASE, Pow2(attempt - 1));
    WrapAdd(BASE * Pow2(attempt - 1), Jitter(attempt));
  }

  /** The last attempt whose wait is the exact one. */
  ghost function LastExact(strategy: BackoffStrategy): nat {
    if strategy.Exponential? || strategy.ExponentialJitter? then 37 else 92_233_720_368
  }

  /** The waits with doubling are right exactly up to attempt 37, the linear ones up to attempt 92233720368. */
  lemma FitsIff(strategy: BackoffStrategy, attempt: nat)
    requires attempt >= 1
    ensures BackoffDuration(strategy, attempt) == Exact(strategy, attempt) <==> attempt <= LastExact(strategy)
  {
    WaitWraps(strategy, attempt);
    ExactFits(strategy, attempt);
  }

  lemma ExactFits(strategy: BackoffStrategy, attempt: nat)
    requires attempt >= 1
    ensures 0 <= Exact(strategy, attempt)
    ensures Exact(strategy, attempt) < TWO63 <==> attempt <= LastExact(strategy)
  {
    Pow2Bounds(attempt - 1);
    JitterBound(attempt);
  }

  lemma JitterBound(attempt: nat)
    ensures 0 <= Jitter(attempt) <= 99 * MILLISECOND
  {}

  /** The jitter starts at 37ms and moves on by 37ms at each attempt, modulo 100ms: 37, 74, 11, 48, ... */
  lemma JitterSteps(attempt: nat)
    ensures Jitter(1) == 37 * MILLISECOND && Jitter(2) == 74 * MILLISECOND && Jitter(3) == 11 * MILLISECOND
    ensures Jitter(attempt + 1) ==
              if Jitter(attempt) < 63 * MILLISECOND then Jitter(attempt) + 37 * MILLISECOND
              else Jitter(attempt) - 63 * MILLISECOND
  {
    var m := attempt * 37 % 100;
    assert (attempt + 1) * 37 == attempt * 37 + 37;
    assert (attempt * 37 + 37) % 100 == if m < 63 then m + 37 else m - 63;
  }

  lemma DoubleBeatsJitter(p: nat, j: int, j': int)
    requires p >= 1 && 0 <= j <= 99 * MILLISECOND && 0 <= j'
    ensures BASE * p + j < BASE * (2 * p) + j'
  {}

  lemma ExactIncreasing(strategy: BackoffStrategy, attempt: nat)
    requires 1 <= attempt
    ensures Exact(strategy, attempt) < Exact(strategy, attempt + 1)
  {
    Pow2Grows(0, attempt - 1);
    assert Pow2(attempt) == 2 * Pow2(attempt - 1);
    JitterBound(attempt);
    JitterBound(attempt + 1);
    DoubleBeatsJitter(Pow2(attempt - 1), 0, 0);
    DoubleBeatsJitter(Pow2(attempt - 1), Jitter(attempt), Jitter(attempt + 1));
  }

  /** As long as it is exact, every strategy waits longer at each attempt, the jittered one included. */
  lemma StrictlyIncreasing(strategy: BackoffStrategy, attempt: nat)
    requires 1 <= attempt < LastExact(strategy)
    ensures BackoffDuration(strategy, attempt) < BackoffDuration(strategy, attempt + 1)
  {
    FitsIff(strategy, attempt);
    FitsIff(strategy, attempt + 1);
    ExactIncreasing(strategy, attempt);
  }

  /** All waits of `n` failed attempts: one after each attempt but the last. */
  ghost function TotalWait(strategy: BackoffStrategy, n: nat): int {
    if n <= 1 then 0 else TotalWait(strategy, n - 1) + BackoffDuration(strategy, n - 1)
  }

  ghost function ExactTotal(strategy: BackoffStrategy, n: nat): int {
    if n <= 1 then 0 else ExactTotal(strategy, n - 1) + Exact(strategy, n - 1)
  }

  lemma {:induction false} TotalFits(strategy: BackoffStrategy, n: nat)
    requires 1 <= n <= LastExact(strategy) + 1
    ensures TotalWait(strategy, n) == ExactTotal(strategy, n)
  {
    if n > 1 {
      TotalFits(strategy, n - 1);
      FitsIff(strategy, n - 1);
    }
  }

  lemma {:induction false} ExactLinear(n: nat)
    requires n >= 1
    ensures 2 * ExactTotal(Linear, n) == BASE * (n * (n - 1))
  {
    if n > 1 {
      ExactLinear(n - 1);
      assert n * (n - 1) == (n - 1) * (n - 2) + 2 * (n - 1);
    }
  }

  lemma {:induction false} ExactExponential(n: nat)
    requires n >= 1
    ensures ExactTotal(Exponential, n) == BASE * (Pow2(n - 1) - 1)
  {
    if n > 1 {
      ExactExponential(n - 1);
      assert Pow2(n - 1) == 2 * Pow2(n - 2);
    }
  }

  lemma {:induction false} ExactJittered(n: nat)
    requires n >= 1
    ensures 0 <= ExactTotal(ExponentialJitter, n) - ExactTotal(Exponential, n) <= 99 * MILLISECOND * (n - 1)
  {
    if n > 1 {
      ExactJittered(n - 1);
      JitterBound(n - 1);
      OneMoreJitter(n - 1);
    }
  }

  lemma OneMoreJitter(a: nat)
    requires a >= 1
    ensures Exact(ExponentialJitter, a) - Exact(Exponential, a) == Jitter(a)
  {}

  /** The waits of `n` attempts add up to 100ms * n * (n - 1) / 2. */
  lemma LinearTotal(n: nat)
    requires 1 <= n <= LastExact(Linear) + 1
    ensures 2 * TotalWait(Linear, n) == BASE * (n * (n - 1))
  {
    TotalFits(Linear, n);
    ExactLinear(n);
  }

  /** The waits of `n` attempts add up to 100ms * (2^(n - 1) - 1). */
  lemma ExponentialTotal(n: nat)
    requires 1 <= n <= 38
    ensures TotalWait(Exponential, n) == BASE * (Pow2(n - 1) - 1)
  {
    TotalFits(Exponential, n);
    ExactExponential(n);
  }

  /** Jitter adds at most 99ms per wait. */
  lemma JitteredTotal(n: nat)
    requires 1 <= n <= 38
    ensures 0 <= TotalWait(ExponentialJitter, n) - TotalWait(Exponential, n) <= 99 * MILLISECOND * (n - 1)
  {
    TotalFits(Exponential, n);
    TotalFits(ExponentialJitter, n);
    ExactJittered(n);
  }
}
