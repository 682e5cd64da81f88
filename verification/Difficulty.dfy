/** Difficulty retargeting: a linearly weighted average of the last twenty
    clamped block intervals, with a stall downshift.
 */
module Difficulty {
  import opened Arithmetic
  import opened Base

  function Max(a: nat, b: nat): nat {
    if a >= b then a else b
  }

  function Min(a: nat, b: nat): nat {
    if a <= b then a else b
  }

  function SaturatingSub(a: nat, b: nat): nat {
    if a >= b then a - b else 0
  }

  function SaturatingMul128(a: nat, b: nat): nat {
    Min(a * b, U128_LIMIT - 1)
  }

  /** The last RETARGET_WINDOW + 1 blocks. */
  function Window(blocks: seq<Block>): (w: seq<Block>)
    ensures |w| == Min(|blocks|, RETARGET_WINDOW + 1)
  {
    if |blocks| > RETARGET_WINDOW + 1 then blocks[|blocks| - (RETARGET_WINDOW + 1)..] else blocks
  }

  /** The i-th interval, clamped against timestamp manipulation. */
  function Interval(w: seq<Block>, i: nat): (t: nat)
    requires i + 1 < |w|
    ensures 7 <= t <= 180
  {
    Min(Max(SaturatingSub(w[i + 1].header.timestamp, w[i].header.timestamp), LWMA_MIN_INTERVAL_SECS),
        LWMA_MAX_INTERVAL_SECS)
  }

  function WeightedSum(w: seq<Block>, n: nat): nat
    requires n < |w|
  {
    if n == 0 then 0 else WeightedSum(w, n - 1) + Interval(w, n - 1) * n
  }

  function WeightTotal(n: nat): (t: nat)
    ensures n >= 1 ==> t >= 1
  {
    if n == 0 then 0 else WeightTotal(n - 1) + n
  }

  function DifficultySum(w: seq<Block>, n: nat): nat
    requires n < |w|
  {
    if n == 0 then 0 else DifficultySum(w, n - 1) + w[n].header.difficulty
  }

  function WeightedInterval(w: seq<Block>): nat
    requires |w| >= 2
  {
    Max(WeightedSum(w, |w| - 1) / WeightTotal(|w| - 1), 1)
  }

  function AverageDifficulty(w: seq<Block>): nat
    requires |w| >= 2
  {
    DifficultySum(w, |w| - 1) / (|w| - 1)
  }

  predicate Stalled(w: seq<Block>, now: nat)
    requires |w| >= 2
  {
    SaturatingSub(now, w[|w| - 1].header.timestamp) > TARGET_BLOCK_TIME * STALL_MULTIPLIER
  }

  /** The retarget from an average difficulty and a weighted interval. */
  function Retarget(average: nat, interval: nat, stalled: bool): nat
    requires interval >= 1
  {
    var scaled := SaturatingMul128(average, TARGET_BLOCK_TIME) / interval;
    Max(if stalled then SaturatingMul128(scaled, 3) / 4 else scaled, DIFFICULTY_FLOOR)
  }

  /** The retarget before it is cut down to 64 bits. */
  function FullRetarget(blocks: seq<Block>, now: nat): (d: nat)
    ensures d >= DIFFICULTY_FLOOR
  {
    if |blocks| < 2 then DIFFICULTY_FLOOR
    else
      var w := Window(blocks);
      Retarget(AverageDifficulty(w), WeightedInterval(w), Stalled(w, now))
  }

  function CastU64(n: nat): u64 {
    n % U64_LIMIT
  }

  /** The required difficulty; the final cast keeps the low 64 bits. */
  function NextDifficulty(blocks: seq<Block>, now: nat): u64 {
    CastU64(FullRetarget(blocks, now))
  }

  /** One pass over the intervals, oldest first, with growing weights. */
  method AccumulateWindow(window: seq<Block>) returns (weightedSum: nat, weightTotal: nat, sumDifficulty: nat)
    requires |window| >= 2
    ensures weightedSum == WeightedSum(window, |window| - 1)
    ensures weightTotal == WeightTotal(|window| - 1)
    ensures sumDifficulty == DifficultySum(window, |window| - 1)
  {
    weightedSum, weightTotal, sumDifficulty := 0, 0, 0;
    for i := 0 to |window| - 1
      invariant weightedSum == WeightedSum(window, i)
      invariant weightTotal == WeightTotal(i)
      invariant sumDifficulty == DifficultySum(window, i)
    {
      var raw := SaturatingSub(window[i + 1].header.timestamp, window[i].header.timestamp);
      var clamped := Min(Max(raw, LWMA_MIN_INTERVAL_SECS), LWMA_MAX_INTERVAL_SECS);
      var weight := i + 1;
      weightedSum := weightedSum + clamped * weight;
      weightTotal := weightTotal + weight;
      sumDifficulty := sumDifficulty + window[i + 1].header.difficulty;
    }
  }

  method CalculateNextDifficulty(blocks: seq<Block>, now: nat) returns (d: u64)
    ensures d == NextDifficulty(blocks, now)
  {
    if |blocks| < 2 {
      return DIFFICULTY_FLOOR;
    }
    var window := if |blocks| > RETARGET_WINDOW + 1 then blocks[|blocks| - (RETARGET_WINDOW + 1)..] else blocks;
    var interval, average := ObserveWindow(window);
    var waited := SaturatingSub(now, window[|window| - 1].header.timestamp);
    var next := ScaleAndShift(average, interval, waited > TARGET_BLOCK_TIME * STALL_MULTIPLIER);
    return CastU64(next);
  }

  method ObserveWindow(window: seq<Block>) returns (interval: nat, average: nat)
    requires |window| >= 2
    ensures interval == WeightedInterval(window) && interval >= 1
    ensures average == AverageDifficulty(window)
  {
    hide WeightedSum, WeightTotal, DifficultySum;
    var weightedSum, weightTotal, sumDifficulty := AccumulateWindow(window);
    interval := Max(weightedSum / weightTotal, 1);
    average := sumDifficulty / (|window| - 1);
  }

  method ScaleAndShift(average: nat, interval: nat, stalled: bool) returns (next: nat)
    requires interval >= 1
    ensures next == Retarget(average, interval, stalled)
  {
    next := SaturatingMul128(average, TARGET_BLOCK_TIME) / interval;
    if stalled {
      next := SaturatingMul128(next, 3) / 4;
    }
    next := Max(next, DIFFICULTY_FLOOR);
  }

  // --- Bounds ---

  lemma {:induction false} WeightedSumBounds(w: seq<Block>, n: nat)
    requires n < |w|
    ensures 7 * WeightTotal(n) <= WeightedSum(w, n) <= 180 * WeightTotal(n)
  {
    if n != 0 {
      WeightedSumBounds(w, n - 1);
      MulMonotone(7, Interval(w, n - 1), n);
      MulMonotone(Interval(w, n - 1), 180, n);
    }
  }

  /** The weighted interval always lies between 7 and 180 seconds. */
  lemma WeightedIntervalBounds(w: seq<Block>)
    requires |w| >= 2
    ensures 7 <= WeightedInterval(w) <= 180
  {
    WeightedSumBounds(w, |w| - 1);
    DivBetween(WeightedSum(w, |w| - 1), WeightTotal(|w| - 1), 7, 180);
  }

  lemma {:induction false} DifficultySumBounds(w: seq<Block>, n: nat)
    requires n < |w|
    ensures DifficultySum(w, n) <= (U64_LIMIT - 1) * n
  {
    if n != 0 {
      DifficultySumBounds(w, n - 1);
    }
  }

  lemma AverageFits(w: seq<Block>)
    requires |w| >= 2
    ensures AverageDifficulty(w) < U64_LIMIT
  {
    DifficultySumBounds(w, |w| - 1);
    DivBetween(DifficultySum(w, |w| - 1), |w| - 1, 0, U64_LIMIT - 1);
  }

  /** Neither saturating multiplication ever saturates. */
  lemma RetargetUnsaturated(average: nat, interval: nat, stalled: bool)
    requires average < U64_LIMIT && interval >= 1
    ensures Retarget(average, interval, stalled)
            == Max(if stalled then average * 30 / interval * 3 / 4 else average * 30 / interval, 1)
  {
    DivMonotone(average * 30, average * 30, 1, interval);
  }

  lemma RetargetBetween(average: nat, interval: nat, stalled: bool)
    requires average < U64_LIMIT && 7 <= interval <= 180
    ensures Max(1, average * 30 / 180 * 3 / 4) <= Retarget(average, interval, stalled) <= Max(1, average * 30 / 7)
  {
    RetargetUnsaturated(average, interval, stalled);
    DivMonotone(average * 30, average * 30, 7, interval);
    DivMonotone(average * 30, average * 30, interval, 180);
  }

  /** Whenever the fastest possible retarget fits 64 bits, the required
      difficulty is at most the average scaled by 30/7 and, stall included, at
      least three quarters of the average scaled by 30/180. */
  lemma RetargetBounds(blocks: seq<Block>, now: nat)
    requires |blocks| >= 2
    requires AverageDifficulty(Window(blocks)) * 30 / 7 < U64_LIMIT
    ensures var average := AverageDifficulty(Window(blocks));
            Max(1, average * 30 / 180 * 3 / 4) <= NextDifficulty(blocks, now) <= Max(1, average * 30 / 7)
  {
    hide AverageDifficulty, WeightedInterval, Retarget, Stalled;
    var w := Window(blocks);
    var average, interval := AverageDifficulty(w), WeightedInterval(w);
    AverageFits(w);
    WeightedIntervalBounds(w);
    RetargetBetween(average, interval, Stalled(w, now));
  }

  // --- Monotonicity, locality, fixed point ---

  lemma {:induction false} WeightedSumMonotone(w: seq<Block>, v: seq<Block>, n: nat)
    requires n < |w| && |w| == |v|
    requires forall i | 0 <= i < |w| - 1 :: Interval(w, i) <= Interval(v, i)
    ensures WeightedSum(w, n) <= WeightedSum(v, n)
  {
    if n != 0 {
      WeightedSumMonotone(w, v, n - 1);
      MulMonotone(Interval(w, n - 1), Interval(v, n - 1), n);
    }
  }

  lemma {:induction false} DifficultySumSame(w: seq<Block>, v: seq<Block>, n: nat)
    requires n < |w| && |w| == |v|
    requires forall i | 0 <= i < |w| :: w[i].header.difficulty == v[i].header.difficulty
    ensures DifficultySum(w, n) == DifficultySum(v, n)
  {
    if n != 0 {
      DifficultySumSame(w, v, n - 1);
    }
  }

  /** Slower windows never get harder: with equal difficulties and equal stall
      status, longer intervals give an equal or lower retarget. Whenever the
      fastest possible retarget fits 64 bits, so does the required difficulty. */
  lemma RetargetAntitone(fast: seq<Block>, slow: seq<Block>, now: nat, now': nat)
    requires |fast| >= 2 && |slow| >= 2 && |Window(fast)| == |Window(slow)|
    requires forall i | 0 <= i < |Window(fast)| ::
               Window(fast)[i].header.difficulty == Window(slow)[i].header.difficulty
    requires forall i | 0 <= i < |Window(fast)| - 1 :: Interval(Window(fast), i) <= Interval(Window(slow), i)
    requires Stalled(Window(fast), now) == Stalled(Window(slow), now')
    ensures FullRetarget(fast, now) >= FullRetarget(slow, now')
    ensures AverageDifficulty(Window(fast)) * 30 / 7 < U64_LIMIT ==>
              NextDifficulty(fast, now) >= NextDifficulty(slow, now')
  {
    hide AverageDifficulty, WeightedInterval, Retarget, Stalled, Window;
    var f, g := Window(fast), Window(slow);
    SlowerInterval(f, g);
    SameAverage(f, g);
    AverageFits(f);
    RetargetSlower(AverageDifficulty(f), WeightedInterval(f), WeightedInterval(g), Stalled(f, now));
    WeightedIntervalBounds(f);
    RetargetBetween(AverageDifficulty(f), WeightedInterval(f), Stalled(f, now));
  }

  lemma SlowerInterval(fast: seq<Block>, slow: seq<Block>)
    requires 2 <= |fast| == |slow|
    requires forall i | 0 <= i < |fast| - 1 :: Interval(fast, i) <= Interval(slow, i)
    ensures 1 <= WeightedInterval(fast) <= WeightedInterval(slow)
  {
    var n := |fast| - 1;
    WeightedSumMonotone(fast, slow, n);
    DivMonotone(WeightedSum(fast, n), WeightedSum(slow, n), WeightTotal(n), WeightTotal(n));
  }

  lemma SameAverage(w: seq<Block>, v: seq<Block>)
    requires 2 <= |w| == |v|
    requires forall i | 0 <= i < |w| :: w[i].header.difficulty == v[i].header.difficulty
    ensures AverageDifficulty(w) == AverageDifficulty(v)
  {
    DifficultySumSame(w, v, |w| - 1);
  }

  lemma RetargetSlower(average: nat, fast: nat, slow: nat, stalled: bool)
    requires average < U64_LIMIT && 1 <= fast <= slow
    ensures Retarget(average, fast, stalled) >= Retarget(average, slow, stalled)
  {
    RetargetUnsaturated(average, fast, stalled);
    RetargetUnsaturated(average, slow, stalled);
    DivMonotone(average * 30, average * 30, fast, slow);
  }

  /** Only the last twenty-one blocks matter. */
  lemma RetargetLocal(blocks: seq<Block>, others: seq<Block>, now: nat)
    requires |blocks| >= 21 && |others| >= 21 && blocks[|blocks| - 21..] == others[|others| - 21..]
    ensures NextDifficulty(blocks, now) == NextDifficulty(others, now)
  {
    assert Window(blocks) == blocks[|blocks| - 21..] && Window(others) == others[|others| - 21..];
  }

  lemma {:induction false} SteadySums(w: seq<Block>, n: nat, d: nat)
    requires n < |w|
    requires forall i | 0 <= i < |w| :: w[i].header.difficulty == d
    requires forall i | 0 <= i < |w| - 1 :: Interval(w, i) == TARGET_BLOCK_TIME
    ensures WeightedSum(w, n) == TARGET_BLOCK_TIME * WeightTotal(n)
    ensures DifficultySum(w, n) == d * n
  {
    if n != 0 {
      SteadySums(w, n - 1, d);
    }
  }

  /** A steady chain of difficulty d at the target pace keeps difficulty d. */
  lemma RetargetFixedPoint(blocks: seq<Block>, now: nat, d: u64)
    requires |blocks| >= 2 && d >= DIFFICULTY_FLOOR
    requires forall i | 0 <= i < |Window(blocks)| :: Window(blocks)[i].header.difficulty == d
    requires forall i | 0 <= i < |Window(blocks)| - 1 :: Interval(Window(blocks), i) == TARGET_BLOCK_TIME
    requires !Stalled(Window(blocks), now)
    ensures NextDifficulty(blocks, now) == d
  {
    hide AverageDifficulty, WeightedInterval, Retarget, Stalled;
    SteadyWindow(Window(blocks), d);
    SteadyRetarget(d);
  }

  lemma SteadyWindow(w: seq<Block>, d: u64)
    requires |w| >= 2
    requires forall i | 0 <= i < |w| :: w[i].header.difficulty == d
    requires forall i | 0 <= i < |w| - 1 :: Interval(w, i) == TARGET_BLOCK_TIME
    ensures WeightedInterval(w) == TARGET_BLOCK_TIME && AverageDifficulty(w) == d
  {
    var n := |w| - 1;
    SteadySums(w, n, d);
    DivBetween(WeightedSum(w, n), WeightTotal(n), TARGET_BLOCK_TIME, TARGET_BLOCK_TIME);
    DivBetween(DifficultySum(w, n), n, d, d);
  }

  lemma SteadyRetarget(d: u64)
    requires d >= DIFFICULTY_FLOOR
    ensures Retarget(d, TARGET_BLOCK_TIME, false) == d
  {
    RetargetUnsaturated(d, TARGET_BLOCK_TIME, false);
  }
}
