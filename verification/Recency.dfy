/** How much each interval and each block of the window counts in the retarget.
 */
module Recency {
  import opened Arithmetic
  import opened Base
  import opened Difficulty

  // --- Weights ---

  /** The weights of n intervals are 1 to n. */
  lemma {:induction false} WeightTotalExactly(n: nat)
    ensures 2 * WeightTotal(n) == n * (n + 1)
  {
    if n > 0 {
      WeightTotalExactly(n - 1);
    }
  }

  /** The windows have the same intervals, but for the i-th, slower by t. */
  ghost predicate SlowerAt(w: seq<Block>, v: seq<Block>, i: nat, t: int) {
    && |w| == |v| && i + 1 < |w|
    && Interval(v, i) == Interval(w, i) + t
    && forall k | 0 <= k < |w| - 1 && k != i :: Interval(v, k) == Interval(w, k)
  }

  /** An interval counts as often as it stands in the window, the oldest once: t
      seconds more in the i-th raise the weighted sum by t times its place. */
  lemma {:induction false} SlowerRaises(w: seq<Block>, v: seq<Block>, i: nat, t: int, n: nat)
    requires SlowerAt(w, v, i, t) && n < |w|
    ensures WeightedSum(v, n) == WeightedSum(w, n) + if i < n then t * (i + 1) else 0
  {
    hide Interval;
    if n > 0 {
      SlowerRaises(w, v, i, t, n - 1);
      if i == n - 1 {
        Distributes(Interval(w, i), t, n);
      }
    }
  }

  lemma Distributes(a: int, b: int, n: int)
    ensures (a + b) * n == a * n + b * n
  {
  }

  /** The windows have the same intervals, but for t seconds that have moved from
      the i-th to the j-th. */
  ghost predicate MovedTo(w: seq<Block>, v: seq<Block>, i: nat, j: nat, t: int) {
    && |w| == |v| && i + 1 < |w| && j + 1 < |w| && i != j
    && Interval(v, i) == Interval(w, i) - t && Interval(v, j) == Interval(w, j) + t
    && forall k | 0 <= k < |w| - 1 && k != i && k != j :: Interval(v, k) == Interval(w, k)
  }

  /** Recent intervals count more: moving t seconds from interval i to interval j
      raises the weighted sum by t times the distance. */
  lemma {:induction false} MovedRaises(w: seq<Block>, v: seq<Block>, i: nat, j: nat, t: int, n: nat)
    requires MovedTo(w, v, i, j, t) && n < |w|
    ensures WeightedSum(v, n)
            == WeightedSum(w, n) + (if j < n then t * (j + 1) else 0) - if i < n then t * (i + 1) else 0
  {
    hide Interval;
    if n > 0 {
      MovedRaises(w, v, i, j, t, n - 1);
      Distributes(Interval(w, n - 1), Interval(v, n - 1) - Interval(w, n - 1), n);
      Distributes(t, -t, n);
    }
  }

  lemma RecencyLaw(w: seq<Block>, v: seq<Block>, i: nat, j: nat, t: int)
    requires MovedTo(w, v, i, j, t)
    ensures WeightedSum(v, |w| - 1) == WeightedSum(w, |w| - 1) + t * (j - i)
  {
    MovedRaises(w, v, i, j, t, |w| - 1);
    Distributes(j + 1, -(i + 1), t);
  }

  // --- Exchanging two intervals ---

  /** The second chain is the first with intervals i and j of the window exchanged;
      everything else that the retarget looks at is the same. */
  ghost predicate Exchanged(blocks: seq<Block>, others: seq<Block>, i: nat, j: nat, now: nat, now': nat) {
    var w, v := Window(blocks), Window(others);
    && |w| == |v| && i < j && j + 1 < |w|
    && (forall k | 0 <= k < |w| :: w[k].header.difficulty == v[k].header.difficulty)
    && Interval(v, i) == Interval(w, j) && Interval(v, j) == Interval(w, i)
    && (forall k | 0 <= k < |w| - 1 && k != i && k != j :: Interval(v, k) == Interval(w, k))
    && Stalled(w, now) == Stalled(v, now')
  }

  /** Of two chains that differ by exchanging two intervals, the one with the slower
      interval later never has the higher retarget. */
  lemma SlowerLater(blocks: seq<Block>, others: seq<Block>, i: nat, j: nat, now: nat, now': nat)
    requires Exchanged(blocks, others, i, j, now, now')
    requires Interval(Window(blocks), i) >= Interval(Window(blocks), j)
    ensures FullRetarget(others, now') <= FullRetarget(blocks, now)
    ensures AverageDifficulty(Window(blocks)) * 30 / 7 < U64_LIMIT ==>
              NextDifficulty(others, now') <= NextDifficulty(blocks, now)
  {
    hide AverageDifficulty, WeightedInterval, Retarget, Stalled, Window, Interval, CastU64;
    var w, v := Window(blocks), Window(others);
    ExchangedSlower(w, v, i, j);
    SameAverage(w, v);
    AverageFits(w);
    WeightedIntervalBounds(w);
    SlowerFits(AverageDifficulty(w), WeightedInterval(w), WeightedInterval(v), Stalled(w, now));
  }

  lemma SlowerFits(average: u64, fast: nat, slow: nat, stalled: bool)
    requires 7 <= fast <= 180 && fast <= slow
    ensures Retarget(average, slow, stalled) <= Retarget(average, fast, stalled)
    ensures average * 30 / 7 < U64_LIMIT ==>
              CastU64(Retarget(average, slow, stalled)) <= CastU64(Retarget(average, fast, stalled))
  {
    hide Retarget;
    RetargetSlower(average, fast, slow, stalled);
    RetargetBetween(average, fast, stalled);
  }

  lemma ExchangedSlower(w: seq<Block>, v: seq<Block>, i: nat, j: nat)
    requires |w| == |v| && i < j && j + 1 < |w|
    requires Interval(v, i) == Interval(w, j) && Interval(v, j) == Interval(w, i) && Interval(w, i) >= Interval(w, j)
    requires forall k | 0 <= k < |w| - 1 && k != i && k != j :: Interval(v, k) == Interval(w, k)
    ensures 1 <= WeightedInterval(w) <= WeightedInterval(v)
  {
    hide Interval, WeightedSum, WeightTotal;
    var n, t := |w| - 1, Interval(w, i) - Interval(w, j);
    RecencyLaw(w, v, i, j, t);
    MulMonotone(0, j - i, t);
    DivMonotone(WeightedSum(w, n), WeightedSum(v, n), WeightTotal(n), WeightTotal(n));
  }

  /** A pair where it is strictly lower: three blocks of difficulty 100, after 10
      and 100 more seconds, and after 100 and 10 more. */
  lemma SlowerLaterStrict(blocks: seq<Block>, others: seq<Block>)
    requires |blocks| == |others| == 3
    requires forall k | 0 <= k < 3 :: blocks[k].header.difficulty == others[k].header.difficulty == 100
    requires blocks[0].header.timestamp == 0 && others[0].header.timestamp == 0
    requires blocks[1].header.timestamp == 10 && others[1].header.timestamp == 100
    requires blocks[2].header.timestamp == 110 && others[2].header.timestamp == 110
    ensures NextDifficulty(blocks, 140) == 42 && NextDifficulty(others, 140) == 75
  {
    hide NextDifficulty;
    ThreeBlocks(blocks, 10, 100, 140);
    ThreeBlocks(others, 100, 10, 140);
    Hundred(70);
    Hundred(40);
  }

  lemma Hundred(interval: nat)
    requires interval == 40 || interval == 70
    ensures Fitted(100, interval, false) == if interval == 40 then 75 else 42
  {
  }

  lemma ThreeBlocks(w: seq<Block>, first: nat, second: nat, now: nat)
    requires |w| == 3 && Interval(w, 0) == first && Interval(w, 1) == second && now <= w[2].header.timestamp + 120
    requires w[1].header.difficulty == 100 && w[2].header.difficulty == 100
    ensures (first + 2 * second) / 3 >= 7
    ensures NextDifficulty(w, now) == Fitted(100, (first + 2 * second) / 3, false)
  {
    hide AverageDifficulty, WeightedInterval, Interval, Retarget, Fitted;
    assert Window(w) == w;
    TwoIntervals(w, first, second);
    WeightedIntervalBounds(w);
    RetargetFits(100, WeightedInterval(w), false);
  }

  lemma TwoIntervals(w: seq<Block>, first: nat, second: nat)
    requires |w| == 3 && Interval(w, 0) == first && Interval(w, 1) == second
    requires w[1].header.difficulty == 100 && w[2].header.difficulty == 100
    ensures WeightedInterval(w) == (first + 2 * second) / 3 && AverageDifficulty(w) == 100
  {
    hide Interval;
    assert WeightedSum(w, 0) == 0 && WeightTotal(0) == 0 && DifficultySum(w, 0) == 0;
    assert WeightedSum(w, 1) == first && WeightedSum(w, 2) == first + second * 2;
    assert WeightTotal(1) == 1 && WeightTotal(2) == 3;
    assert DifficultySum(w, 1) == 100 && DifficultySum(w, 2) == 200;
  }

  /** Thirty seconds' worth of an average over an interval, a quarter off after a
      stall, and at least one. */
  function Fitted(average: nat, interval: nat, stalled: bool): nat
    requires interval >= 1
  {
    var scaled := average * 30 / interval;
    var shifted := if stalled then scaled * 3 / 4 else scaled;
    if shifted == 0 then 1 else shifted
  }

  lemma RetargetFits(average: u64, interval: nat, stalled: bool)
    requires interval >= 7 && average * 30 / 7 < U64_LIMIT
    ensures Retarget(average, interval, stalled) == Fitted(average, interval, stalled) < U64_LIMIT
  {
    RetargetUnsaturated(average, interval, stalled);
    DivMonotone(average * 30, average * 30, 7, interval);
  }

  // --- Blocks ---

  /** With two blocks there is one interval, and the difficulty of the older block
      does not count. */
  lemma TwoBlocks(a: Block, b: Block, now: nat)
    requires b.header.difficulty * 30 / 7 < 0x1_0000_0000_0000_0000
    ensures var waited := SaturatingSub(b.header.timestamp, a.header.timestamp);
            var interval := if waited < 7 then 7 else if waited > 180 then 180 else waited;
            NextDifficulty([a, b], now) == Fitted(b.header.difficulty, interval, now > b.header.timestamp + 120)
  {
    hide AverageDifficulty, WeightedInterval, Interval, Retarget, Fitted;
    OneInterval(a, b);
    RetargetFits(b.header.difficulty, Interval([a, b], 0), now > b.header.timestamp + 120);
  }

  lemma OneInterval(a: Block, b: Block)
    ensures var w := [a, b];
            var waited := SaturatingSub(b.header.timestamp, a.header.timestamp);
            && Interval(w, 0) == (if waited < 7 then 7 else if waited > 180 then 180 else waited)
            && WeightedInterval(w) == Interval(w, 0) && AverageDifficulty(w) == b.header.difficulty
  {
    var w := [a, b];
    assert WeightedSum(w, 0) == 0 && WeightTotal(0) == 0 && DifficultySum(w, 0) == 0;
  }

  /** The window reaches back to the twentieth interval: in twenty-one blocks at the
      target pace, the one above the oldest raises the average by its share. */
  lemma OldestCounts(blocks: seq<Block>, d: u64, now: nat)
    requires |blocks| == 21 && 1 <= d && d + 20 < U64_LIMIT
    requires forall k | 0 <= k < 21 :: blocks[k].header.difficulty == if k == 1 then d + 20 else d
    requires forall k | 0 <= k < 20 :: blocks[k + 1].header.timestamp == blocks[k].header.timestamp + 30
    requires now <= blocks[20].header.timestamp + 120
    ensures NextDifficulty(blocks, now) == d + 1
  {
    hide WeightedSum, WeightTotal, DifficultySum, Retarget;
    assert Window(blocks) == blocks;
    PacedSums(blocks, 20, d);
    DivExactly(WeightedSum(blocks, 20), WeightTotal(20), 30);
    DivExactly(DifficultySum(blocks, 20), 20, d + 1);
    SteadyRetarget(d + 1);
  }

  lemma {:induction false} PacedSums(w: seq<Block>, n: nat, d: nat)
    requires 0 < n < |w|
    requires forall k | 0 <= k < |w| :: w[k].header.difficulty == if k == 1 then d + 20 else d
    requires forall k | 0 <= k < |w| - 1 :: w[k + 1].header.timestamp == w[k].header.timestamp + 30
    ensures WeightedSum(w, n) == 30 * WeightTotal(n) && DifficultySum(w, n) == d * n + 20
  {
    assert w[n].header.timestamp == w[n - 1].header.timestamp + 30;
    assert Interval(w, n - 1) == 30;
    if n > 1 {
      PacedSums(w, n - 1, d);
      assert d * n == d * (n - 1) + d;
    } else {
      assert WeightedSum(w, 0) == 0 && WeightTotal(0) == 0 && DifficultySum(w, 0) == 0;
    }
  }

  /** Once two minutes have passed since the last block, the retarget is three
      quarters of what it was until then. */
  lemma StallShift(blocks: seq<Block>, now: nat, later: nat)
    requires |blocks| >= 2 && now <= blocks[|blocks| - 1].header.timestamp + 120 < later
    ensures FullRetarget(blocks, later) == Max(FullRetarget(blocks, now) * 3 / 4, 1)
  {
    hide AverageDifficulty, WeightedInterval, Interval;
    var w := Window(blocks);
    AverageFits(w);
    WeightedIntervalBounds(w);
    RetargetUnsaturated(AverageDifficulty(w), WeightedInterval(w), true);
    RetargetUnsaturated(AverageDifficulty(w), WeightedInterval(w), false);
  }
}
