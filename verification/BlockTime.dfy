/** The control of the block time: how the drift from five seconds per block develops. */
module BlockTime {

  const SECOND := 1_000_000_000
  const TARGET := 5 * SECOND

  /** The block time the program aims at next, kept within `delta` of `goal`. */
  function NextBlockTime(height: nat, goal: int, sinceGenesis: int, delta: int): int {
    var next := TARGET * (height + 1) - sinceGenesis;
    if next < goal - delta then goal - delta else if next > goal + delta then goal + delta else next
  }

  /** `calculateBlockTimeBuffer` */
  function Buffer(height: nat, goal: int, sinceGenesis: int, untilNow: int, delta: int): (b: int)
    ensures b >= 0
  {
    var buffer := NextBlockTime(height, goal, sinceGenesis, delta) - untilNow;
    if buffer < 0 then 0 else buffer
  }

  /** How far the chain is behind its schedule of one block every five seconds. */
  function Drift(height: nat, sinceGenesis: int): int { sinceGenesis - TARGET * height }

  /** The drift one block later, if the block takes exactly the time aimed at. */
  function NextDrift(goal: int, delta: int, drift: int): int {
    drift + NextBlockTime(0, goal, drift, delta) - TARGET
  }

  function DriftAfter(goal: int, delta: int, drift: int, blocks: nat): int {
    if blocks == 0 then drift else NextDrift(goal, delta, DriftAfter(goal, delta, drift, blocks - 1))
  }

  /** A block that waits out its buffer takes the time aimed at, or the time it already took. */
  lemma BufferFillsBlock(height: nat, goal: int, sinceGenesis: int, untilNow: int, delta: int)
    ensures var aim := NextBlockTime(height, goal, sinceGenesis, delta);
            var taken := untilNow + Buffer(height, goal, sinceGenesis, untilNow, delta);
            && taken == (if untilNow > aim then untilNow else aim)
            && (untilNow <= aim ==>
                  Drift(height + 1, sinceGenesis + taken) == NextDrift(goal, delta, Drift(height, sinceGenesis)))
  {
    assert TARGET * (height + 1) == TARGET * height + TARGET;
  }

  /** The block time stays within `delta` of the goal. */
  lemma BlockTimeInRange(height: nat, goal: int, sinceGenesis: int, delta: nat)
    ensures goal - delta <= NextBlockTime(height, goal, sinceGenesis, delta) <= goal + delta
  {
  }

  function Abs(x: int): nat { if x < 0 then -x else x }

  function Shrunk(size: nat, delta: nat, blocks: nat): nat {
    if size <= delta * blocks then 0 else size - delta * blocks
  }

  /** With a goal of five seconds the drift shrinks by `delta` each block until it is zero, and keeps its sign. */
  lemma {:induction false} DriftShrinks(delta: nat, drift: int, blocks: nat)
    ensures Abs(DriftAfter(TARGET, delta, drift, blocks)) == Shrunk(Abs(drift), delta, blocks)
    ensures drift >= 0 ==> DriftAfter(TARGET, delta, drift, blocks) >= 0
    ensures drift <= 0 ==> DriftAfter(TARGET, delta, drift, blocks) <= 0
  {
    if blocks > 0 {
      DriftShrinks(delta, drift, blocks - 1);
      var before := DriftAfter(TARGET, delta, drift, blocks - 1);
      assert delta * blocks == delta * (blocks - 1) + delta;
      assert Abs(NextDrift(TARGET, delta, before)) == if Abs(before) <= delta then 0 else Abs(before) - delta;
    }
  }

  function DivideUp(x: nat, d: nat): nat
    requires d > 0
  {
    (x + d - 1) / d
  }

  lemma DivideUpIs(x: nat, d: nat, k: nat)
    requires d > 0
    ensures k >= DivideUp(x, d) <==> x <= d * k
  {
    var q, r := (x + d - 1) / d, (x + d - 1) % d;
    assert x + d - 1 == d * q + r;
    if k >= q {
      assert d * k >= d * q;
    } else {
      assert d * k <= d * (q - 1) == d * q - d;
    }
  }

  /** The drift is gone from the block number ceil(|drift| / delta) on, and not before. */
  lemma ConvergesInExactly(delta: nat, drift: int, blocks: nat)
    requires delta > 0
    ensures DriftAfter(TARGET, delta, drift, blocks) == 0 <==> blocks >= DivideUp(Abs(drift), delta)
  {
    DriftShrinks(delta, drift, blocks);
    DivideUpIs(Abs(drift), delta, blocks);
  }

  /* ---- any goal ---- */

  /** From every start the drift vanishes in the end. */
  ghost predicate Converges(goal: int, delta: int) {
    forall drift :: VanishesFrom(goal, delta, drift)
  }

  ghost predicate VanishesFrom(goal: int, delta: int, drift: int) {
    exists k: nat :: ZeroFrom(goal, delta, drift, k)
  }

  ghost predicate ZeroFrom(goal: int, delta: int, drift: int, k: nat) {
    forall j: nat :: j >= k ==> DriftAfter(goal, delta, drift, j) == 0
  }

  lemma {:induction false} Shift(goal: int, delta: int, drift: int, j: nat)
    ensures DriftAfter(goal, delta, drift, j + 1) == DriftAfter(goal, delta, NextDrift(goal, delta, drift), j)
  {
    if j > 0 {
      Shift(goal, delta, drift, j - 1);
    }
  }

  lemma {:induction false} StaysZero(goal: int, delta: int, j: nat)
    requires goal - delta <= TARGET <= goal + delta
    ensures DriftAfter(goal, delta, 0, j) == 0
  {
    if j > 0 {
      StaysZero(goal, delta, j - 1);
    }
  }

  lemma {:induction false} Vanishes(goal: int, delta: int, drift: int)
    requires goal - delta < TARGET < goal + delta
    ensures VanishesFrom(goal, delta, drift)
    decreases Abs(drift)
  {
    if drift == 0 {
      forall j: nat ensures DriftAfter(goal, delta, drift, j) == 0 {
        StaysZero(goal, delta, j);
      }
      assert ZeroFrom(goal, delta, drift, 0);
    } else {
      var next := NextDrift(goal, delta, drift);
      Vanishes(goal, delta, next);
      var k: nat :| ZeroFrom(goal, delta, next, k);
      forall j: nat | j >= k + 1 ensures DriftAfter(goal, delta, drift, j) == 0 {
        Shift(goal, delta, drift, j - 1);
      }
      assert ZeroFrom(goal, delta, drift, k + 1);
    }
  }

  /** Blocks that can never be faster than the target never catch up, and the other way round. */
  lemma {:induction false} NeverCatchesUp(goal: int, delta: nat, j: nat)
    ensures goal - delta >= TARGET ==> DriftAfter(goal, delta, 1, j) >= 1
    ensures goal + delta <= TARGET ==> DriftAfter(goal, delta, -1, j) <= -1
  {
    if j > 0 {
      NeverCatchesUp(goal, delta, j - 1);
    }
  }

  /**
   The target is fixed at five seconds whatever the goal: the drift vanishes from every start exactly
   when five seconds lie strictly within `delta` of the goal.
   */
  lemma ConvergesIff(goal: int, delta: nat)
    ensures Converges(goal, delta) <==> goal - delta < TARGET < goal + delta
  {
    if goal - delta < TARGET < goal + delta {
      forall drift ensures VanishesFrom(goal, delta, drift) {
        Vanishes(goal, delta, drift);
      }
    } else {
      var start := if goal - delta >= TARGET then 1 else -1;
      forall k: nat ensures !ZeroFrom(goal, delta, start, k) {
        NeverCatchesUp(goal, delta, k);
      }
      assert !VanishesFrom(goal, delta, start);
    }
  }

  /** A goal of six seconds with a delta of one: a nanosecond of drift is never made up for. */
  lemma SixSecondsNeverCatchUp(blocks: nat)
    ensures DriftAfter(6 * SECOND, SECOND, 1, blocks) != 0 && !Converges(6 * SECOND, SECOND)
  {
    NeverCatchesUp(6 * SECOND, SECOND, blocks);
    ConvergesIff(6 * SECOND, SECOND);
  }
}
