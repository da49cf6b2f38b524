/**
 * The coin reward of a level-up: 50 coin per level gained, plus the bonus of the
 * milestone table for the exact new level.
 */
module Reward {

  const CoinPerLevel := 50

  /** The `milestoneRewards` table: level to bonus coin. */
  const Milestones: map<int, nat> :=
    map[5 := 20, 10 := 40, 20 := 60, 30 := 80, 40 := 100, 50 := 150, 75 := 200, 100 := 300]

  /** The breakdown announced to the user on a level-up. */
  datatype Reward = Reward(
    oldLevel: int,
    newLevel: int,
    perLevelCoin: int,
    milestoneCoin: nat,
    totalCoin: int)

  /** `milestoneRewards[level]`, with 0 standing for "no entry" (every entry is positive). */
  function MilestoneBonus(level: int): (bonus: nat)
    ensures bonus > 0 <==> level in Milestones
    ensures level in Milestones ==> bonus == Milestones[level]
    ensures level < 5 || level > 100 ==> bonus == 0
  {
    if level in Milestones then Milestones[level] else 0
  }

  /** The reward for rising from `oldLevel` to `newLevel`. */
  function LevelUpReward(oldLevel: int, newLevel: int): (r: Reward)
    requires oldLevel < newLevel
    ensures r.oldLevel == oldLevel && r.newLevel == newLevel
    ensures r.perLevelCoin == CoinPerLevel * (newLevel - oldLevel) && r.perLevelCoin >= CoinPerLevel
    ensures r.milestoneCoin == MilestoneBonus(newLevel)
    ensures r.totalCoin == r.perLevelCoin + r.milestoneCoin
  {
    var levelUp := newLevel - oldLevel;
    var perLevel := levelUp * CoinPerLevel;
    var milestone := MilestoneBonus(newLevel);
    Reward(oldLevel, newLevel, perLevel, milestone, perLevel + milestone)
  }

  /**
   * The sum of the milestone bonuses of every level in `(lo, hi]`: an inclusive-range
   * reading of the table, which the handler does not use (it looks at `hi` alone).
   */
  function RangeMilestoneCoin(lo: int, hi: int): (coin: nat)
    ensures coin >= (if lo < hi then MilestoneBonus(hi) else 0)
    decreases hi - lo
  {
    if hi <= lo then 0 else RangeMilestoneCoin(lo, hi - 1) + MilestoneBonus(hi)
  }

  /** On a one-level rise the exact-level bonus and the range reading agree. */
  lemma SingleStepMilestone(lo: int)
    ensures LevelUpReward(lo, lo + 1).milestoneCoin == RangeMilestoneCoin(lo, lo + 1)
  {
    assert RangeMilestoneCoin(lo, lo) == 0;
  }

  /** A jump from 4 to 6 would skip milestone 5 and get no bonus; the range reading gives 20. */
  lemma SkippedMilestoneNotAwarded()
    ensures LevelUpReward(4, 6).milestoneCoin == 0
    ensures RangeMilestoneCoin(4, 6) == 20
  {
    assert RangeMilestoneCoin(4, 4) == 0;
    assert 6 !in Milestones;
  }

  /** Worked rewards: 1 to 2 pays 50, 4 to 5 pays 50 + 20, 99 to 100 pays 50 + 300. */
  lemma RewardExamples()
    ensures LevelUpReward(1, 2) == Reward(1, 2, 50, 0, 50)
    ensures LevelUpReward(4, 5) == Reward(4, 5, 50, 20, 70)
    ensures LevelUpReward(99, 100) == Reward(99, 100, 50, 300, 350)
  {
    assert 2 !in Milestones;
  }
}
