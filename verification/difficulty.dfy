/**
 * The difficulty formulas of the dodge game: how the spawn cadence, the
 * level shown on the scoreboard and the speed of new hazards follow from
 * the current score.
 */
module Difficulty {

  /** `self.base_speed`: pixels per tick of a hazard spawned at score 0. */
  const BaseSpeed: real := 3.0

  /** The slowest spawn cadence, in seconds (score 0). */
  const MaxSpawnInterval: real := 1.5

  /** The fastest spawn cadence, in seconds. */
  const MinSpawnInterval: real := 0.5

  /** `max(0.5, 1.5 - score / 100)`, with Python's true division. */
  function SpawnInterval(score: nat): (r: real)
    ensures MinSpawnInterval <= r <= MaxSpawnInterval
    ensures r == MinSpawnInterval || r == MaxSpawnInterval - score as real / 100.0
    ensures r >= MaxSpawnInterval - score as real / 100.0
  {
    var linear := MaxSpawnInterval - score as real / 100.0;
    if MinSpawnInterval > linear then MinSpawnInterval else linear
  }

  /** A higher score never makes hazards spawn less often. */
  lemma SpawnIntervalNonIncreasing(lower: nat, higher: nat)
    requires lower <= higher
    ensures SpawnInterval(higher) <= SpawnInterval(lower)
  {
  }

  /** From score 100 on, the cadence stays at its floor. */
  lemma SpawnIntervalFloor(score: nat)
    requires score >= 100
    ensures SpawnInterval(score) == MinSpawnInterval
  {
  }

  /** `1 + score // 100`: the level is one more than the number of whole hundreds. */
  function Level(score: nat): (level: nat)
    ensures level >= 1
    ensures 100 * (level - 1) <= score < 100 * level
  {
    1 + score / 100
  }

  /** `1 + score / 50`: the factor by which a new hazard outpaces `BaseSpeed`. */
  function SpeedMultiplier(score: nat): (m: real)
    ensures m >= 1.0
    ensures 50.0 * (m - 1.0) == score as real
  {
    1.0 + score as real / 50.0
  }
}
