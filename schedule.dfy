/**
 * Timing constants and the arithmetic of the two rank-based schedules of a
 * seed node: the hour of day of its periodic restart (SeedNodeMain.java
 * lines 211-225) and the staggered delay of its shutdown after a request to
 * resync the DAO state from resources (lines 135-139).
 */
module Schedule {
  import opened Roster

  /** Delay between arming the periodic restart and its first poll: 2 hours. */
  const InitialDelaySec: nat := 7200
  /** Period of the restart poll: 10 minutes. */
  const PollIntervalSec: nat := 600
  /** CHECK_CONNECTION_LOSS_SEC: period of the connection-loss watchdog. */
  const CheckConnectionLossSec: nat := 30
  /** Delay between the hidden service being published and arming the watchdog. */
  const ConnectionLossCheckDelaySec: nat := 60
  /** Distance between the resync shutdowns of consecutive ranks. */
  const ResyncStaggerSec: int := 30
  /** Long.MAX_VALUE, what Math.round returns for positive infinity. */
  const LongMaxValue: int := 0x7fff_ffff_ffff_ffff

  /** Math.round(24d / size * index) for size > 0, computed exactly: the
    * integer nearest to 24 * index / size, a tie rounding up. */
  function RoundedHour(size: nat, index: nat): (r: nat)
    requires size > 0
    ensures 2 * size * r <= 48 * index + size < 2 * size * (r + 1)
  {
    var n := 48 * index + size;
    var d := 2 * size;
    assert n == d * (n / d) + n % d;
    n / d
  }

  /** The UTC hour at which the node of rank `index` restarts, in a fleet of
    * `size` seed nodes: `Math.round(24d / size * index) % 24`.
    * With size 0 the Java expression does not fail: 24d / 0 is infinity,
    * infinity * 0 is NaN which rounds to 0, and infinity * index rounds to
    * Long.MAX_VALUE. */
  function TargetHour(size: nat, index: nat): (h: nat)
    ensures h < 24
    ensures size == 0 ==> h == (if index == 0 then 0 else 7)
  {
    if size == 0 then
      if index == 0 then 0 else LongMaxValue % 24
    else RoundedHour(size, index) % 24
  }

  /** For a fleet of fewer than 48 nodes, a rank inside the fleet never wraps
    * around midnight: the target hour is the rounded hour itself. */
  lemma TargetHourNoWrap(size: nat, index: nat)
    requires 0 < size < 48 && index < size
    ensures TargetHour(size, index) == RoundedHour(size, index)
  {
    var r := RoundedHour(size, index);
    assert 48 * index + size < 2 * size * 24;
    MulCancel(2 * size, r, 24);
  }

  /** For a fleet of at most 24 nodes, higher ranks restart at strictly later
    * hours, so no two ranks share a restart hour. */
  lemma TargetHourIncreasing(size: nat, i: nat, j: nat)
    requires 0 < size <= 24 && i < j < size
    ensures TargetHour(size, i) < TargetHour(size, j)
  {
    TargetHourNoWrap(size, i);
    TargetHourNoWrap(size, j);
    var ri, rj := RoundedHour(size, i), RoundedHour(size, j);
    var k := 2 * size;
    assert k * ri + k == k * (ri + 1);
    assert k * rj + k == k * (rj + 1);
    assert 48 * i + size < k * ri + k;
    assert k * rj + k > 48 * j + size >= 48 * i + size + k;
    MulCancel(k, ri, rj);
  }

  lemma MulCancel(k: int, a: int, b: int)
    requires k > 0 && k * a < k * b
    ensures a < b
  {
  }

  /** The twelve-node fleet restarts every two hours: rank r at hour 2r. */
  lemma TargetHourTwelveNodes(rank: nat)
    requires rank < 12
    ensures TargetHour(12, rank) == 2 * rank
  {
    TargetHourNoWrap(12, rank);
  }

  /** In a fleet of at most 24 seed nodes, two different members restart at
    * different hours of the day. */
  lemma MembersRestartAtDistinctHours(roster: seq<string>, a: string, b: string)
    requires a in roster && b in roster && a != b && |roster| <= 24
    ensures MyIndex(roster, a) >= 0 && MyIndex(roster, b) >= 0
    ensures TargetHour(|roster|, MyIndex(roster, a)) != TargetHour(|roster|, MyIndex(roster, b))
  {
    var ia, ib := MyIndex(roster, a), MyIndex(roster, b);
    RanksDistinct(roster, a, b);
    if ia < ib {
      TargetHourIncreasing(|roster|, ia, ib);
    } else {
      TargetHourIncreasing(|roster|, ib, ia);
    }
  }

  /** The delay, in seconds, of the shutdown that follows a request to resync
    * the DAO state from resources: `1 + index * 30`, with no special case for
    * the unranked index -1. */
  function StaggerDelay(index: int): (d: int)
    ensures index >= 0 ==> d >= 1
    ensures index == -1 ==> d < 0
  {
    1 + index * ResyncStaggerSec
  }

  /** Two different members of the fleet shut down after a resync request at
    * least 30 seconds apart, and each member strictly after the request. */
  lemma MembersResyncStaggered(roster: seq<string>, a: string, b: string)
    requires a in roster && b in roster && a != b
    ensures StaggerDelay(MyIndex(roster, a)) >= 1
    ensures StaggerDelay(MyIndex(roster, a)) - StaggerDelay(MyIndex(roster, b)) >= ResyncStaggerSec
         || StaggerDelay(MyIndex(roster, b)) - StaggerDelay(MyIndex(roster, a)) >= ResyncStaggerSec
  {
    RanksDistinct(roster, a, b);
  }
}
