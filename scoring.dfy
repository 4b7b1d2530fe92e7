/** The pure scoring rules of the daily competition: `calculateEfficiency` and `calculateRewards`. */
module Scoring {

  /** `calculateEfficiency(linesUsed, totalSteps)`: 100 at or below the best case of two lines per step,
      0 at or beyond the worst case of six, and in between `Math.round(100 - (linesUsed - best) /
      (worst - best) * 100)`, computed here exactly as `floor((301 * steps - 50 * lines) / (2 * steps))`. */
  function CalculateEfficiency(linesUsed: int, totalSteps: int): (e: int)
    ensures 0 <= e <= 100
    ensures linesUsed <= 2 * totalSteps ==> e == 100
    ensures 2 * totalSteps < linesUsed && 6 * totalSteps <= linesUsed ==> e == 0
    // In between, `e` is the rounded value of x = 100 - 25 * (linesUsed - 2 * totalSteps) / totalSteps,
    // halves rounded up: e - 1/2 <= x < e + 1/2, multiplied out by 2 * totalSteps > 0.
    ensures 2 * totalSteps < linesUsed < 6 * totalSteps ==>
      totalSteps > 0 &&
      (2 * e - 1) * totalSteps <= 300 * totalSteps - 50 * linesUsed < (2 * e + 1) * totalSteps
  {
    var best, worst := totalSteps * 2, totalSteps * 6;
    if linesUsed <= best then 100
    else if linesUsed >= worst then 0
    else
      var n, d := 301 * totalSteps - 50 * linesUsed, 2 * totalSteps;
      var q := n / d;
      RoundingBounds(n, d, q, totalSteps, linesUsed);
      q
  }

  /** The arithmetic behind the middle case: the floor quotient is the rounded value and lies in [0, 100]. */
  lemma RoundingBounds(n: int, d: int, q: int, steps: int, lines: int)
    requires 0 < steps && 2 * steps < lines < 6 * steps
    requires n == 301 * steps - 50 * lines && d == 2 * steps && q == n / d
    ensures (2 * q - 1) * steps <= 300 * steps - 50 * lines < (2 * q + 1) * steps
    ensures 0 <= q <= 100
  {
    var r := n % d;
    assert n == q * d + r && 0 <= r < d;
    assert q * d == 2 * q * steps;
    assert 300 * steps - 50 * lines == 2 * q * steps + r - steps;
    assert (2 * q - 1) * steps == 2 * q * steps - steps;
    assert (2 * q + 1) * steps == 2 * q * steps + steps;
    assert (2 * q - 1) * steps < 200 * steps;
    assert 0 < (2 * q + 1) * steps;
    PositiveFactor(2 * q - 1, 200, steps);
    PositiveFactor(0, 2 * q + 1, steps);
  }

  lemma PositiveFactor(a: int, b: int, c: int)
    requires c > 0 && a * c < b * c
    ensures a < b
  {
    assert (b - a) * c == b * c - a * c;
  }

  /** More lines never raise the efficiency score for a fixed number of steps. */
  lemma EfficiencyMonotone(lines1: int, lines2: int, steps: int)
    requires lines1 <= lines2
    ensures CalculateEfficiency(lines2, steps) <= CalculateEfficiency(lines1, steps)
  {
    var e1, e2 := CalculateEfficiency(lines1, steps), CalculateEfficiency(lines2, steps);
    if 2 * steps < lines1 < 6 * steps && 2 * steps < lines2 < 6 * steps {
      assert (2 * e2 - 1) * steps <= 300 * steps - 50 * lines2 <= 300 * steps - 50 * lines1;
      assert 300 * steps - 50 * lines1 < (2 * e1 + 1) * steps;
      PositiveFactor(2 * e2 - 1, 2 * e1 + 1, steps);
    }
  }

  /** A challenge with no steps never divides by zero: any positive line count scores 0, none scores 100. */
  lemma EfficiencyZeroSteps(linesUsed: int)
    ensures CalculateEfficiency(linesUsed, 0) == if linesUsed <= 0 then 100 else 0
  {
  }

  /** A worked example: 20 lines on a 15-step challenge is the best case. */
  lemma ExampleEfficiency()
    ensures CalculateEfficiency(20, 15) == 100
  {
  }

  datatype RewardBreakdown = RewardBreakdown(rankBonus: int, streakBonus: int, participationBonus: int, totalLines: int)

  /** The rank bonus: 500 for first place, 200 for second and third, 100 for any other rank up to 10
      (the "absent" rank 0 included, as `rank <= 10` admits it), nothing beyond. */
  function RankBonus(rank: int): (b: int)
    ensures b == 0 || b == 100 || b == 200 || b == 500
    ensures b == 0 <==> rank > 10
    ensures b == 500 <==> rank == 1
    ensures b == 200 <==> rank == 2 || rank == 3
    ensures b == 100 <==> rank <= 10 && rank != 1 && rank != 2 && rank != 3
  {
    if rank == 1 then 500
    else if rank == 2 then 200
    else if rank == 3 then 200
    else if rank <= 10 then 100
    else 0
  }

  /** The streak milestones and their one-time bonus. */
  const StreakBonuses: map<int, int> := map[3 := 50, 7 := 150, 14 := 300, 30 := 1000, 50 := 2000, 100 := 5000]

  /** `streakBonuses[streakCount] || 0`: an exact-key lookup. */
  function StreakBonus(streakCount: int): (b: int)
    ensures b >= 0
    ensures b > 0 <==> streakCount in {3, 7, 14, 30, 50, 100}
  {
    if streakCount in StreakBonuses then StreakBonuses[streakCount] else 0
  }

  const ParticipationBonus: int := 10

  /** `calculateRewards(rank, streakCount)`. */
  function CalculateRewards(rank: int, streakCount: int): (r: RewardBreakdown)
    ensures r.totalLines == r.rankBonus + r.streakBonus + r.participationBonus
    ensures r.rankBonus == RankBonus(rank) && r.streakBonus == StreakBonus(streakCount)
    ensures r.participationBonus == 10
    ensures 10 <= r.totalLines <= 5510
  {
    var rankBonus := RankBonus(rank);
    var streakBonus := StreakBonus(streakCount);
    RewardBreakdown(rankBonus, streakBonus, ParticipationBonus, rankBonus + streakBonus + ParticipationBonus)
  }

  /** A better (smaller, positive) rank never earns a smaller rank bonus. */
  lemma RankBonusMonotone(better: int, worse: int)
    requires 1 <= better <= worse
    ensures RankBonus(worse) <= RankBonus(better)
  {
  }

  /** The streak bonus is paid exactly at the six milestones; every other count gets nothing. */
  lemma StreakBonusAtMilestones(streakCount: int)
    ensures StreakBonus(streakCount) > 0 <==> streakCount in {3, 7, 14, 30, 50, 100}
    ensures streakCount in {4, 8, 15, 31, 51, 101} ==> StreakBonus(streakCount) == 0
  {
  }

  /** The table's boundary cases, each as its own sum of the three parts. */
  lemma RewardTable()
    ensures CalculateRewards(1, 3).totalLines == 560
    ensures CalculateRewards(2, 7).totalLines == 360
    ensures CalculateRewards(3, 4).totalLines == 210
    ensures CalculateRewards(10, 8).totalLines == 110
    ensures CalculateRewards(11, 100).totalLines == 5010
    ensures CalculateRewards(0, 1).totalLines == 110
    ensures CalculateRewards(4, 14).totalLines == 410
    ensures CalculateRewards(20, 30).totalLines == 1010
    ensures CalculateRewards(1, 50).totalLines == 2510
  {
  }
}
