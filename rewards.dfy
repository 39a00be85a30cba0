/** The reward arithmetic of `views/rewards_view.py`: points, streaks, the
    three tax incentives, the certificate, the badges, the next milestone and
    its progress bar, and the neighbourhood leaderboard. Every random draw
    is an input. */
module Rewards {
  import opened Common
  import opened Sorting

  // ---------------------------------------------------------------------
  // generate_reward_data
  // ---------------------------------------------------------------------

  /** The draws `generate_reward_data` consumes, in order: the points, the
      current streak, the second streak draw, the six monthly points, and
      the two coins of the "Clean Street Leader" badge. */
  datatype RewardDraws = RewardDraws(points: int, currentStreak: int, streakDraw: int,
                                     history: seq<int>, leaderEarned: bool, leaderDated: bool)

  /** `randint(75, 180)`, `randint(3, 14)`, `randint(7, 21)` and six `randint(50, 150)`. */
  predicate ValidRewardDraws(d: RewardDraws)
  {
    && 75 <= d.points <= 180 && 3 <= d.currentStreak <= 14 && 7 <= d.streakDraw <= 21
    && |d.history| == 6 && forall i :: 0 <= i < 6 ==> 50 <= d.history[i] <= 150
  }

  /** `min(cap, points / divisor)` with Python's true division. */
  function Incentive(cap: real, divisor: real, points: int): real
    requires divisor > 0.0
  {
    MinReal(cap, points as real / divisor)
  }

  /** The property tax rebate: 1 % per 20 points, at most 10 %. */
  function PropertyTaxRebate(points: int): real { Incentive(10.0, 20.0, points) }

  /** The solid-waste-management fee discount: 1 % per 15 points, at most 15 %. */
  function SwmDiscount(points: int): real { Incentive(15.0, 15.0, points) }

  /** The water bill discount: 1 % per 25 points, at most 7.5 %. */
  function WaterBillDiscount(points: int): real { Incentive(7.5, 25.0, points) }

  /** More points never lower an incentive. */
  lemma IncentiveMonotone(cap: real, divisor: real, lower: int, higher: int)
    requires divisor > 0.0 && lower <= higher
    ensures Incentive(cap, divisor, lower) <= Incentive(cap, divisor, higher)
  {
    DivMonotone(lower as real, higher as real, divisor);
  }

  /** An incentive never exceeds its cap, and is zero for zero points. */
  lemma IncentiveCapped(cap: real, divisor: real, points: int)
    requires divisor > 0.0 && cap >= 0.0
    ensures Incentive(cap, divisor, points) <= cap
    ensures points == 0 ==> Incentive(cap, divisor, points) == 0.0
  {
  }

  /** An incentive reaches its cap exactly from `cap * divisor` points on. */
  lemma IncentiveSaturates(cap: real, divisor: real, points: int)
    requires divisor > 0.0
    ensures Incentive(cap, divisor, points) == cap <==> points as real >= cap * divisor
  {
    DivThreshold(points as real, cap, divisor);
  }

  /** The three saturation thresholds: 200, 225 and 187.5 points. */
  lemma IncentiveThresholds(points: int)
    ensures PropertyTaxRebate(points) == 10.0 <==> points >= 200
    ensures SwmDiscount(points) == 15.0 <==> points >= 225
    ensures WaterBillDiscount(points) == 7.5 <==> points as real >= 187.5
  {
    IncentiveSaturates(10.0, 20.0, points);
    IncentiveSaturates(15.0, 15.0, points);
    IncentiveSaturates(7.5, 25.0, points);
  }

  lemma DivMonotone(a: real, b: real, d: real)
    requires d > 0.0 && a <= b
    ensures a / d <= b / d
  {
    assert b / d - a / d == (b - a) / d;
  }

  lemma DivThreshold(a: real, c: real, d: real)
    requires d > 0.0
    ensures a / d >= c <==> a >= c * d
  {
    assert (a / d) * d == a;
    MulOrder(c, a / d, d);
  }

  /** Multiplying by a positive factor keeps `<=`, both ways. */
  lemma MulOrder(x: real, y: real, d: real)
    requires d > 0.0
    ensures x <= y <==> x * d <= y * d
  {
    assert y * d - x * d == (y - x) * d;
    if x <= y {
      MulNonNegative(y - x, d);
    } else {
      MulPositive(x - y, d);
    }
  }

  /** `100 if points < 100 else 200 if points < 200 else 300`. */
  function NextMilestone(points: int): int
  {
    if points < 100 then 100 else if points < 200 then 200 else 300
  }

  /** The milestone is ahead of the points exactly below 300, and then it is
      the next multiple of 100 above them, so the "more to go" figure is
      between 1 and 100; from 300 points on it stays at 300. */
  lemma NextMilestoneAhead(points: int)
    ensures NextMilestone(points) > points <==> points < 300
    ensures 0 <= points < 300 ==> 1 <= NextMilestone(points) - points <= 100
    ensures NextMilestone(points) % 100 == 0 && NextMilestone(points) <= 300
  {
  }

  /** `min(100, points / next_milestone * 100)`: the progress bar width. */
  function ProgressWidth(points: int, milestone: int): (w: real)
    requires milestone > 0
    ensures w <= 100.0
    ensures points >= 0 ==> w >= 0.0
    ensures 0 <= points <= milestone ==> w == points as real / milestone as real * 100.0
  {
    RatioBounds(points, milestone);
    MinReal(100.0, points as real / milestone as real * 100.0)
  }

  lemma RatioBounds(points: int, milestone: int)
    requires milestone > 0
    ensures points >= 0 ==> points as real / milestone as real >= 0.0
    ensures points <= milestone ==> points as real / milestone as real <= 1.0
  {
    if points >= 0 {
      DivNonNegative(points as real, milestone as real);
    }
    if points <= milestone {
      DivAtMostOne(points as real, milestone as real);
    }
  }

  lemma DivNonNegative(a: real, d: real)
    requires a >= 0.0 && d > 0.0
    ensures a / d >= 0.0
  {
    assert (a / d) * d == a;
    MulOrder(0.0, a / d, d);
  }

  lemma DivAtMostOne(a: real, d: real)
    requires a <= d && d > 0.0
    ensures a / d <= 1.0
  {
    DivMonotone(a, d, d);
  }

  /** `points >= 100`. */
  predicate CertificateEligible(points: int) { points >= 100 }

  datatype Badge = Badge(name: string, earned: bool, date: Option<string>)

  const BadgeNames: seq<string> := ["Waste Warrior", "Compost Champion", "Clean Street Leader", "Zero Waste Household"]

  /** The four achievement badges, in display order. */
  function Achievements(points: int, leaderEarned: bool, leaderDated: bool): (badges: seq<Badge>)
    ensures |badges| == 4
    ensures forall i :: 0 <= i < 4 ==> badges[i].name == BadgeNames[i]
    ensures badges[0].earned && badges[0].date.Some?
    ensures badges[1].earned <==> points >= 100
    ensures badges[1].date.Some? <==> badges[1].earned
    ensures badges[2].earned == leaderEarned && (badges[2].date.Some? <==> leaderDated)
    ensures !badges[3].earned && badges[3].date.None?
  {
    [ Badge("Waste Warrior", true, Some("2025-03-15")),
      Badge("Compost Champion", points >= 100, if points >= 100 then Some("2025-04-01") else None),
      Badge("Clean Street Leader", leaderEarned, if leaderDated then Some("2025-02-22") else None),
      Badge("Zero Waste Household", false, None) ]
  }

  const Months: seq<string> := ["Nov", "Dec", "Jan", "Feb", "Mar", "Apr"]

  datatype RewardData = RewardData(
    points: int, currentStreak: int, longestStreak: int,
    propertyTaxRebate: real, swmDiscount: real, waterBillDiscount: real,
    certificateEligible: bool, nextMilestone: int,
    months: seq<string>, historicalPoints: seq<int>, achievements: seq<Badge>)

  /** `generate_reward_data` on the given draws. */
  function GenerateRewardData(d: RewardDraws): RewardData
  {
    RewardData(d.points, d.currentStreak, if d.currentStreak >= d.streakDraw then d.currentStreak else d.streakDraw,
               PropertyTaxRebate(d.points), SwmDiscount(d.points), WaterBillDiscount(d.points),
               CertificateEligible(d.points), NextMilestone(d.points),
               Months, d.history, Achievements(d.points, d.leaderEarned, d.leaderDated))
  }

  /** What the reward data promises on drawn values: streaks, incentives
      within their caps, the certificate and milestone rules, and six
      monthly points aligned with the six month labels. */
  lemma RewardDataFacts(d: RewardDraws)
    requires ValidRewardDraws(d)
    ensures var r := GenerateRewardData(d);
      && r.longestStreak >= r.currentStreak && r.longestStreak >= 7
      && 0.0 <= r.propertyTaxRebate <= 10.0 && 0.0 <= r.swmDiscount <= 15.0
      && 0.0 <= r.waterBillDiscount <= 7.5
      && (r.certificateEligible <==> r.points >= 100)
      && (!r.certificateEligible <==> 100 - r.points > 0)
      && r.points < r.nextMilestone <= r.points + 100
      && |r.historicalPoints| == |r.months| == 6
  {
    var r := GenerateRewardData(d);
    IncentiveCapped(10.0, 20.0, d.points);
    IncentiveCapped(15.0, 15.0, d.points);
    IncentiveCapped(7.5, 25.0, d.points);
    IncentiveMonotone(10.0, 20.0, 0, d.points);
    IncentiveMonotone(15.0, 15.0, 0, d.points);
    IncentiveMonotone(7.5, 25.0, 0, d.points);
    NextMilestoneAhead(d.points);
  }

  // ---------------------------------------------------------------------
  // The neighbourhood leaderboard of `render`
  // ---------------------------------------------------------------------

  const NeighbourNames: seq<string> := ["Kumar Residence", "Sharma Family", "Gupta House", "Rao Household",
                                        "Patel Residence", "Singh Family", "Reddy House"]

  /** The user's household first, then the seven neighbours. */
  function HouseholdNames(username: string): (names: seq<string>)
    ensures |names| == 8 && names[0] == username
    ensures forall i :: 1 <= i < 8 ==> names[i] == NeighbourNames[i - 1]
  {
    [username, "Kumar Residence", "Sharma Family", "Gupta House", "Rao Household",
     "Patel Residence", "Singh Family", "Reddy House"]
  }

  /** A `(household, points)` pair. */
  datatype Household = Household(name: string, points: int)

  function PointsOf(h: Household): int { h.points }

  /** A row of the leaderboard table. */
  datatype LeaderRow = LeaderRow(rank: int, household: string, points: int, isCurrentUser: bool)

  /** `zip(household_names, leaderboard_points)` once the user's points have
      replaced the first drawn value. */
  function Entries(username: string, userPoints: int, drawn: seq<int>): (e: seq<Household>)
    requires |drawn| == 8
    ensures |e| == 8
    ensures e[0] == Household(username, userPoints)
    ensures forall i :: 1 <= i < 8 ==> e[i] == Household(NeighbourNames[i - 1], drawn[i])
  {
    var names := HouseholdNames(username);
    seq(8, i requires 0 <= i < 8 => Household(names[i], if i == 0 then userPoints else drawn[i]))
  }

  /** The table row at position `i` of the sorted pairs. */
  function RowOf(username: string, sorted: seq<Household>, i: int): LeaderRow
    requires 0 <= i < |sorted|
  {
    LeaderRow(i + 1, sorted[i].name, sorted[i].points, sorted[i].name == username)
  }

  /** The leaderboard: draw eight values in [60, 200), overwrite the user's
      with their reward points, sort the pairs by points (descending,
      stable), then number the rows from 1. */
  method Leaderboard(username: string, userPoints: int, drawn: seq<int>) returns (rows: seq<LeaderRow>)
    requires |drawn| == 8 && forall i :: 0 <= i < 8 ==> 60 <= drawn[i] < 200
    ensures IsLeaderTable(username, Entries(username, userPoints, drawn), rows)
  {
    var names := HouseholdNames(username);
    var points := new int[8](i requires 0 <= i < 8 => drawn[i]);
    points[0] := userPoints;
    var pairs: seq<Household> := [];
    var i := 0;
    while i < 8
      invariant 0 <= i <= 8
      invariant pairs == Entries(username, userPoints, drawn)[..i]
    {
      pairs := pairs + [Household(names[i], points[i])];
      i := i + 1;
    }
    assert pairs == Entries(username, userPoints, drawn);
    var sorted := SortDesc(pairs, PointsOf);
    rows := [];
    i := 0;
    while i < 8
      invariant 0 <= i <= 8 == |sorted|
      invariant |rows| == i
      invariant forall j :: 0 <= j < i ==> rows[j] == RowOf(username, sorted, j)
    {
      rows := rows + [RowOf(username, sorted, i)];
      i := i + 1;
    }
  }

  function RowPoints(r: LeaderRow): int { r.points }

  function RowPair(r: LeaderRow): Household { Household(r.household, r.points) }

  /** The rows, read back as `(household, points)` pairs, are the sorted pairs. */
  lemma RowsAreSortedPairs(username: string, sorted: seq<Household>, rows: seq<LeaderRow>)
    requires |rows| == |sorted|
    requires forall i :: 0 <= i < |rows| ==> rows[i] == RowOf(username, sorted, i)
    ensures Image(rows, RowPair) == sorted
  {
  }

  /** A table built from `entries` as the leaderboard builds it: rows in
      sorted order, numbered from 1. */
  predicate IsLeaderTable(username: string, entries: seq<Household>, rows: seq<LeaderRow>)
  {
    var sorted := SortDesc(entries, PointsOf);
    |rows| == |sorted| && forall i :: 0 <= i < |rows| ==> rows[i] == RowOf(username, sorted, i)
  }

  /** Ranks run from 1 down the table and points do not increase. */
  lemma LeaderboardSorted(username: string, entries: seq<Household>, rows: seq<LeaderRow>)
    requires IsLeaderTable(username, entries, rows)
    ensures forall i :: 0 <= i < |rows| ==> rows[i].rank == i + 1
    ensures NonIncreasing(rows, RowPoints)
  {
    SortDescSorted(entries, PointsOf);
  }

  /** The rows are the `(household, points)` pairs, rearranged. */
  lemma LeaderboardPermutation(username: string, entries: seq<Household>, rows: seq<LeaderRow>)
    requires IsLeaderTable(username, entries, rows)
    ensures multiset(Image(rows, RowPair)) == multiset(entries)
  {
    RowsAreSortedPairs(username, SortDesc(entries, PointsOf), rows);
    SortDescPermutation(entries, PointsOf);
  }

  /** The user's household, first in the list with their reward points, is
      on the board with those points, and its row is marked as the current
      user's. */
  lemma UserOnLeaderboard(username: string, userPoints: int, entries: seq<Household>, rows: seq<LeaderRow>)
    requires IsLeaderTable(username, entries, rows)
    requires |entries| > 0 && entries[0] == Household(username, userPoints)
    ensures exists i :: 0 <= i < |rows| && rows[i] == LeaderRow(i + 1, username, userPoints, true)
  {
    LeaderboardPermutation(username, entries, rows);
    var pairs := Image(rows, RowPair);
    assert entries[0] in multiset(pairs);
    var k :| 0 <= k < |pairs| && pairs[k] == entries[0];
    assert rows[k] == LeaderRow(k + 1, username, userPoints, true);
  }

  /** Ties keep the order of the household list: the pairs with equal
      points appear in the order `household_names` has them. */
  lemma LeaderboardStable(username: string, entries: seq<Household>, rows: seq<LeaderRow>, p: int)
    requires IsLeaderTable(username, entries, rows)
    ensures WithKey(Image(rows, RowPair), PointsOf, p) == WithKey(entries, PointsOf, p)
  {
    RowsAreSortedPairs(username, SortDesc(entries, PointsOf), rows);
    SortDescStable(entries, PointsOf, p);
  }
}
