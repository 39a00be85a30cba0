/** The ward ranking, the 31-day waste statistics and the complaint list of
    `controllers/waste_controller.py`. Every random draw is an input. */
module WasteController {
  import opened Common
  import opened Sorting

  /** The twelve wards of the ranking. */
  datatype Ward =
    | Koramangala | Indiranagar | Jayanagar | JPNagar | HSRLayout | Malleswaram
    | Shivajinagar | Hebbal | Yelahanka | Mahadevpura | Whitefield | ElectronicCity

  /** The wards in the order the ranking loop visits them. */
  const Wards: seq<Ward> := [
    Koramangala, Indiranagar, Jayanagar, JPNagar, HSRLayout, Malleswaram,
    Shivajinagar, Hebbal, Yelahanka, Mahadevpura, Whitefield, ElectronicCity
  ]

  /** The name a ward is shown and looked up by. */
  function WardName(w: Ward): string
  {
    match w
    case Koramangala => "Koramangala"
    case Indiranagar => "Indiranagar"
    case Jayanagar => "Jayanagar"
    case JPNagar => "JP Nagar"
    case HSRLayout => "HSR Layout"
    case Malleswaram => "Malleswaram"
    case Shivajinagar => "Shivajinagar"
    case Hebbal => "Hebbal"
    case Yelahanka => "Yelahanka"
    case Mahadevpura => "Mahadevpura"
    case Whitefield => "Whitefield"
    case ElectronicCity => "Electronic City"
  }

  /** The list names every ward exactly once. */
  lemma WardsDistinct()
    ensures |Wards| == 12
    ensures forall i, j :: 0 <= i < j < |Wards| ==> Wards[i] != Wards[j]
  {
  }

  // ---------------------------------------------------------------------
  // Ward cleanliness ranking
  // ---------------------------------------------------------------------

  datatype Category = Excellent | Good | Average | NeedsImprovement

  /** The score thresholds 80 / 60 / 40. */
  function CategoryOf(score: int): Category
  {
    if score >= 80 then Excellent
    else if score >= 60 then Good
    else if score >= 40 then Average
    else NeedsImprovement
  }

  /** The categories ordered from worst (0) to best (3). */
  function Level(c: Category): int
  {
    match c
    case NeedsImprovement => 0
    case Average => 1
    case Good => 2
    case Excellent => 3
  }

  /** A higher score never earns a worse category. */
  lemma CategoryMonotone(lower: int, higher: int)
    requires lower <= higher
    ensures Level(CategoryOf(lower)) <= Level(CategoryOf(higher))
  {
  }

  /** Scores are drawn from 40..95, so "Needs Improvement" never occurs. */
  lemma DrawnScoreCategory(score: int)
    requires 40 <= score <= 95
    ensures CategoryOf(score) != NeedsImprovement
  {
  }

  datatype WardScore = WardScore(ward: Ward, score: int, category: Category, change: real, rank: int)

  function ScoreKey(w: WardScore): int { w.score }

  function WardOf(w: WardScore): Ward { w.ward }

  /** The draw ranges: `randint(40, 95)` and `uniform(-5, 8)`. */
  predicate ValidWardDraws(scores: seq<int>, changes: seq<real>)
  {
    && |scores| == |Wards| && |changes| == |Wards|
    && (forall i :: 0 <= i < |scores| ==> 40 <= scores[i] <= 95)
    && (forall i :: 0 <= i < |changes| ==> -5.0 <= changes[i] <= 8.0)
  }

  /** The entry the first loop appends for ward `i`, with the provisional rank. */
  function WardEntry(scores: seq<int>, changes: seq<real>, i: int): WardScore
    requires ValidWardDraws(scores, changes) && 0 <= i < |Wards|
  {
    WardScore(Wards[i], scores[i], CategoryOf(scores[i]), changes[i], i + 1)
  }

  /** The list as the first loop leaves it, before the sort. */
  function UnsortedScores(scores: seq<int>, changes: seq<real>): (r: seq<WardScore>)
    requires ValidWardDraws(scores, changes)
    ensures |r| == |Wards|
  {
    seq(|Wards|, i requires 0 <= i < |Wards| => WardEntry(scores, changes, i))
  }

  /** `get_ward_cleanliness_scores`: build one entry per ward, sort them by
      score (descending, stable), then overwrite each rank with its position. */
  method WardCleanlinessScores(scores: seq<int>, changes: seq<real>) returns (ranked: seq<WardScore>)
    requires ValidWardDraws(scores, changes)
    ensures |ranked| == |Wards|
    ensures forall i :: 0 <= i < |ranked| ==>
      ranked[i] == SortDesc(UnsortedScores(scores, changes), ScoreKey)[i].(rank := i + 1)
    ensures NonIncreasing(ranked, ScoreKey)
    ensures multiset(Image(ranked, WardOf)) == multiset(Wards)
    ensures forall i :: 0 <= i < |ranked| ==> WellCategorized(ranked[i])
  {
    var wardScores := ScoreWards(scores, changes);
    UnsortedScoresFacts(scores, changes);
    // ward_scores.sort(key=lambda x: x["score"], reverse=True)
    var sorted := SortDesc(wardScores, ScoreKey);
    ranked := AssignRanks(sorted);
    RankingFacts(wardScores, ranked);
  }

  /** The first loop: one entry per ward, in ward order, with the
      provisional rank `i + 1`. */
  method ScoreWards(scores: seq<int>, changes: seq<real>) returns (wardScores: seq<WardScore>)
    requires ValidWardDraws(scores, changes)
    ensures wardScores == UnsortedScores(scores, changes)
  {
    wardScores := [];
    var i := 0;
    while i < |Wards|
      invariant 0 <= i <= |Wards|
      invariant |wardScores| == i
      invariant forall j :: 0 <= j < i ==> wardScores[j] == WardEntry(scores, changes, j)
    {
      var score := scores[i];
      var category := CategoryOf(score);
      var change := changes[i];
      wardScores := wardScores + [WardScore(Wards[i], score, category, change, i + 1)];
      i := i + 1;
    }
  }

  /** What the ranking promises of a list built by sorting `unsorted` and
      then overwriting each rank with its position. */
  lemma RankingFacts(unsorted: seq<WardScore>, ranked: seq<WardScore>)
    requires forall i :: 0 <= i < |unsorted| ==> WellCategorized(unsorted[i])
    requires |ranked| == |SortDesc(unsorted, ScoreKey)|
    requires forall i :: 0 <= i < |ranked| ==> ranked[i] == SortDesc(unsorted, ScoreKey)[i].(rank := i + 1)
    ensures NonIncreasing(ranked, ScoreKey)
    ensures multiset(Image(ranked, WardOf)) == multiset(Image(unsorted, WardOf))
    ensures forall i :: 0 <= i < |ranked| ==> WellCategorized(ranked[i])
  {
    RankedSorted(unsorted, ranked);
    RankedWards(unsorted, ranked);
    RankedCategories(unsorted, ranked);
  }

  /** Before the sort, the list holds the wards in order, each categorised. */
  lemma UnsortedScoresFacts(scores: seq<int>, changes: seq<real>)
    requires ValidWardDraws(scores, changes)
    ensures Image(UnsortedScores(scores, changes), WardOf) == Wards
    ensures forall i :: 0 <= i < |Wards| ==> WellCategorized(UnsortedScores(scores, changes)[i])
  {
  }

  /** A list that carries the sorted scores in position order is sorted. */
  lemma RankedSorted(unsorted: seq<WardScore>, ranked: seq<WardScore>)
    requires var sorted := SortDesc(unsorted, ScoreKey);
      && |ranked| == |sorted|
      && forall i :: 0 <= i < |ranked| ==> ranked[i].score == sorted[i].score
    ensures NonIncreasing(ranked, ScoreKey)
  {
    SortDescSorted(unsorted, ScoreKey);
  }

  /** Sorting and re-ranking keep the multiset of ward names. */
  lemma RankedWards(unsorted: seq<WardScore>, ranked: seq<WardScore>)
    requires var sorted := SortDesc(unsorted, ScoreKey);
      && |ranked| == |sorted|
      && forall i :: 0 <= i < |ranked| ==> ranked[i].ward == sorted[i].ward
    ensures multiset(Image(ranked, WardOf)) == multiset(Image(unsorted, WardOf))
  {
    SortDescImage(unsorted, ScoreKey, WardOf);
    assert Image(ranked, WardOf) == Image(SortDesc(unsorted, ScoreKey), WardOf);
  }

  /** Sorting and re-ranking keep every entry's category consistent with its score. */
  lemma RankedCategories(unsorted: seq<WardScore>, ranked: seq<WardScore>)
    requires forall i :: 0 <= i < |unsorted| ==> WellCategorized(unsorted[i])
    requires var sorted := SortDesc(unsorted, ScoreKey);
      && |ranked| == |sorted|
      && forall i :: 0 <= i < |ranked| ==>
           ranked[i].score == sorted[i].score && ranked[i].category == sorted[i].category
    ensures forall i :: 0 <= i < |ranked| ==> WellCategorized(ranked[i])
  {
    var sorted := SortDesc(unsorted, ScoreKey);
    forall j | 0 <= j < |ranked| ensures WellCategorized(ranked[j]) {
      SortDescMember(unsorted, ScoreKey, sorted[j]);
    }
  }

  /** The second loop: each entry's rank becomes its position plus one. */
  method AssignRanks(sorted: seq<WardScore>) returns (ranked: seq<WardScore>)
    ensures |ranked| == |sorted|
    ensures forall i :: 0 <= i < |ranked| ==> ranked[i] == sorted[i].(rank := i + 1)
  {
    ranked := sorted;
    var i := 0;
    while i < |ranked|
      invariant 0 <= i <= |ranked| == |sorted|
      invariant forall j :: 0 <= j < i ==> ranked[j] == sorted[j].(rank := j + 1)
      invariant forall j :: i <= j < |ranked| ==> ranked[j] == sorted[j]
    {
      ranked := ranked[i := ranked[i].(rank := i + 1)];
      i := i + 1;
    }
  }

  /** An entry whose category is the one its score earns, and not the
      lowest, which drawn scores never reach. */
  predicate WellCategorized(w: WardScore)
  {
    w.category == CategoryOf(w.score) != NeedsImprovement
  }

  /** Stability of the ranking: the wards that share a score appear in the
      order the first loop visited them. */
  lemma RankingStable(scores: seq<int>, changes: seq<real>, ranked: seq<WardScore>, k: int)
    requires ValidWardDraws(scores, changes)
    requires |ranked| == |Wards|
    requires forall i :: 0 <= i < |ranked| ==>
      ranked[i] == SortDesc(UnsortedScores(scores, changes), ScoreKey)[i].(rank := i + 1)
    ensures Image(WithKey(ranked, ScoreKey, k), WardOf) ==
            Image(WithKey(UnsortedScores(scores, changes), ScoreKey, k), WardOf)
  {
    var unsorted := UnsortedScores(scores, changes);
    WithKeyImage(ranked, SortDesc(unsorted, ScoreKey), ScoreKey, WardOf, k);
    SortDescStable(unsorted, ScoreKey, k);
  }

  // ---------------------------------------------------------------------
  // get_waste_stats: the 31-day window, the daily records and the series
  // ---------------------------------------------------------------------

  /** The five types of the time series ("Wet", "Dry", "Hazardous",
      "E-waste", "Garden"), in the order of the inner loop. */
  datatype WasteType = Wet | Dry | Hazardous | EWaste | Garden

  const WasteTypes: seq<WasteType> := [Wet, Dry, Hazardous, EWaste, Garden]

  /** Baseline ranges of `by_type`: amount in kg and segregated fraction. */
  const AmountLow: seq<real> := [15.0, 10.0, 1.0, 0.5, 3.0]
  const AmountHigh: seq<real> := [25.0, 20.0, 5.0, 3.0, 8.0]
  const SegregatedLow: seq<real> := [0.7, 0.8, 0.6, 0.7, 0.8]
  const SegregatedHigh: seq<real> := [0.95, 0.98, 0.9, 1.0, 1.0]

  datatype TypeProfile = TypeProfile(amountKg: real, segregated: real)


  /** Five baselines, one per type, each with a positive amount. */
  predicate ValidProfiles(p: seq<TypeProfile>)
  {
    |p| == 5 && forall t :: 0 <= t < 5 ==> p[t].amountKg > 0.0
  }

  /** The `by_type` dictionary: for each type an amount then a fraction are
      drawn, type after type (`draws` holds the ten `random()` values). */
  function TypeProfiles(draws: seq<real>): (p: seq<TypeProfile>)
    requires |draws| == 10 && AllUnit(draws)
    ensures |p| == |WasteTypes|
    ensures forall t :: 0 <= t < |p| ==>
      && AmountLow[t] <= p[t].amountKg <= AmountHigh[t]
      && SegregatedLow[t] <= p[t].segregated <= SegregatedHigh[t]
  {
    seq(5, t requires 0 <= t < 5 =>
      TypeProfile(Uniform(AmountLow[t], AmountHigh[t], draws[2 * t]),
                  Uniform(SegregatedLow[t], SegregatedHigh[t], draws[2 * t + 1])))
  }

  /** Every drawn baseline has a positive amount, so the shares are defined. */
  lemma TypeProfilesValid(draws: seq<real>)
    requires |draws| == 10 && AllUnit(draws)
    ensures ValidProfiles(TypeProfiles(draws))
  {
    var p := TypeProfiles(draws);
    forall t | 0 <= t < 5 ensures p[t].amountKg > 0.0 {
      assert AmountLow[t] > 0.0;
    }
  }

  /** `sum(t['amount_kg'] for t in waste_types.values())`. */
  function TotalAmount(p: seq<TypeProfile>): real
    requires |p| == 5
  {
    0.0 + p[0].amountKg + p[1].amountKg + p[2].amountKg + p[3].amountKg + p[4].amountKg
  }

  /** The share of type `t` in the baseline amounts. */
  function Fraction(p: seq<TypeProfile>, t: int): real
    requires ValidProfiles(p) && 0 <= t < 5
  {
    p[t].amountKg / TotalAmount(p)
  }

  /** Each share lies in (0, 1]. */
  lemma FractionInUnit(p: seq<TypeProfile>, t: int)
    requires ValidProfiles(p) && 0 <= t < 5
    ensures 0.0 < Fraction(p, t) <= 1.0
  {
    DivBounds(p[t].amountKg, TotalAmount(p));
  }

  /** The five shares add up to exactly one. */
  lemma FractionsSumToOne(p: seq<TypeProfile>)
    requires ValidProfiles(p)
    ensures Fraction(p, 0) + Fraction(p, 1) + Fraction(p, 2) + Fraction(p, 3) + Fraction(p, 4) == 1.0
  {
    SumDiv(p[0].amountKg, p[1].amountKg, p[2].amountKg, p[3].amountKg, p[4].amountKg, TotalAmount(p));
  }

  lemma DivBounds(a: real, s: real)
    requires 0.0 < a <= s
    ensures 0.0 < a / s <= 1.0
  {
    assert a / s * s == a;
  }

  /** Dividing five parts by their total gives shares that add up to one. */
  lemma SumDiv(a: real, b: real, c: real, d: real, e: real, s: real)
    requires s == 0.0 + a + b + c + d + e && s != 0.0
    ensures a / s + b / s + c / s + d / s + e / s == 1.0
  {
    assert a / s + b / s + c / s + d / s + e / s == (a + b + c + d + e) / s;
  }

  /** The random values one date consumes, in the order the loop draws them:
      waste, segregation, collection, processing, recycling, then for each
      type a daily variation and a segregation coin. */
  datatype DayDraw = DayDraw(waste: real, segregation: real, collection: real,
                             processing: real, recycling: real,
                             variation: seq<real>, coin: seq<real>)

  predicate ValidDayDraw(d: DayDraw)
  {
    && IsUnit(d.waste) && IsUnit(d.segregation) && IsUnit(d.collection)
    && IsUnit(d.processing) && IsUnit(d.recycling)
    && |d.variation| == 5 && AllUnit(d.variation)
    && |d.coin| == 5 && AllUnit(d.coin)
  }

  datatype DailyRecord = DailyRecord(date: int, wasteGenerated: real, segregationRate: real,
                                     collectionEfficiency: real, processingRate: real,
                                     recyclingRate: real)

  /** More waste and worse segregation on weekends. */
  function WasteLow(weekend: bool): real { if weekend then 5.0 else 3.0 }
  function WasteHigh(weekend: bool): real { if weekend then 9.0 else 6.0 }
  function SegregationLow(weekend: bool): real { if weekend then 70.0 else 80.0 }
  function SegregationHigh(weekend: bool): real { if weekend then 85.0 else 95.0 }

  /** The record appended for `date`. */
  function DailyRecordOf(date: int, d: DayDraw): DailyRecord
    requires ValidDayDraw(d)
  {
    var weekend := IsWeekend(date);
    DailyRecord(date,
                Uniform(WasteLow(weekend), WasteHigh(weekend), d.waste),
                Uniform(SegregationLow(weekend), SegregationHigh(weekend), d.segregation),
                Uniform(85.0, 98.0, d.collection),
                Uniform(70.0, 85.0, d.processing),
                Uniform(30.0, 50.0, d.recycling))
  }

  /** A weekend date (weekday 5 or 6) yields 5-9 tonnes at 70-85 %
      segregation; a weekday yields 3-6 tonnes at 80-95 %. */
  lemma DailyRecordRanges(date: int, d: DayDraw)
    requires ValidDayDraw(d)
    ensures var r := DailyRecordOf(date, d);
      && (Weekday(date) >= 5 ==> 5.0 <= r.wasteGenerated <= 9.0 && 70.0 <= r.segregationRate <= 85.0)
      && (Weekday(date) < 5 ==> 3.0 <= r.wasteGenerated <= 6.0 && 80.0 <= r.segregationRate <= 95.0)
      && 85.0 <= r.collectionEfficiency <= 98.0
      && 70.0 <= r.processingRate <= 85.0
      && 30.0 <= r.recyclingRate <= 50.0
  {
  }

  datatype SeriesEntry = SeriesEntry(date: int, wasteType: WasteType, amountKg: real, segregated: bool)

  /** The expected amount of type `t` on a date that generated `waste`. */
  function Share(waste: real, p: seq<TypeProfile>, t: int): real
    requires ValidProfiles(p) && 0 <= t < 5
  {
    waste * Fraction(p, t)
  }

  /** `share * random.uniform(0.8, 1.2)`: the daily variation of one type. */
  function Varied(share: real, u: real): real
    requires IsUnit(u)
  {
    share * Uniform(0.8, 1.2, u)
  }

  /** The entry of type `t` on a date that generated `waste` tonnes. */
  function SeriesEntryOf(date: int, waste: real, p: seq<TypeProfile>, t: int, d: DayDraw): SeriesEntry
    requires ValidProfiles(p) && 0 <= t < 5 && ValidDayDraw(d)
  {
    SeriesEntry(date, WasteTypes[t], Varied(Share(waste, p, t), d.variation[t]), d.coin[t] < p[t].segregated)
  }

  /** The five entries of one date, one per type in the inner loop's order. */
  function DaySeries(date: int, waste: real, p: seq<TypeProfile>, d: DayDraw): (r: seq<SeriesEntry>)
    requires ValidProfiles(p) && ValidDayDraw(d)
    ensures |r| == 5
    ensures forall t :: 0 <= t < 5 ==> r[t] == SeriesEntryOf(date, waste, p, t, d)
  {
    seq(5, t requires 0 <= t < 5 => SeriesEntryOf(date, waste, p, t, d))
  }

  /** The variation moves an amount by at most 20 % either way. */
  lemma VariedBounds(share: real, u: real)
    requires share >= 0.0 && IsUnit(u)
    ensures 0.8 * share <= Varied(share, u) <= 1.2 * share
  {
    var v := Uniform(0.8, 1.2, u);
    assert Varied(share, u) - 0.8 * share == share * (v - 0.8);
    MulNonNegative(share, v - 0.8);
    assert 1.2 * share - Varied(share, u) == share * (1.2 - v);
    MulNonNegative(share, 1.2 - v);
  }

  /** The per-type amounts of one date are not forced to add up to the
      date's total, but together they stay within 20 % of it. */
  lemma SeriesAmountsWithinTwentyPercent(date: int, waste: real, p: seq<TypeProfile>, d: DayDraw)
    requires ValidProfiles(p) && ValidDayDraw(d) && waste >= 0.0
    ensures var s := DaySeries(date, waste, p, d);
      var sum := s[0].amountKg + s[1].amountKg + s[2].amountKg + s[3].amountKg + s[4].amountKg;
      0.8 * waste <= sum <= 1.2 * waste
  {
    SharesAddUp(waste, p);
    forall t | 0 <= t < 5
      ensures 0.8 * Share(waste, p, t) <= DaySeries(date, waste, p, d)[t].amountKg <= 1.2 * Share(waste, p, t)
    {
      MulNonNegative(waste, Fraction(p, t));
      VariedBounds(Share(waste, p, t), d.variation[t]);
    }
  }

  /** The five shares of a date add up to the date's waste. */
  lemma SharesAddUp(waste: real, p: seq<TypeProfile>)
    requires ValidProfiles(p)
    ensures Share(waste, p, 0) + Share(waste, p, 1) + Share(waste, p, 2) + Share(waste, p, 3) + Share(waste, p, 4) == waste
  {
    FractionsSumToOne(p);
    var f0, f1, f2, f3, f4 := Fraction(p, 0), Fraction(p, 1), Fraction(p, 2), Fraction(p, 3), Fraction(p, 4);
    assert waste * f0 + waste * f1 + waste * f2 + waste * f3 + waste * f4 == waste * (f0 + f1 + f2 + f3 + f4);
  }

  /** `total_waste`: the sum of the daily amounts, oldest first. */
  function SumWaste(daily: seq<DailyRecord>): real
  {
    if daily == [] then 0.0 else SumWaste(daily[..|daily| - 1]) + daily[|daily| - 1].wasteGenerated
  }

  /** With every date between 3 and 9 tonnes, the window's total lies
      between 3 and 9 tonnes per date; in particular it is positive. */
  lemma {:induction false} SumWasteBounds(daily: seq<DailyRecord>)
    requires forall i :: 0 <= i < |daily| ==> 3.0 <= daily[i].wasteGenerated <= 9.0
    ensures 3.0 * (|daily| as real) <= SumWaste(daily) <= 9.0 * (|daily| as real)
  {
    if daily != [] {
      SumWasteBounds(daily[..|daily| - 1]);
    }
  }

  /** The three accumulators of the date loop. */
  datatype Stats = Stats(daily: seq<DailyRecord>, series: seq<SeriesEntry>, totalWaste: real)

  /** One pass of the date loop: the date's record, its five series entries
      and its waste added to the total. */
  function StepDate(acc: Stats, date: int, p: seq<TypeProfile>, d: DayDraw): Stats
    requires ValidProfiles(p) && ValidDayDraw(d)
  {
    var r := DailyRecordOf(date, d);
    Stats(acc.daily + [r], acc.series + DaySeries(date, r.wasteGenerated, p, d), acc.totalWaste + r.wasteGenerated)
  }

  /** The accumulators after the dates `today - 30`, ... that `draws` covers. */
  function StatsOf(today: int, p: seq<TypeProfile>, draws: seq<DayDraw>): Stats
    requires ValidProfiles(p) && forall i :: 0 <= i < |draws| ==> ValidDayDraw(draws[i])
  {
    if draws == [] then Stats([], [], 0.0)
    else
      var n := |draws| - 1;
      StepDate(StatsOf(today, p, draws[..n]), today - 30 + n, p, draws[n])
  }

  /** One record per date, in date order: the record of date `today - 30 + k`
      is drawn from the `k`-th draws. */
  lemma {:induction false} StatsDaily(today: int, p: seq<TypeProfile>, draws: seq<DayDraw>)
    requires ValidProfiles(p) && forall i :: 0 <= i < |draws| ==> ValidDayDraw(draws[i])
    ensures var s := StatsOf(today, p, draws);
      && |s.daily| == |draws|
      && forall k :: 0 <= k < |draws| ==> s.daily[k] == DailyRecordOf(today - 30 + k, draws[k])
  {
    if draws != [] {
      StatsDaily(today, p, draws[..|draws| - 1]);
    }
  }

  /** Five entries per date, and the five entries of the `k`-th date are that
      date's series, built from its record. */
  lemma {:induction false} StatsSeries(today: int, p: seq<TypeProfile>, draws: seq<DayDraw>)
    requires ValidProfiles(p) && forall i :: 0 <= i < |draws| ==> ValidDayDraw(draws[i])
    ensures var s := StatsOf(today, p, draws);
      && |s.series| == 5 * |draws|
      && forall k :: 0 <= k < |draws| ==>
           s.series[5 * k..5 * k + 5] == DaySeries(today - 30 + k, DailyRecordOf(today - 30 + k, draws[k]).wasteGenerated, p, draws[k])
  {
    if draws != [] {
      var n := |draws| - 1;
      StatsSeries(today, p, draws[..n]);
      var prev := StatsOf(today, p, draws[..n]).series;
      var date := today - 30 + n;
      var last := DaySeries(date, DailyRecordOf(date, draws[n]).wasteGenerated, p, draws[n]);
      var s := StatsOf(today, p, draws).series;
      assert s == prev + last;
      forall k | 0 <= k < |draws|
        ensures s[5 * k..5 * k + 5] ==
          DaySeries(today - 30 + k, DailyRecordOf(today - 30 + k, draws[k]).wasteGenerated, p, draws[k])
      {
        if k < n {
          AppendPrefixSlice(prev, last, 5 * k, 5 * k + 5);
          assert draws[..n][k] == draws[k];
        } else {
          AppendSuffix(prev, last);
        }
      }
    }
  }

  /** The running total is the sum of the daily amounts. */
  lemma {:induction false} StatsTotal(today: int, p: seq<TypeProfile>, draws: seq<DayDraw>)
    requires ValidProfiles(p) && forall i :: 0 <= i < |draws| ==> ValidDayDraw(draws[i])
    ensures StatsOf(today, p, draws).totalWaste == SumWaste(StatsOf(today, p, draws).daily)
  {
    if draws != [] {
      var n := |draws| - 1;
      StatsTotal(today, p, draws[..n]);
      var s := StatsOf(today, p, draws);
      assert s.daily[..|s.daily| - 1] == StatsOf(today, p, draws[..n]).daily;
    }
  }

  lemma AppendPrefixSlice<T>(a: seq<T>, b: seq<T>, lo: int, hi: int)
    requires 0 <= lo <= hi <= |a|
    ensures (a + b)[lo..hi] == a[lo..hi]
  {
  }

  lemma AppendSuffix<T>(a: seq<T>, b: seq<T>)
    ensures (a + b)[|a|..|a| + |b|] == b
  {
  }

  /** Over the 31 dates, between 3 and 9 tonnes a day, the total lies
      between 93 and 279 tonnes. */
  lemma StatsTotalBounds(today: int, p: seq<TypeProfile>, draws: seq<DayDraw>)
    requires ValidProfiles(p) && |draws| == 31 && forall i :: 0 <= i < 31 ==> ValidDayDraw(draws[i])
    ensures 93.0 <= StatsOf(today, p, draws).totalWaste <= 279.0
  {
    var s := StatsOf(today, p, draws);
    StatsDaily(today, p, draws);
    StatsTotal(today, p, draws);
    forall k | 0 <= k < 31 ensures 3.0 <= s.daily[k].wasteGenerated <= 9.0 {
      DailyRecordRanges(today - 30 + k, draws[k]);
    }
    SumWasteBounds(s.daily);
  }

  /** `get_waste_stats` without the summary's rounding and means: one record
      per date of the 31-day window, five series entries per date in type
      order, and the running total. */
  method WasteStats(today: int, typeDraws: seq<real>, dayDraws: seq<DayDraw>)
    returns (byType: seq<TypeProfile>, daily: seq<DailyRecord>, series: seq<SeriesEntry>, totalWaste: real)
    requires |typeDraws| == 10 && AllUnit(typeDraws)
    requires |dayDraws| == 31 && forall i :: 0 <= i < 31 ==> ValidDayDraw(dayDraws[i])
    ensures byType == TypeProfiles(typeDraws) && ValidProfiles(byType)
    ensures Stats(daily, series, totalWaste) == StatsOf(today, byType, dayDraws)
    ensures 93.0 <= totalWaste <= 279.0
  {
    var dateRange := DateRange(today, 30);
    byType := TypeProfiles(typeDraws);
    TypeProfilesValid(typeDraws);
    daily, series, totalWaste := [], [], 0.0;
    var i := 0;
    while i < |dateRange|
      invariant 0 <= i <= |dateRange| == 31
      invariant Stats(daily, series, totalWaste) == StatsOf(today, byType, dayDraws[..i])
    {
      var date := dateRange[i];
      var record := DailyRecordOf(date, dayDraws[i]);
      totalWaste := totalWaste + record.wasteGenerated;
      daily := daily + [record];
      series := AppendDaySeries(series, date, record.wasteGenerated, byType, dayDraws[i]);
      assert dayDraws[..i + 1][..i] == dayDraws[..i];
      i := i + 1;
    }
    assert dayDraws[..31] == dayDraws;
    StatsTotalBounds(today, byType, dayDraws);
  }

  /** The inner loop: one entry per type, appended in type order. */
  method AppendDaySeries(series: seq<SeriesEntry>, date: int, waste: real, p: seq<TypeProfile>, d: DayDraw)
    returns (extended: seq<SeriesEntry>)
    requires ValidProfiles(p) && ValidDayDraw(d)
    ensures extended == series + DaySeries(date, waste, p, d)
  {
    extended := series;
    var t := 0;
    while t < |WasteTypes|
      invariant 0 <= t <= 5
      invariant extended == series + DaySeries(date, waste, p, d)[..t]
    {
      assert DaySeries(date, waste, p, d)[..t + 1] == DaySeries(date, waste, p, d)[..t] + [SeriesEntryOf(date, waste, p, t, d)];
      extended := extended + [SeriesEntryOf(date, waste, p, t, d)];
      t := t + 1;
    }
  }

  // ---------------------------------------------------------------------
  // get_active_complaints
  // ---------------------------------------------------------------------

  const ComplaintTypes: seq<string> := [
    "Missed garbage collection", "Black spot not cleared", "Overflowing bin",
    "Improper segregation by neighbors", "Waste burning incident",
    "Littering in public space", "Commercial waste dumping",
    "Construction debris", "Drain blockage due to waste"
  ]

  const ComplaintPlaces: seq<string> := [
    "Main Road", "Cross Road", "Park", "Market", "Bus Stop",
    "Residential Layout", "Commercial Complex", "School Area"
  ]

  datatype ComplaintStatus = Pending | InProgress | Resolved | Closed

  const ComplaintStatuses: seq<ComplaintStatus> := [Pending, InProgress, Resolved, Closed]

  datatype Priority = High | Medium | Low

  /** "High" past a week, "Medium" past three days, "Low" otherwise. */
  function ComplaintPriority(ageDays: int): Priority
  {
    if ageDays > 7 then High else if ageDays > 3 then Medium else Low
  }

  /** The three priority bands partition the ages. */
  lemma PriorityBands(ageDays: int)
    ensures ComplaintPriority(ageDays) == High <==> ageDays > 7
    ensures ComplaintPriority(ageDays) == Medium <==> 3 < ageDays <= 7
    ensures ComplaintPriority(ageDays) == Low <==> ageDays <= 3
  {
  }

  /** The draws for one complaint, in order: its age, a status, a place,
      the votes, the id number and a complaint type (choices as indices). */
  datatype ComplaintDraw = ComplaintDraw(age: int, status: int, place: int, votes: int, idNumber: int, kind: int)

  predicate ValidComplaintDraw(d: ComplaintDraw)
  {
    && 1 <= d.age <= 10 && 0 <= d.status < |ComplaintStatuses|
    && 0 <= d.place < |ComplaintPlaces| && 0 <= d.votes <= 15
    && 10000 <= d.idNumber <= 99999 && 0 <= d.kind < |ComplaintTypes|
  }

  /** The id is shown as "BBMP-WM-" followed by `idNumber`; the reporting
      date is the day ordinal `age` days before today. */
  datatype Complaint = Complaint(idNumber: int, kind: string, location: string, dateReported: int,
                                 ageDays: int, status: ComplaintStatus, priority: Priority, votes: int)

  /** "<place>, <ward>" when a ward is given (a non-empty name), else the place. */
  function ComplaintLocation(place: string, ward: string): string
  {
    if ward != "" then place + ", " + ward else place
  }

  function ComplaintOf(today: int, ward: string, d: ComplaintDraw): Complaint
    requires ValidComplaintDraw(d)
  {
    Complaint(d.idNumber, ComplaintTypes[d.kind], ComplaintLocation(ComplaintPlaces[d.place], ward),
              today - d.age, d.age, ComplaintStatuses[d.status], ComplaintPriority(d.age), d.votes)
  }

  /** `get_active_complaints`: 5 to 15 complaints, each aged 1 to 10 days. */
  method ActiveComplaints(today: int, ward: string, draws: seq<ComplaintDraw>) returns (complaints: seq<Complaint>)
    requires 5 <= |draws| <= 15 && forall i :: 0 <= i < |draws| ==> ValidComplaintDraw(draws[i])
    ensures |complaints| == |draws|
    ensures forall i :: 0 <= i < |complaints| ==> complaints[i] == ComplaintOf(today, ward, draws[i])
    ensures forall i :: 0 <= i < |complaints| ==>
      && 1 <= complaints[i].ageDays <= 10
      && complaints[i].dateReported == today - complaints[i].ageDays
      && (complaints[i].priority == High <==> complaints[i].ageDays > 7)
      && (complaints[i].priority == Low <==> complaints[i].ageDays <= 3)
  {
    complaints := [];
    var i := 0;
    while i < |draws|
      invariant 0 <= i <= |draws|
      invariant |complaints| == i
      invariant forall k :: 0 <= k < i ==> complaints[k] == ComplaintOf(today, ward, draws[k])
    {
      var d := draws[i];
      var status := ComplaintStatuses[d.status];
      var location := ComplaintLocation(ComplaintPlaces[d.place], ward);
      complaints := complaints + [Complaint(d.idNumber, ComplaintTypes[d.kind], location, today - d.age,
                                            d.age, status, ComplaintPriority(d.age), d.votes)];
      i := i + 1;
    }
  }
}
