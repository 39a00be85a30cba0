/** The rules of `views/metrics_view.py`: the improvement priority and the
    recommendation list, the clamped monthly series, the segregation rates by
    category and over time, and the neighbouring-ward comparison. */
module Metrics {
  import opened Common
  import WC = WasteController

  const MonthNames: seq<string> :=
    ["Jan", "Feb", "Mar", "Apr", "May", "Jun", "Jul", "Aug", "Sep", "Oct", "Nov", "Dec"]

  // ---------------------------------------------------------------------
  // Improvement priority and recommendations
  // ---------------------------------------------------------------------

  /** The user's entry of the ranking: the first one whose ward name matches,
      or none (`next(..., None)`). */
  function FindWard(ranked: seq<WC.WardScore>, name: string): (r: Option<WC.WardScore>)
    ensures r.None? <==> forall i :: 0 <= i < |ranked| ==> WC.WardName(ranked[i].ward) != name
    ensures r.Some? ==> exists i :: 0 <= i < |ranked| && ranked[i] == r.value && WC.WardName(r.value.ward) == name
                                 && (forall j :: 0 <= j < i ==> WC.WardName(ranked[j].ward) != name)
  {
    if ranked == [] then None
    else if WC.WardName(ranked[0].ward) == name then Some(ranked[0])
    else
      var r := FindWard(ranked[1..], name);
      if r.Some? then
        ghost var i :| 0 <= i < |ranked[1..]| && ranked[1..][i] == r.value && WC.WardName(r.value.ward) == name
          && forall j :: 0 <= j < i ==> WC.WardName(ranked[1..][j].ward) != name;
        assert ranked[i + 1] == r.value;
        r
      else r
  }

  datatype ImprovementPriority = High | Medium | Low

  function PriorityOf(score: int): ImprovementPriority
  {
    if score < 60 then High else if score < 80 then Medium else Low
  }

  /** "high" below 60, "medium" from 60 below 80, "low" from 80. */
  lemma PriorityBands(score: int)
    ensures PriorityOf(score) == High <==> score < 60
    ensures PriorityOf(score) == Medium <==> 60 <= score < 80
    ensures PriorityOf(score) == Low <==> score >= 80
  {
  }

  const Hotspot: seq<string> := [
    "Increase cleaning frequency in identified hotspot areas",
    "Deploy additional street sweepers in commercial zones",
    "Conduct weekly black spot monitoring and clearance"
  ]

  const Decline: seq<string> := [
    "Investigate recent decline in ward performance",
    "Conduct citizen feedback sessions to identify issues"
  ]

  const Generic: seq<string> := [
    "Organize community cleanliness drives",
    "Enhance waste collection schedule adherence",
    "Deploy additional segregation bins in public areas"
  ]

  /** The short-term actions shown for a ward: the hotspot actions when the
      score is below 70, the decline actions when the recent change is
      negative, then the generic actions, of which the first five are shown. */
  method Recommendations(score: int, change: real) returns (shown: seq<string>)
    ensures |shown| <= 5
    ensures score < 70 && change < 0.0 ==> shown == Hotspot + Decline
    ensures score < 70 && change >= 0.0 ==> shown == Hotspot + Generic[..2]
    ensures score >= 70 && change < 0.0 ==> shown == Decline + Generic
    ensures score >= 70 && change >= 0.0 ==> shown == Generic
  {
    var recommendations: seq<string> := [];
    if score < 70 {
      recommendations := recommendations + Hotspot;
    }
    if change < 0.0 {
      recommendations := recommendations + Decline;
    }
    recommendations := recommendations + Generic;
    shown := if |recommendations| <= 5 then recommendations else recommendations[..5];
  }

  // ---------------------------------------------------------------------
  // Clamped monthly series
  // ---------------------------------------------------------------------

  /** `min(hi, max(lo, x))`. */
  function Clamp(lo: real, hi: real, x: real): real
  {
    MinReal(hi, MaxReal(lo, x))
  }

  /** A clamped value lies in its range and is the value itself when that
      already does. */
  lemma ClampBounds(lo: real, hi: real, x: real)
    requires lo <= hi
    ensures lo <= Clamp(lo, hi, x) <= hi
    ensures lo <= x <= hi ==> Clamp(lo, hi, x) == x
    ensures x < lo ==> Clamp(lo, hi, x) == lo
    ensures x > hi ==> Clamp(lo, hi, x) == hi
  {
  }

  /** The three draws of one month, in the order they are made. */
  datatype MonthDraw = MonthDraw(cleanliness: real, segregation: real, collection: real)

  predicate ValidMonthDraw(d: MonthDraw)
  {
    IsUnit(d.cleanliness) && IsUnit(d.segregation) && IsUnit(d.collection)
  }

  datatype MonthlyRow = MonthlyRow(month: string, cleanliness: real, segregation: real, collection: real)

  /** Month `i` (0 for January) trends upwards with noise, clamped. */
  function MonthlyRowOf(i: int, d: MonthDraw): MonthlyRow
    requires 0 <= i < 12 && ValidMonthDraw(d)
  {
    MonthlyRow(MonthNames[i],
               Clamp(40.0, 100.0, 60.0 + i as real * 1.5 + Uniform(-5.0, 5.0, d.cleanliness)),
               Clamp(40.0, 100.0, 65.0 + i as real * 1.2 + Uniform(-3.0, 3.0, d.segregation)),
               Clamp(70.0, 100.0, 80.0 + i as real * 0.8 + Uniform(-2.0, 2.0, d.collection)))
  }

  /** The monthly performance loop: one row per month up to the current one. */
  method WardMonthlyData(currentMonth: int, draws: seq<MonthDraw>) returns (rows: seq<MonthlyRow>)
    requires 1 <= currentMonth <= 12 && |draws| == currentMonth
    requires forall i :: 0 <= i < |draws| ==> ValidMonthDraw(draws[i])
    ensures |rows| == currentMonth
    ensures forall i :: 0 <= i < |rows| ==> rows[i] == MonthlyRowOf(i, draws[i]) && rows[i].month == MonthNames[i]
  {
    rows := [];
    var i := 0;
    while i < currentMonth
      invariant 0 <= i <= currentMonth && |rows| == i
      invariant forall k :: 0 <= k < i ==> rows[k] == MonthlyRowOf(k, draws[k])
    {
      var d := draws[i];
      var cleanliness := Clamp(40.0, 100.0, 60.0 + i as real * 1.5 + Uniform(-5.0, 5.0, d.cleanliness));
      var segregation := Clamp(40.0, 100.0, 65.0 + i as real * 1.2 + Uniform(-3.0, 3.0, d.segregation));
      var collection := Clamp(70.0, 100.0, 80.0 + i as real * 0.8 + Uniform(-2.0, 2.0, d.collection));
      rows := rows + [MonthlyRow(MonthNames[i], cleanliness, segregation, collection)];
      i := i + 1;
    }
  }

  /** Cleanliness and segregation lie in [40, 100], collection in [70, 100];
      within a year the unclamped values already do, so the clamps never
      change a value. */
  lemma MonthlyRowBounds(i: int, d: MonthDraw)
    requires 0 <= i < 12 && ValidMonthDraw(d)
    ensures var r := MonthlyRowOf(i, d);
      && 40.0 <= r.cleanliness <= 100.0 && 40.0 <= r.segregation <= 100.0 && 70.0 <= r.collection <= 100.0
      && r.cleanliness == 60.0 + i as real * 1.5 + Uniform(-5.0, 5.0, d.cleanliness)
      && r.segregation == 65.0 + i as real * 1.2 + Uniform(-3.0, 3.0, d.segregation)
      && r.collection == 80.0 + i as real * 0.8 + Uniform(-2.0, 2.0, d.collection)
  {
    ClampBounds(40.0, 100.0, 60.0 + i as real * 1.5 + Uniform(-5.0, 5.0, d.cleanliness));
    ClampBounds(40.0, 100.0, 65.0 + i as real * 1.2 + Uniform(-3.0, 3.0, d.segregation));
    ClampBounds(70.0, 100.0, 80.0 + i as real * 0.8 + Uniform(-2.0, 2.0, d.collection));
  }

  // ---------------------------------------------------------------------
  // Segregation rates by category
  // ---------------------------------------------------------------------

  const SegregationCategories: seq<string> := [
    "Wet Waste", "Dry Waste", "Domestic Hazardous", "Sanitary Waste",
    "E-Waste", "Construction Debris", "Garden Waste"
  ]

  datatype AreaRate = AreaRate(category: string, segregationRate: real, area: string)

  /** The city rate and the offset of the ward rate from it. */
  datatype RateDraw = RateDraw(city: real, offset: real)

  predicate ValidRateDraw(d: RateDraw) { IsUnit(d.city) && IsUnit(d.offset) }

  function CityRate(d: RateDraw): real
    requires ValidRateDraw(d)
  {
    Uniform(70.0, 95.0, d.city)
  }

  /** The ward rate follows the city rate within 10 points, kept in [50, 100]. */
  function WardRate(d: RateDraw): real
    requires ValidRateDraw(d)
  {
    MaxReal(50.0, MinReal(100.0, CityRate(d) + Uniform(-10.0, 10.0, d.offset)))
  }

  /** The ward rate lies in [50, 100], indeed in [60, 100], and never
      differs from the city rate by more than 10 points. */
  lemma WardRateBounds(d: RateDraw)
    requires ValidRateDraw(d)
    ensures 50.0 <= WardRate(d) <= 100.0
    ensures 60.0 <= WardRate(d)
    ensures -10.0 <= WardRate(d) - CityRate(d) <= 10.0
  {
  }

  /** The per-category loop: a city row and a ward row per category. */
  method SegregationByCategory(userWard: string, draws: seq<RateDraw>) returns (cityData: seq<AreaRate>, wardData: seq<AreaRate>)
    requires |draws| == |SegregationCategories| && forall i :: 0 <= i < |draws| ==> ValidRateDraw(draws[i])
    ensures |cityData| == |wardData| == |SegregationCategories|
    ensures forall i :: 0 <= i < |cityData| ==>
      && cityData[i] == AreaRate(SegregationCategories[i], CityRate(draws[i]), "Bengaluru City")
      && wardData[i] == AreaRate(SegregationCategories[i], WardRate(draws[i]), userWard + " Ward")
  {
    cityData, wardData := [], [];
    var i := 0;
    while i < |SegregationCategories|
      invariant 0 <= i <= |SegregationCategories| && |cityData| == |wardData| == i
      invariant forall k :: 0 <= k < i ==>
        && cityData[k] == AreaRate(SegregationCategories[k], CityRate(draws[k]), "Bengaluru City")
        && wardData[k] == AreaRate(SegregationCategories[k], WardRate(draws[k]), userWard + " Ward")
    {
      var category := SegregationCategories[i];
      var cityRate := Uniform(70.0, 95.0, draws[i].city);
      var wardRate := MaxReal(50.0, MinReal(100.0, cityRate + Uniform(-10.0, 10.0, draws[i].offset)));
      cityData := cityData + [AreaRate(category, cityRate, "Bengaluru City")];
      wardData := wardData + [AreaRate(category, wardRate, userWard + " Ward")];
      i := i + 1;
    }
  }

  // ---------------------------------------------------------------------
  // Segregation trend
  // ---------------------------------------------------------------------

  datatype TrendRow = TrendRow(month: string, cityRate: real, wardRate: real)

  /** Month `i`'s city rate trends upwards from 65 and the ward follows it
      within 8 points; both are capped at 95. */
  function TrendRowOf(i: int, d: RateDraw): TrendRow
    requires 0 <= i < 12 && ValidRateDraw(d)
  {
    var city := MinReal(95.0, 65.0 + i as real * 1.5 + Uniform(-3.0, 3.0, d.city));
    TrendRow(MonthNames[i], city, MinReal(95.0, city + Uniform(-8.0, 8.0, d.offset)))
  }

  /** The trend loop: one row per month up to the current one. */
  method SegregationTrend(currentMonth: int, draws: seq<RateDraw>) returns (rows: seq<TrendRow>)
    requires 1 <= currentMonth <= 12 && |draws| == currentMonth
    requires forall i :: 0 <= i < |draws| ==> ValidRateDraw(draws[i])
    ensures |rows| == currentMonth
    ensures forall i :: 0 <= i < |rows| ==> rows[i] == TrendRowOf(i, draws[i])
  {
    rows := [];
    var baseRate := 65.0;
    var i := 0;
    while i < currentMonth
      invariant 0 <= i <= currentMonth && |rows| == i
      invariant forall k :: 0 <= k < i ==> rows[k] == TrendRowOf(k, draws[k])
    {
      var cityRate := MinReal(95.0, baseRate + i as real * 1.5 + Uniform(-3.0, 3.0, draws[i].city));
      var wardRate := MinReal(95.0, cityRate + Uniform(-8.0, 8.0, draws[i].offset));
      rows := rows + [TrendRow(MonthNames[i], cityRate, wardRate)];
      i := i + 1;
    }
  }

  /** Both rates stay at or below 95; the city rate is at least 62 and the
      ward rate at least 54. */
  lemma TrendBounds(i: int, d: RateDraw)
    requires 0 <= i < 12 && ValidRateDraw(d)
    ensures var r := TrendRowOf(i, d);
      && 62.0 <= r.cityRate <= 95.0 && 54.0 <= r.wardRate <= 95.0
  {
  }

  // ---------------------------------------------------------------------
  // Neighbouring wards and the comparison grid
  // ---------------------------------------------------------------------

  /** The ward names other than the user's, in ranking order. */
  function Others(all: seq<string>, userWard: string): (r: seq<string>)
    ensures forall x :: x in r <==> x in all && x != userWard
  {
    if all == [] then []
    else
      var rest := Others(all[1..], userWard);
      assert forall x :: x in all <==> x == all[0] || x in all[1..];
      if all[0] != userWard then [all[0]] + rest else rest
  }

  lemma {:induction false} OthersDistinct(all: seq<string>, userWard: string)
    requires Distinct(all)
    ensures Distinct(Others(all, userWard))
  {
    if all != [] {
      OthersDistinct(all[1..], userWard);
      assert all[0] !in all[1..];
    }
  }

  /** `random.sample(others, 3)` picks three distinct positions. */
  predicate ValidSample(picks: seq<int>, n: int)
  {
    |picks| == 3 && Distinct(picks) && forall i :: 0 <= i < 3 ==> 0 <= picks[i] < n
  }

  /** Three sampled other wards, then the user's ward. */
  function Neighbours(all: seq<string>, userWard: string, picks: seq<int>): seq<string>
    requires ValidSample(picks, |Others(all, userWard)|)
  {
    var others := Others(all, userWard);
    [others[picks[0]], others[picks[1]], others[picks[2]]] + [userWard]
  }

  /** Four wards, the user's last; the other three are wards of the list,
      not the user's, and with distinct names no ward appears twice. */
  lemma NeighboursFacts(all: seq<string>, userWard: string, picks: seq<int>)
    requires ValidSample(picks, |Others(all, userWard)|)
    ensures var r := Neighbours(all, userWard, picks);
      && |r| == 4 && r[3] == userWard
      && (forall i :: 0 <= i < 3 ==> r[i] in all && r[i] != userWard)
      && (Distinct(all) ==> Distinct(r))
  {
    var others := Others(all, userWard);
    var r := Neighbours(all, userWard, picks);
    assert forall i :: 0 <= i < 3 ==> r[i] == others[picks[i]] && r[i] in others;
    if Distinct(all) {
      OthersDistinct(all, userWard);
    }
  }

  datatype Metric = CleanlinessScore | SegregationRate | CollectionEfficiency | ComplaintResolution

  const ComparisonMetrics: seq<Metric> :=
    [CleanlinessScore, SegregationRate, CollectionEfficiency, ComplaintResolution]

  datatype ComparisonRow = ComparisonRow(ward: string, metric: Metric, value: real, isUserWard: bool)

  /** A ward's ranking score, or 70 when the ranking has no such ward. */
  function ScoreOrDefault(ranked: seq<WC.WardScore>, ward: string): int
  {
    match FindWard(ranked, ward)
    case Some(w) => w.score
    case None => 70
  }

  /** The three draws a ward's random metrics use, in order. */
  predicate ValidWardDraws(d: seq<real>) { |d| == 3 && AllUnit(d) }

  function MetricValue(ranked: seq<WC.WardScore>, ward: string, m: Metric, d: seq<real>): real
    requires ValidWardDraws(d)
  {
    match m
    case CleanlinessScore => ScoreOrDefault(ranked, ward) as real
    case SegregationRate => Uniform(70.0, 95.0, d[0])
    case CollectionEfficiency => Uniform(85.0, 98.0, d[1])
    case ComplaintResolution => Uniform(75.0, 95.0, d[2])
  }

  /** The four rows of one ward, one per metric. */
  function WardRows(ward: string, userWard: string, ranked: seq<WC.WardScore>, d: seq<real>): (rows: seq<ComparisonRow>)
    requires ValidWardDraws(d)
    ensures |rows| == 4
    ensures forall m :: 0 <= m < 4 ==>
      rows[m] == ComparisonRow(ward, ComparisonMetrics[m], MetricValue(ranked, ward, ComparisonMetrics[m], d), ward == userWard)
  {
    seq(4, m requires 0 <= m < 4 =>
      ComparisonRow(ward, ComparisonMetrics[m], MetricValue(ranked, ward, ComparisonMetrics[m], d), ward == userWard))
  }

  predicate ValidGridDraws(ds: seq<seq<real>>)
  {
    forall j :: 0 <= j < |ds| ==> ValidWardDraws(ds[j])
  }

  /** The grid: each ward's rows in neighbour order. */
  function Grid(ns: seq<string>, userWard: string, ranked: seq<WC.WardScore>, ds: seq<seq<real>>): (g: seq<ComparisonRow>)
    requires |ds| == |ns| && ValidGridDraws(ds)
    ensures |g| == 4 * |ns|
  {
    if ns == [] then []
    else
      var n := |ns| - 1;
      Grid(ns[..n], userWard, ranked, ds[..n]) + WardRows(ns[n], userWard, ranked, ds[n])
  }

  lemma GridNext(ns: seq<string>, userWard: string, ranked: seq<WC.WardScore>, ds: seq<seq<real>>, j: int)
    requires |ds| == |ns| && ValidGridDraws(ds) && 0 <= j < |ns|
    ensures Grid(ns[..j + 1], userWard, ranked, ds[..j + 1]) ==
      Grid(ns[..j], userWard, ranked, ds[..j]) + WardRows(ns[j], userWard, ranked, ds[j])
  {
    assert ns[..j + 1][..j] == ns[..j] && ds[..j + 1][..j] == ds[..j];
  }

  lemma GridAll(ns: seq<string>, userWard: string, ranked: seq<WC.WardScore>, ds: seq<seq<real>>)
    requires |ds| == |ns| && ValidGridDraws(ds)
    ensures Grid(ns[..|ns|], userWard, ranked, ds[..|ds|]) == Grid(ns, userWard, ranked, ds)
  {
    assert ns[..|ns|] == ns && ds[..|ds|] == ds;
  }

  /** The comparison loop: for each ward, one row per metric, with the
      ward's own draws for the random metrics. */
  method ComparisonGrid(ns: seq<string>, userWard: string, ranked: seq<WC.WardScore>, ds: seq<seq<real>>)
    returns (rows: seq<ComparisonRow>)
    requires |ds| == |ns| && ValidGridDraws(ds)
    ensures rows == Grid(ns, userWard, ranked, ds)
  {
    rows := [];
    var j := 0;
    while j < |ns|
      invariant 0 <= j <= |ns|
      invariant rows == Grid(ns[..j], userWard, ranked, ds[..j])
    {
      var ward := ns[j];
      var isUserWard := ward == userWard;
      var wardRows := WardRows(ward, userWard, ranked, ds[j]);
      ghost var before := rows;
      var m := 0;
      while m < 4
        invariant 0 <= m <= 4
        invariant rows == before + wardRows[..m]
      {
        var metric := ComparisonMetrics[m];
        var value: real;
        if metric == CleanlinessScore {
          value := ScoreOrDefault(ranked, ward) as real;
        } else if metric == SegregationRate {
          value := Uniform(70.0, 95.0, ds[j][0]);
        } else if metric == CollectionEfficiency {
          value := Uniform(85.0, 98.0, ds[j][1]);
        } else {
          value := Uniform(75.0, 95.0, ds[j][2]);
        }
        rows := rows + [ComparisonRow(ward, metric, value, isUserWard)];
        assert wardRows[..m + 1] == wardRows[..m] + [wardRows[m]];
        m := m + 1;
      }
      assert wardRows[..4] == wardRows;
      GridNext(ns, userWard, ranked, ds, j);
      j := j + 1;
    }
    GridAll(ns, userWard, ranked, ds);
  }

  /** Row `4 j + m` is metric `m` of ward `j`, so each ward's flag says
      whether it is the user's ward. */
  lemma {:induction false} GridAt(ns: seq<string>, userWard: string, ranked: seq<WC.WardScore>, ds: seq<seq<real>>,
                                  j: int, m: int)
    requires |ds| == |ns| && ValidGridDraws(ds) && 0 <= j < |ns| && 0 <= m < 4
    ensures Grid(ns, userWard, ranked, ds)[4 * j + m] == WardRows(ns[j], userWard, ranked, ds[j])[m]
  {
    var n := |ns| - 1;
    if j < n {
      GridAt(ns[..n], userWard, ranked, ds[..n], j, m);
      assert ns[..n][j] == ns[j] && ds[..n][j] == ds[j];
    }
  }

  /** With the four neighbours the grid has 16 rows, and the user's ward is
      flagged on the last four. */
  lemma NeighbourGridSize(all: seq<string>, userWard: string, picks: seq<int>,
                          ranked: seq<WC.WardScore>, ds: seq<seq<real>>)
    requires ValidSample(picks, |Others(all, userWard)|)
    requires |ds| == 4 && ValidGridDraws(ds)
    ensures var g := Grid(Neighbours(all, userWard, picks), userWard, ranked, ds);
      |g| == 16 && forall m :: 12 <= m < 16 ==> g[m].isUserWard
  {
    var ns := Neighbours(all, userWard, picks);
    NeighboursFacts(all, userWard, picks);
    forall m | 12 <= m < 16
      ensures Grid(ns, userWard, ranked, ds)[m].isUserWard
    {
      GridAt(ns, userWard, ranked, ds, 3, m - 12);
    }
  }

  // ---------------------------------------------------------------------
  // The grid as written: the ranking call restarts the generator
  // ---------------------------------------------------------------------

  /** Each cleanliness value is looked up by calling the ranking, which
      seeds the generator with 42 and then makes the same draws, so the three
      draws that follow are the same for every ward: the draws `after` that
      come after the ranking's own. */
  function ReseededDraws(n: nat, after: seq<real>): (ds: seq<seq<real>>)
    ensures |ds| == n && forall j :: 0 <= j < n ==> ds[j] == after
  {
    seq(n, j => after)
  }

  /** As written, every ward shows the same segregation rate, collection
      efficiency and complaint resolution. */
  lemma ReseedRepeatsValues(ns: seq<string>, userWard: string, ranked: seq<WC.WardScore>, after: seq<real>,
                            j: int, k: int, m: int)
    requires ValidWardDraws(after) && 0 <= j < |ns| && 0 <= k < |ns| && 1 <= m < 4
    ensures var g := Grid(ns, userWard, ranked, ReseededDraws(|ns|, after));
      g[4 * j + m].value == g[4 * k + m].value
  {
    GridAt(ns, userWard, ranked, ReseededDraws(|ns|, after), j, m);
    GridAt(ns, userWard, ranked, ReseededDraws(|ns|, after), k, m);
  }

  lemma UniformInjective(lo: real, hi: real, u: real, v: real)
    requires lo < hi && IsUnit(u) && IsUnit(v) && u != v
    ensures Uniform(lo, hi, u) != Uniform(lo, hi, v)
  {
    if u < v {
      ScaleBounds(hi - lo, v - u);
      ScaleDifference(hi - lo, v, u);
    } else {
      ScaleBounds(hi - lo, u - v);
      ScaleDifference(hi - lo, u, v);
    }
  }

  lemma ScaleDifference(w: real, a: real, b: real)
    ensures Scale(w, a) - Scale(w, b) == Scale(w, a - b)
  {
    assert w * (a - b) == w * a - w * b;
  }

  /** With a draw per ward, wards whose draws differ show different values
      for that metric. */
  lemma DrawsSeparateWards(ns: seq<string>, userWard: string, ranked: seq<WC.WardScore>, ds: seq<seq<real>>,
                           j: int, k: int, m: int)
    requires |ds| == |ns| && ValidGridDraws(ds)
    requires 0 <= j < |ns| && 0 <= k < |ns| && 1 <= m < 4 && ds[j][m - 1] != ds[k][m - 1]
    ensures var g := Grid(ns, userWard, ranked, ds);
      g[4 * j + m].value != g[4 * k + m].value
  {
    GridAt(ns, userWard, ranked, ds, j, m);
    GridAt(ns, userWard, ranked, ds, k, m);
    var lo, hi := if m == 1 then 70.0 else if m == 2 then 85.0 else 75.0,
                  if m == 1 then 95.0 else if m == 2 then 98.0 else 95.0;
    UniformInjective(lo, hi, ds[j][m - 1], ds[k][m - 1]);
  }
}
