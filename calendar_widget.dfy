/** The disposal calendar of `components/calendar_widget.py`: the history of
    disposal statuses, the month filter, the 6 x 7 grid and the monthly
    statistics. Dates are day ordinals; the calendar arithmetic that maps an
    ordinal to its year, month and day is a parameter. */
module CalendarWidget {
  import opened Common

  /** A day's status: `True`, `False` or `None`. */
  datatype Disposal = Disposed | Missed | NoData

  datatype DayStatus = DayStatus(date: int, status: Disposal)

  // ---------------------------------------------------------------------
  // generate_disposal_history
  // ---------------------------------------------------------------------

  function Sum(p: seq<real>): real
  {
    if p == [] then 0.0 else p[0] + Sum(p[1..])
  }

  /** `np.random.choice(range(|p|), p=p)` on the uniform draw `u`: the first
      index whose cumulative probability exceeds `u`. */
  function Pick(p: seq<real>, u: real): (i: nat)
    ensures i <= |p|
  {
    if p == [] then 0
    else if u < p[0] then 0
    else 1 + Pick(p[1..], u - p[0])
  }

  /** A draw below the total probability picks an existing index. */
  lemma {:induction false} PickInRange(p: seq<real>, u: real)
    requires 0.0 <= u < Sum(p)
    ensures Pick(p, u) < |p|
  {
    if p != [] && u >= p[0] {
      PickInRange(p[1..], u - p[0]);
    }
  }

  const Statuses: seq<Disposal> := [Disposed, Missed, NoData]
  const WeekdayOdds: seq<real> := [0.7, 0.2, 0.1]
  const WeekendOdds: seq<real> := [0.3, 0.6, 0.1]

  /** The status drawn for a date: weekdays favour disposal, weekends do not. */
  function StatusOf(date: int, u: real): Disposal
    requires IsUnit(u)
  {
    var odds := if Weekday(date) < 5 then WeekdayOdds else WeekendOdds;
    assert Sum(odds) == 1.0;
    PickInRange(odds, u);
    Statuses[Pick(odds, u)]
  }

  /** The three bands of the draw on a weekday and on a weekend day. */
  lemma StatusBands(date: int, u: real)
    requires IsUnit(u)
    ensures Weekday(date) < 5 ==>
      (StatusOf(date, u) == Disposed <==> u < 0.7) && (StatusOf(date, u) == NoData <==> u >= 0.9)
    ensures Weekday(date) >= 5 ==>
      (StatusOf(date, u) == Disposed <==> u < 0.3) && (StatusOf(date, u) == NoData <==> u >= 0.9)
  {
    PickBands(WeekdayOdds, u);
    PickBands(WeekendOdds, u);
  }

  /** With three odds, the draw picks by comparing against the two partial
      sums. */
  lemma PickBands(p: seq<real>, u: real)
    requires |p| == 3
    ensures Pick(p, u) == if u < p[0] then 0 else if u < p[0] + p[1] then 1 else if u < p[0] + p[1] + p[2] then 2 else 3
  {
    var q := p[1..];
    var r := q[1..];
    assert q[0] == p[1] && r[0] == p[2] && r[1..] == [];
    assert Pick(r, u - p[0] - p[1]) == if u - p[0] - p[1] < p[2] then 0 else 1 + Pick(r[1..], u - p[0] - p[1] - p[2]);
    assert Pick(q, u - p[0]) == if u - p[0] < p[1] then 0 else 1 + Pick(r, u - p[0] - p[1]);
  }

  /** The history for `draws`, one draw per date from `today - days` on. */
  function History(today: int, days: int, draws: seq<real>): (h: seq<DayStatus>)
    requires |draws| == |DateRange(today, days)| && AllUnit(draws)
    ensures |h| == |draws|
    ensures forall i :: 0 <= i < |h| ==> h[i] == DayStatus(today - days + i, StatusOf(today - days + i, draws[i]))
  {
    seq(|draws|, i requires 0 <= i < |draws| => DayStatus(today - days + i, StatusOf(today - days + i, draws[i])))
  }

  /** `generate_disposal_history(user_id, days)`: one status per date of the
      window that ends today. */
  method DisposalHistory(today: int, days: int, draws: seq<real>) returns (history: seq<DayStatus>)
    requires |draws| == |DateRange(today, days)| && AllUnit(draws)
    ensures history == History(today, days, draws)
  {
    var dateRange := DateRange(today, days);
    history := [];
    var i := 0;
    while i < |dateRange|
      invariant 0 <= i <= |dateRange|
      invariant history == History(today, days, draws)[..i]
    {
      var date := dateRange[i];
      history := history + [DayStatus(date, StatusOf(date, draws[i]))];
      i := i + 1;
    }
  }

  /** The history has `days + 1` entries on consecutive dates ending today. */
  lemma HistoryShape(today: int, days: int, draws: seq<real>)
    requires days >= 0
    requires |draws| == |DateRange(today, days)| && AllUnit(draws)
    ensures var h := History(today, days, draws);
      && |h| == days + 1 && h[0].date == today - days && h[days].date == today
      && forall i :: 0 < i < |h| ==> h[i].date == h[i - 1].date + 1
  {
  }

  // ---------------------------------------------------------------------
  // The month filter and the day -> status map
  // ---------------------------------------------------------------------

  /** A date's year, month and day in the proleptic Gregorian calendar. */
  datatype Civil = Civil(year: int, month: int, day: int)

  /** The mask `date.month == month & date.year == year`. */
  predicate InMonth(x: DayStatus, civil: int -> Civil, month: int, year: int)
  {
    civil(x.date).month == month && civil(x.date).year == year
  }

  /** The records whose date falls in `month` of `year`, in history order. */
  function MonthHistory(h: seq<DayStatus>, civil: int -> Civil, month: int, year: int): (r: seq<DayStatus>)
    ensures |r| <= |h|
    ensures forall x :: x in r <==> x in h && InMonth(x, civil, month, year)
  {
    if h == [] then []
    else
      var rest := MonthHistory(h[1..], civil, month, year);
      assert forall x :: x in h <==> x == h[0] || x in h[1..];
      if InMonth(h[0], civil, month, year) then [h[0]] + rest else rest
  }

  /** The mask keeps a single record exactly when it falls in the month. */
  lemma MonthHistorySingle(x: DayStatus, civil: int -> Civil, month: int, year: int)
    ensures MonthHistory([x], civil, month, year) == if InMonth(x, civil, month, year) then [x] else []
  {
    assert [x][1..] == [];
  }

  /** Filtering a concatenation filters each part and keeps them in order,
      so the kept records appear in history order. */
  lemma {:induction false} MonthHistoryAppend(a: seq<DayStatus>, b: seq<DayStatus>, civil: int -> Civil, month: int, year: int)
    ensures MonthHistory(a + b, civil, month, year) == MonthHistory(a, civil, month, year) + MonthHistory(b, civil, month, year)
  {
    if a != [] {
      assert (a + b)[0] == a[0];
      assert (a + b)[1..] == a[1..] + b;
      MonthHistoryAppend(a[1..], b, civil, month, year);
    } else {
      assert a + b == b;
    }
  }

  /** Each record of the month is kept as many times as it occurs in the
      history, and no other record is kept. */
  lemma {:induction false} MonthHistoryMultiplicity(h: seq<DayStatus>, civil: int -> Civil, month: int, year: int)
    ensures forall x :: multiset(MonthHistory(h, civil, month, year))[x] ==
                        (if InMonth(x, civil, month, year) then multiset(h)[x] else 0)
  {
    if h != [] {
      MonthHistoryMultiplicity(h[1..], civil, month, year);
      assert h == [h[0]] + h[1..];
      assert multiset(h) == multiset{h[0]} + multiset(h[1..]);
    }
  }

  /** `dict(zip(days, statuses))`: each day of the month maps to its status;
      a later record for the same day replaces an earlier one. */
  function StatusMap(mh: seq<DayStatus>, civil: int -> Civil): (m: map<int, Disposal>)
    ensures forall d :: d in m <==> exists i :: 0 <= i < |mh| && civil(mh[i].date).day == d
  {
    if mh == [] then map[]
    else
      var n := |mh| - 1;
      var prev := StatusMap(mh[..n], civil);
      assert forall i :: 0 <= i < n ==> mh[..n][i] == mh[i];
      prev[civil(mh[n].date).day := mh[n].status]
  }

  /** The map keeps, for each day, the status of the last record of that day. */
  lemma {:induction false} StatusMapLast(mh: seq<DayStatus>, civil: int -> Civil, i: int)
    requires 0 <= i < |mh|
    requires forall j :: i < j < |mh| ==> civil(mh[j].date).day != civil(mh[i].date).day
    ensures StatusMap(mh, civil)[civil(mh[i].date).day] == mh[i].status
  {
    var n := |mh| - 1;
    if i < n {
      StatusMapLast(mh[..n], civil, i);
    }
  }

  /** `date_status_map.get(day, None)`. */
  function DayStatusOf(m: map<int, Disposal>, day: int): Disposal
  {
    if day in m then m[day] else NoData
  }

  /** A day without a record shows no data. */
  lemma UnrecordedDayShowsNoData(mh: seq<DayStatus>, civil: int -> Civil, day: int)
    requires forall i :: 0 <= i < |mh| ==> civil(mh[i].date).day != day
    ensures DayStatusOf(StatusMap(mh, civil), day) == NoData
  {
  }

  // ---------------------------------------------------------------------
  // The calendar grid
  // ---------------------------------------------------------------------

  /** A grid cell: never written, written empty, or showing a day. */
  datatype Cell = Untouched | Blank | DayCell(day: int, status: Disposal)

  /** What the loop leaves in row `w`, column `c`: week 0 is blank before the
      first weekday of the month; day `d` sits at position `firstDay + d - 1`
      counted row by row; positions past the last day are never written. */
  function ExpectedCell(firstDay: int, daysInMonth: int, m: map<int, Disposal>, w: int, c: int): Cell
  {
    if w == 0 && c < firstDay then Blank
    else
      var day := 7 * w + c - firstDay + 1;
      if day <= daysInMonth then DayCell(day, DayStatusOf(m, day)) else Untouched
  }

  /** The number of days written once `pos` cells have been visited. */
  function Placed(firstDay: int, daysInMonth: int, pos: int): int
  {
    if pos <= firstDay then 0 else MinInt(pos - firstDay, daysInMonth)
  }

  /** The grid loop of `render_calendar_widget`: six weeks of seven days,
      skipping week 0's leading cells, stopping after the last day. `weeks`
      is the number of rows the loop opened. */
  method FillGrid(firstDay: int, daysInMonth: int, m: map<int, Disposal>) returns (grid: array2<Cell>, weeks: int)
    requires 0 <= firstDay <= 6 && daysInMonth >= 1
    ensures fresh(grid) && grid.Length0 == 6 && grid.Length1 == 7
    ensures forall w, c :: 0 <= w < 6 && 0 <= c < 7 ==> grid[w, c] == ExpectedCell(firstDay, daysInMonth, m, w, c)
    ensures weeks == MinInt(6, (firstDay + daysInMonth - 1) / 7 + 1)
  {
    grid := new Cell[6, 7]((w, c) => Untouched);
    var dayCounter := 1;
    weeks := 0;
    var week := 0;
    while week < 6
      invariant 0 <= week <= 6 && weeks == week
      invariant dayCounter == Placed(firstDay, daysInMonth, 7 * week) + 1
      invariant week > 0 ==> dayCounter <= daysInMonth
      invariant forall w, c :: 0 <= w < 6 && 0 <= c < 7 ==>
        grid[w, c] == if w < week then ExpectedCell(firstDay, daysInMonth, m, w, c) else Untouched
    {
      weeks := weeks + 1;
      var weekday := 0;
      while weekday < 7
        invariant 0 <= weekday <= 7
        invariant dayCounter == Placed(firstDay, daysInMonth, 7 * week + weekday) + 1
        invariant forall w, c :: 0 <= w < 6 && 0 <= c < 7 ==>
          grid[w, c] == if w < week || (w == week && c < weekday) then ExpectedCell(firstDay, daysInMonth, m, w, c) else Untouched
      {
        if week == 0 && weekday < firstDay {
          grid[week, weekday] := Blank;
          weekday := weekday + 1;
          continue;
        }
        if dayCounter > daysInMonth {
          break;
        }
        grid[week, weekday] := DayCell(dayCounter, DayStatusOf(m, dayCounter));
        dayCounter := dayCounter + 1;
        weekday := weekday + 1;
      }
      if dayCounter > daysInMonth {
        break;
      }
      week := week + 1;
    }
  }

  /** For a real month (28 to 31 days starting on any weekday) six weeks are
      enough: every day of the month is written once, in its weekday column. */
  lemma GridHoldsEveryDay(firstDay: int, daysInMonth: int, m: map<int, Disposal>, d: int)
    requires 0 <= firstDay <= 6 && 28 <= daysInMonth <= 31 && 1 <= d <= daysInMonth
    ensures var pos := firstDay + d - 1;
      && pos / 7 < 6
      && ExpectedCell(firstDay, daysInMonth, m, pos / 7, pos % 7) == DayCell(d, DayStatusOf(m, d))
  {
  }

  /** Only week 0's cells before the first weekday are blank, and every day
      cell shows a day of the month with its recorded status. */
  lemma GridCells(firstDay: int, daysInMonth: int, m: map<int, Disposal>, w: int, c: int)
    requires 0 <= firstDay <= 6 && 0 <= w && 0 <= c < 7
    ensures ExpectedCell(firstDay, daysInMonth, m, w, c) == Blank <==> w == 0 && c < firstDay
    ensures var cell := ExpectedCell(firstDay, daysInMonth, m, w, c);
      cell.DayCell? ==> 1 <= cell.day <= daysInMonth && cell.status == DayStatusOf(m, cell.day)
  {
  }

  /** No two cells show the same day. */
  lemma GridDaysDistinct(firstDay: int, daysInMonth: int, m: map<int, Disposal>, w1: int, c1: int, w2: int, c2: int)
    requires 0 <= c1 < 7 && 0 <= c2 < 7
    requires ExpectedCell(firstDay, daysInMonth, m, w1, c1).DayCell?
    requires ExpectedCell(firstDay, daysInMonth, m, w1, c1) == ExpectedCell(firstDay, daysInMonth, m, w2, c2)
    ensures w1 == w2 && c1 == c2
  {
  }

  /** Days increase along the grid, row by row. */
  lemma GridDaysIncrease(firstDay: int, daysInMonth: int, m: map<int, Disposal>, w1: int, c1: int, w2: int, c2: int)
    requires 0 <= c1 < 7 && 0 <= c2 < 7 && 7 * w1 + c1 < 7 * w2 + c2
    requires ExpectedCell(firstDay, daysInMonth, m, w1, c1).DayCell?
    requires ExpectedCell(firstDay, daysInMonth, m, w2, c2).DayCell?
    ensures ExpectedCell(firstDay, daysInMonth, m, w1, c1).day < ExpectedCell(firstDay, daysInMonth, m, w2, c2).day
  {
  }

  // ---------------------------------------------------------------------
  // Monthly statistics
  // ---------------------------------------------------------------------

  function StatusOfDay(d: DayStatus): Disposal { d.status }

  /** The records with status `s`. */
  function Count(h: seq<DayStatus>, s: Disposal): nat { CountBy(h, StatusOfDay, s) }

  lemma {:induction false} CountsPartition(h: seq<DayStatus>)
    ensures Count(h, Disposed) + Count(h, Missed) + Count(h, NoData) == |h|
  {
    if h != [] {
      CountsPartition(h[1..]);
      assert Count(h, h[0].status) == 1 + Count(h[1..], h[0].status);
      assert forall s :: s != h[0].status ==> Count(h, s) == Count(h[1..], s);
    }
  }

  datatype MonthStats = MonthStats(totalDays: int, disposed: int, missed: int, percentage: real)

  /** The statistics block: with no records everything is zero; otherwise
      `disposed` counts the `True` days, `missed` adds the `None` days to the
      days that were not `True`, and the percentage is disposed over total. */
  function MonthlyStatistics(mh: seq<DayStatus>): MonthStats
  {
    var total := |mh|;
    if total > 0 then
      var disposed := Count(mh, Disposed);
      MonthStats(total, disposed, Count(mh, NoData) + (total - disposed), Percent(disposed, total))
    else MonthStats(0, 0, 0, 0.0)
  }

  /** Days without data are counted twice as missed, so disposed plus missed
      exceeds the number of days by exactly the days without data; the
      percentage lies in [0, 100]. */
  lemma MonthlyStatisticsFacts(mh: seq<DayStatus>)
    ensures var s := MonthlyStatistics(mh);
      && s.totalDays == |mh|
      && (mh == [] ==> s == MonthStats(0, 0, 0, 0.0))
      && s.disposed == Count(mh, Disposed)
      && s.missed == Count(mh, Missed) + 2 * Count(mh, NoData)
      && s.disposed + s.missed == s.totalDays + Count(mh, NoData)
      && 0.0 <= s.percentage <= 100.0
  {
    CountsPartition(mh);
    if mh != [] {
      PercentBounds(Count(mh, Disposed), |mh|);
    }
  }

  /** One day without data in the month already shows two missed days. */
  lemma NoDataCountedTwice(date: int)
    ensures var s := MonthlyStatistics([DayStatus(date, NoData)]);
      s.totalDays == 1 && s.missed == 2
  {
    var mh := [DayStatus(date, NoData)];
    assert Count(mh[1..], Missed) == 0 && Count(mh[1..], NoData) == 0 && Count(mh[1..], Disposed) == 0;
  }

  /** The statistics as evidently intended: every day that was not `True`,
      recorded as missed or without data, counts once as missed. */
  function IntendedMonthlyStatistics(mh: seq<DayStatus>): MonthStats
  {
    var total := |mh|;
    if total > 0 then
      var disposed := Count(mh, Disposed);
      MonthStats(total, disposed, total - disposed, Percent(disposed, total))
    else MonthStats(0, 0, 0, 0.0)
  }

  /** Then disposed and missed days partition the recorded days. */
  lemma IntendedMonthlyStatisticsFacts(mh: seq<DayStatus>)
    ensures var s := IntendedMonthlyStatistics(mh);
      && s.totalDays == |mh|
      && (mh == [] ==> s == MonthStats(0, 0, 0, 0.0))
      && s.disposed == Count(mh, Disposed)
      && s.missed == Count(mh, Missed) + Count(mh, NoData)
      && s.disposed + s.missed == s.totalDays
      && 0.0 <= s.percentage <= 100.0
  {
    CountsPartition(mh);
    if mh != [] {
      PercentBounds(Count(mh, Disposed), |mh|);
    }
  }
}
