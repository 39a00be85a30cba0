# BBMP waste-management dashboard: the deterministic rules, in Dafny

The dashboard gives Bengaluru's wards a cleanliness score and ranking. It shows
a household's waste statistics, disposal calendar, rewards and leaderboard,
lists the ward's complaints, and makes improvement recommendations. Almost
every number it shows is a random draw. This model treats each draw, today's
date and the calendar facts (weekday of the 1st, month length) as inputs
constrained to their ranges. It then states and proves the rules the
dashboard applies to them:

- the ranking and classification of the 12 wards;
- the 31-day waste window with its weekend rule and time series;
- the complaint priorities;
- the incentive, milestone, badge and leaderboard rules of the rewards page;
- the disposal history, month filter, 6×7 grid fill and monthly statistics
  of the calendar widget;
- the issue summary and the grouping of complaints by location;
- the ward recommendations and the clamped metric series;
- the round trip of the waste record through a dictionary;
- the login check.

Modules, one per source file, plus two shared ones:

- `Common` (`common.dfy`): the draw convention. `Uniform(lo, hi, u)` is
  `random.uniform` for a unit draw `u` in [0, 1). It also holds weekdays,
  the date window and percentages.
- `Sorting` (`sorting.dfy`): Python's stable `sorted(..., reverse=True)` as
  an insertion sort by key. It is proved sorted, a permutation and stable.
- `WasteController`, `Rewards`, `CalendarWidget`, `Dashboard`, `Metrics`,
  `WasteModel`, `UserController`: one module per source file.

Where the source updates state step by step, the model uses a method:

- a loop that appends or fills in place;
- a dictionary updated per complaint;
- the grid's nested loop with `continue` and `break`, over an `array2`.

Each such method is proved equal to a specification function. The
properties are proved about that function. Pure rules are functions with
lemmas.

## Model

| member | source | states |
|---|---|---|
| WasteController.WardsDistinct | controllers/waste_controller.py:10-14 | the ward list holds 12 wards, no ward twice |
| WasteController.CategoryMonotone | controllers/waste_controller.py:24-32 | a higher score never gets a lower category (thresholds 80/60/40) |
| WasteController.DrawnScoreCategory | controllers/waste_controller.py:22-32 | a score drawn from 40..95 is never "Needs Improvement" |
| WasteController.ScoreWards | controllers/waste_controller.py:19-46 | the loop builds one entry per ward, in ward-list order, from that ward's draws |
| WasteController.UnsortedScoresFacts | controllers/waste_controller.py:19-46 | before sorting, the entries name exactly the ward list in order, each with the category its score deserves |
| WasteController.AssignRanks | controllers/waste_controller.py:50-51 | the second loop overwrites every provisional rank with position + 1 and changes nothing else |
| WasteController.WardCleanlinessScores | controllers/waste_controller.py:6-53 | the result is the stable descending sort of the entries with ranks 1..12 in order; scores never increase along it; it names every ward exactly once; every category matches its score |
| WasteController.RankingFacts | controllers/waste_controller.py:48-51 | sorting then ranking gives non-increasing scores, the same multiset of wards, and keeps every category consistent with its score |
| WasteController.RankedSorted | controllers/waste_controller.py:49 | a list with the sorted list's scores, position by position, is non-increasing |
| WasteController.RankedWards | controllers/waste_controller.py:49 | a list with the sorted list's wards, position by position, holds the same wards as the input |
| WasteController.RankedCategories | controllers/waste_controller.py:49-51 | rewriting ranks keeps every score's category correct |
| WasteController.RankingStable | controllers/waste_controller.py:49 | wards with equal scores keep their ward-list order after ranking |
| WasteController.TypeProfiles | controllers/waste_controller.py:75-81 | the five per-type amounts and segregation fractions lie in their drawn ranges |
| WasteController.TypeProfilesValid | controllers/waste_controller.py:75-81 | all five amounts are positive, so the total is never zero and every share is defined |
| WasteController.FractionInUnit | controllers/waste_controller.py:124 | each type's share of the total amount lies in (0, 1] |
| WasteController.FractionsSumToOne | controllers/waste_controller.py:124 | the five shares sum to exactly 1 |
| WasteController.DailyRecordRanges | controllers/waste_controller.py:84-110 | weekend days get waste in [5, 9] and segregation in [70, 85]; weekdays get [3, 6] and [80, 95]; the other rates lie in their ranges |
| WasteController.DaySeries | controllers/waste_controller.py:122-132 | each date contributes five entries, one per waste type in the order Wet, Dry, Hazardous, E-waste, Garden |
| WasteController.VariedBounds | controllers/waste_controller.py:125 | the daily variation keeps an amount within 20% of its share |
| WasteController.SharesAddUp | controllers/waste_controller.py:124-125 | before variation the five shares add up to the day's waste |
| WasteController.SeriesAmountsWithinTwentyPercent | controllers/waste_controller.py:122-132 | one date's five amounts add up to within 20% of that day's waste |
| WasteController.SumWasteBounds | controllers/waste_controller.py:88-95 | the total of n days lies between 3n and 9n |
| WasteController.StatsDaily | controllers/waste_controller.py:83-119 | the daily list has one record per date, in date order, from today − 30 on |
| WasteController.StatsSeries | controllers/waste_controller.py:83-132 | the series holds exactly five entries per date, grouped by date in the daily list's order |
| WasteController.StatsTotal | controllers/waste_controller.py:95 | the running total equals the sum of the daily waste figures |
| WasteController.StatsTotalBounds | controllers/waste_controller.py:83-95 | over the 31-day window the total lies in [93, 279] |
| WasteController.WasteStats | controllers/waste_controller.py:55-132 | the accumulating loops produce the type profiles, the 31 daily records, the 155-entry series and a total in [93, 279] |
| WasteController.AppendDaySeries | controllers/waste_controller.py:122-132 | the inner loop appends exactly the date's five entries to the series |
| WasteController.PriorityBands | controllers/waste_controller.py:237 | priority is High iff age > 7, Medium iff 3 < age ≤ 7, Low iff age ≤ 3 |
| WasteController.ActiveComplaints | controllers/waste_controller.py:192-241 | one complaint per draw; age in 1..10; reported date = today − age; priority follows the age bands |
| Common.Uniform | controllers/waste_controller.py:88-91 | a uniform draw between lo and hi lies in [lo, hi], below hi when lo < hi |
| Common.Weekday | controllers/waste_controller.py:85 | the weekday of a date lies in 0..6 |
| Common.DateRange | controllers/waste_controller.py:63-65 | the window has days + 1 dates, the i-th being end − days + i |
| Common.DateRangeConsecutive | controllers/waste_controller.py:63-65 | the window starts at end − days, ends at end, and its dates are consecutive |
| Sorting.SortDescSorted | controllers/waste_controller.py:49 | the descending sort is non-increasing in its key |
| Sorting.SortDescPermutation | controllers/waste_controller.py:49 | the descending sort is a permutation of its input |
| Sorting.SortDescStable | controllers/waste_controller.py:49 | elements with equal keys keep their input order |
| Sorting.FirstIsLargest | controllers/waste_controller.py:49-51 | after the descending sort, the first element (rank 1) has the largest key of all |
| Rewards.IncentiveMonotone | views/rewards_view.py:27-29 | each incentive never decreases as points grow |
| Rewards.IncentiveCapped | views/rewards_view.py:27-29 | each incentive never exceeds its cap, and is 0 at 0 points |
| Rewards.IncentiveSaturates | views/rewards_view.py:27-29 | an incentive reaches its cap iff points ≥ cap × divisor |
| Rewards.IncentiveThresholds | views/rewards_view.py:27-29 | the rebate caps at 200 points, the SWM discount at 225, the water discount at 187.5 |
| Rewards.NextMilestoneAhead | views/rewards_view.py:54 | the milestone is ahead of the points iff they are below 300; then "more to go" is between 1 and 100; it is a multiple of 100 and at most 300 |
| Rewards.ProgressWidth | views/rewards_view.py:95 | the bar width never exceeds 100, is non-negative, and is the exact percentage when points ≤ milestone |
| Rewards.Achievements | views/rewards_view.py:39-44 | the four badges are Waste Warrior, Compost Champion, Clean Street Leader and Zero Waste Household, in that order; Waste Warrior is always earned and dated; Compost Champion is earned iff points ≥ 100 and dated iff earned; Zero Waste is never earned |
| Rewards.RewardDataFacts | views/rewards_view.py:14-60 | longest streak ≥ current streak and ≥ 7; incentives lie within their caps; eligible iff points ≥ 100, so the "more points needed" figure is positive iff not eligible; milestone ahead by at most 100; six months and six history points |
| Rewards.HouseholdNames | views/rewards_view.py:263-272 | eight households: the user's first, then the seven listed neighbours in order |
| Rewards.Entries | views/rewards_view.py:275-279 | the user's entry carries the reward points; entry i of the others pairs the i-th neighbour with its own draw |
| Rewards.Leaderboard | views/rewards_view.py:274-292 | the table is the stable descending sort of the entries, with ranks 1..8 and the user's rows flagged |
| Rewards.RowsAreSortedPairs | views/rewards_view.py:285-289 | the table's (household, points) columns are exactly the sorted pairs |
| Rewards.LeaderboardSorted | views/rewards_view.py:282-289 | ranks are 1..8 in order and points never increase down the table |
| Rewards.LeaderboardPermutation | views/rewards_view.py:282-288 | the table holds exactly the eight (name, points) pairs |
| Rewards.UserOnLeaderboard | views/rewards_view.py:278-292 | the user appears with the reward points, flagged as the current user, at their rank |
| Rewards.LeaderboardStable | views/rewards_view.py:282 | households with equal points keep their listed order |
| CalendarWidget.PickInRange | components/calendar_widget.py:28-30 | a draw below the total probability picks one of the listed outcomes |
| CalendarWidget.StatusBands | components/calendar_widget.py:27-30 | weekdays are disposed iff u < 0.7 and have no data iff u ≥ 0.9; weekends use 0.3 and 0.9 |
| CalendarWidget.History | components/calendar_widget.py:17-31 | one entry per draw; entry i is date today − days + i with the status its draw picks |
| CalendarWidget.DisposalHistory | components/calendar_widget.py:8-39 | the appending loop builds exactly that history |
| CalendarWidget.HistoryShape | components/calendar_widget.py:17-21 | the history has days + 1 consecutive dates, ending today |
| CalendarWidget.MonthHistory | components/calendar_widget.py:66-69 | a record is kept iff its month and year are the selected ones |
| CalendarWidget.MonthHistorySingle | components/calendar_widget.py:66-69 | the mask keeps a single record iff it falls in the selected month |
| CalendarWidget.MonthHistoryAppend | components/calendar_widget.py:66-69 | filtering a concatenation is concatenating the filtered parts, so kept records stay in history order |
| CalendarWidget.MonthHistoryMultiplicity | components/calendar_widget.py:66-69 | each record of the month is kept as many times as it occurs; no other record is kept |
| CalendarWidget.StatusMap | components/calendar_widget.py:72 | a day of the month has an entry iff some kept record falls on it |
| CalendarWidget.StatusMapLast | components/calendar_widget.py:72 | when two records share a day, the later one's status wins |
| CalendarWidget.UnrecordedDayShowsNoData | components/calendar_widget.py:100 | a day with no record shows "no data" |
| CalendarWidget.FillGrid | components/calendar_widget.py:83-125 | the nested loop with its skip and two breaks leaves every cell as specified, and opens the rows the month needs, at most six |
| CalendarWidget.GridHoldsEveryDay | components/calendar_widget.py:86-125 | for a 28-31 day month, day d sits in week (first + d − 1) div 7 < 6, column (first + d − 1) mod 7, with its status |
| CalendarWidget.GridCells | components/calendar_widget.py:89-100 | only week 0's cells before the first weekday are blank; every day cell shows a day of the month and its status |
| CalendarWidget.GridDaysDistinct | components/calendar_widget.py:89-121 | no day is written in two cells |
| CalendarWidget.GridDaysIncrease | components/calendar_widget.py:89-121 | days increase along the grid, row by row |
| CalendarWidget.MonthlyStatisticsFacts | components/calendar_widget.py:139-148 | an empty month shows all zeros; otherwise disposed counts the disposed days, missed counts missed days plus twice the no-data days, and the percentage lies in [0, 100] |
| CalendarWidget.NoDataCountedTwice | components/calendar_widget.py:142-143 | a month with a single no-data day shows two missed days |
| CalendarWidget.IntendedMonthlyStatisticsFacts | components/calendar_widget.py:139-148 | with the correction, disposed and missed days partition the recorded days |
| Common.PercentBounds | components/calendar_widget.py:144 | a part of a positive whole is between 0 and 100 percent |
| Dashboard.ScoreColorBands | views/dashboard_view.py:159-167 | green iff score ≥ 80, blue iff 60 ≤ score < 80, orange iff 40 ≤ score < 60, red iff score < 40 |
| Dashboard.MapCategoryAgrees | views/dashboard_view.py:91-103 | the map's category equals the ranking's category and its colour equals the ranking's colour |
| Common.CountBy | views/dashboard_view.py:517-519 | a count of matching elements never exceeds the number of elements |
| Dashboard.Summary | views/dashboard_view.py:487-524 | there is a summary iff there are complaints, and its total is their number |
| Dashboard.PendingResolvedDisjoint | views/dashboard_view.py:517-518 | pending and resolved complaints together are at most all complaints |
| Dashboard.SummaryBounds | views/dashboard_view.py:516-524 | each count is at most the total and each percentage lies in [0, 100] |
| Dashboard.StripLeft | views/dashboard_view.py:533 | the result is a suffix that starts with no whitespace, and everything removed before it is whitespace |
| Dashboard.StripRight | views/dashboard_view.py:533 | the result is a prefix that ends with no whitespace, and everything removed after it is whitespace |
| Dashboard.BeforeComma | views/dashboard_view.py:533 | the result is the longest prefix without a comma |
| Dashboard.BeforeCommaPrefix | views/dashboard_view.py:533 | text without a comma followed by a comma part splits back into that text |
| Dashboard.PlaceBeforeComma | views/dashboard_view.py:533 | the text before the first comma of "place, ward" (or of a bare place) is the place, when the place has no comma |
| Dashboard.KeyRecoversPlace | views/dashboard_view.py:533 | the key of "place, ward" is the place |
| Dashboard.GeneratedComplaintKey | controllers/waste_controller.py:225 | a generated complaint is grouped under its drawn place |
| Dashboard.FirstSeenMembers | views/dashboard_view.py:531-537 | the key order lists every key once, and nothing else |
| Dashboard.TalliesNext | views/dashboard_view.py:534-537 | one step of the grouping loop counts one more complaint under its key and keeps the tally exact |
| Dashboard.TalliesAll | views/dashboard_view.py:531-537 | the tally of the whole prefix is the tally of the complaints |
| Dashboard.GroupByLocation | views/dashboard_view.py:531-537 | each key's count is the number of complaints with that key; keys appear in first-seen order |
| Dashboard.CountsSumToTotal | views/dashboard_view.py:531-537 | the occurrence counts of the distinct keys sum to the number of complaints |
| Dashboard.SumCountsIsTotal | views/dashboard_view.py:531-537 | summing the dictionary's counts over its keys is summing the occurrences |
| Dashboard.GroupedCountsSum | views/dashboard_view.py:531-543 | every listed key has a count, and the counts sum to the number of complaints |
| Dashboard.Rows | views/dashboard_view.py:540-542 | one (location, count) row per key, in key order |
| Dashboard.LocationTableSorted | views/dashboard_view.py:540-543 | the table is sorted by count, non-increasing, and is a permutation of the rows |
| Metrics.FindWard | views/metrics_view.py:545 | the ward's entry is found iff some entry has that name, and it is such an entry |
| Metrics.PriorityBands | views/metrics_view.py:549-554 | high iff score < 60, medium iff 60 ≤ score < 80, low iff score ≥ 80 |
| Metrics.Recommendations | views/metrics_view.py:569-591 | hotspot actions first iff score < 70, decline actions next iff change < 0, generic actions last, cut to five |
| Metrics.ClampBounds | views/metrics_view.py:411-413 | a clamped value lies in its bounds and equals the value when that is already in them |
| Metrics.WardMonthlyData | views/metrics_view.py:404-420 | one row per month up to the current one, labelled with the month's name |
| Metrics.MonthlyRowBounds | views/metrics_view.py:409-413 | cleanliness and segregation lie in [40, 100] and collection in [70, 100]; for the drawn ranges the clamps never bind |
| Metrics.WardRateBounds | views/metrics_view.py:666-668 | the ward rate lies in [50, 100], is at least 60, and is within 10 of the city rate |
| Metrics.SegregationByCategory | views/metrics_view.py:651-680 | one city row and one ward row per category, in order, with their rates and area labels |
| Metrics.SegregationTrend | views/metrics_view.py:733-745 | one row per month up to the current one |
| Metrics.TrendBounds | views/metrics_view.py:738-739 | the city rate lies in [62, 95] and the ward rate in [54, 95] |
| Metrics.Others | views/metrics_view.py:486 | the candidates are exactly the wards other than the user's |
| Metrics.OthersDistinct | views/metrics_view.py:486 | the candidates are distinct |
| Metrics.NeighboursFacts | views/metrics_view.py:485-486 | four wards: three others from the ward list, then the user's ward; distinct when the list is |
| Metrics.WardRows | views/metrics_view.py:493-510 | four rows per ward, one per metric in order, flagged iff the ward is the user's |
| Metrics.Grid | views/metrics_view.py:492-510 | the grid has four rows per ward |
| Metrics.GridNext | views/metrics_view.py:492-510 | one more ward appends exactly that ward's four rows |
| Metrics.GridAt | views/metrics_view.py:492-510 | row 4j + m is metric m of ward j |
| Metrics.ComparisonGrid | views/metrics_view.py:489-510 | the nested loop builds exactly the grid |
| Metrics.NeighbourGridSize | views/metrics_view.py:485-510 | the comparison has 16 rows, and the last four are the user's ward |
| Metrics.ReseedRepeatsValues | views/metrics_view.py:497-503 | as written, every ward gets the same segregation, collection and resolution values |
| Metrics.UniformInjective | views/metrics_view.py:499-503 | different unit draws give different values over a non-empty range |
| Metrics.DrawsSeparateWards | views/metrics_view.py:497-503 | with independent draws per ward, wards with different draws get different values |
| WasteModel.NewWaste | models/waste_model.py:4-13 | the constructor keeps a truthy timestamp and replaces any falsy one with the current time |
| WasteModel.DefaultWaste | models/waste_model.py:4-13 | with every argument at its default, segregated is True, the timestamp is the current time and every other field is None |
| WasteModel.EmptyDictIsDefault | models/waste_model.py:28-39 | an empty dictionary reads back as the all-defaults record |
| WasteModel.ToDict | models/waste_model.py:41-52 | the dictionary has exactly the eight keys |
| WasteModel.RoundTrip | models/waste_model.py:28-52 | reading back a record's dictionary reproduces every field |
| WasteModel.NewWasteRoundTrip | models/waste_model.py:4-52 | every constructed record survives the round trip, whenever it is read back |
| WasteModel.FromDictDefaults | models/waste_model.py:28-39 | missing segregated is True and an explicit False stays; missing or falsy timestamp becomes now; other missing keys are None |
| WasteModel.Codes | models/waste_model.py:16-25 | the codes are the first components, in order |
| WasteModel.WasteTypeCodes | models/waste_model.py:16-25 | exactly six distinct codes: wet, dry, hazardous, sanitary, ewaste, construction |
| UserController.GetUser | models/user_model.py:6-24 | a row is returned iff the store is reachable and has the user, and it is that user's row |
| UserController.LoginCorrect | controllers/user_controller.py:8-12 | login succeeds iff the user exists with that password, and then returns exactly the looked-up row; otherwise no row |
| UserController.LoginRefusals | controllers/user_controller.py:10-12 | an unreachable store, an unknown user or a wrong password yields (False, None) |
| UserController.StoreUpdateStatus | models/user_model.py:26-38 | the update reports success iff the store is reachable and keeps the set of users |
| UserController.UpdateStatusEffect | controllers/user_controller.py:14-15 | the result is the store's own; the user with the id gets the status and every other user is unchanged |

## Left out

- Rendering: Streamlit pages, HTML blocks, plotly charts, forms and
  buttons. Session routing in `app.py` and `views/login_view.py` is UI glue.
- Random draws and seeding. Every `random`/`numpy` draw is an input limited
  to its range: a unit draw `u` in [0, 1) that `Uniform` scales, or an
  integer in the `randint` range. `random.seed` and `np.random.seed` are
  not modelled, and neither is Python's per-process string hashing. The one
  effect of seeding that matters is the reseed finding below.
- Floating point. Values are exact reals. No rounding is modelled: not
  `round(..., 1)` on the change, the daily waste figure (which the total then
  adds up), the segregation rate and the collection efficiency, nor
  `round(amount, 2)` on the series amounts, nor the summary means and the
  rounding of percentages for display.
- `np.random.choice`: the cumulative probabilities are exact reals, where
  numpy accumulates floats.
- The calendar. Today's date is a day ordinal, with weekday
  `(ordinal + 6) % 7`. `calendar.monthrange`, the first weekday of the month
  and its length are inputs. `.dt.month`, `.dt.year` and `.dt.day` come from
  a supplied `civil` function.
- `Dashboard.LocationTable`: pandas `sort_values` (quicksort) is not stable.
  The model fixes one valid result, the stable one. The order among equal
  counts is not promised by the source.
- `Dashboard.StripLeft`, `Dashboard.StripRight`: whitespace is the ASCII
  set Python's `str.strip` removes (space, 9-13, 28-31). Other Unicode
  whitespace is not modelled.
- SQLite. The users table is an abstract `Store`: a map from name to row,
  plus whether the database can be reached. A failed query counts as
  "unreachable". `data/init_db.py` and `models/rewards_model.py` are not
  part of this model.
- Other draws and identifiers. Complaint ids, vote counts, types and
  statuses are taken from draws as given. The `BBMP-WM-` id formatting and
  date strings are not modelled.
- Other pages: `get_cleanliness_score` (including its weighted score),
  `get_recycling_stats` and `get_daily_waste_stats` are not part of this
  model.
- `controllers/metrics_controller.py` is not part of this model: it calls
  waste-model methods that do not exist.
- `controllers/rewards_controller.py` and `import_helper.py` are not part of
  this model: they are a pass-through and a path edit.
- `Metrics.NeighboursFacts`: `random.sample` raises when fewer than three
  other wards exist. The model requires a valid sample (three distinct
  indices) instead of modelling the exception.
- `Rewards.Achievements`: "Clean Street Leader" uses two independent coin
  flips, so its date is not tied to whether it is earned.
- `Rewards.Leaderboard`: `IsCurrentUser` flags every row whose name equals
  the user's. A drawn household name that equals the username is flagged
  too. The model states this as written.
- Dictionary key order: the grouping returns its keys as an explicit
  first-seen `order` beside the map, as a Python dict keeps them.
- `CalendarWidget.FillGrid`: the cells are a fresh `array2`. Cells the
  source never writes are `Untouched`.

## Findings

| source | as written | input that shows it | evidently intended | confidence | as-written member | corrected member |
|---|---|---|---|---|---|---|
| views/metrics_view.py:497-503 | each "Cleanliness Score" lookup calls `get_ward_cleanliness_scores`, which runs `random.seed(42)` (controllers/waste_controller.py:17) and always consumes the same draws. So every ward's segregation, collection and resolution values come from the same stream position. | any user ward: the four wards' values for each of those three metrics are equal | independent values per ward | medium; not executed | Metrics.ReseedRepeatsValues | Metrics.DrawsSeparateWards |
| components/calendar_widget.py:142-143 | `missed = isna().sum() + (total - disposed)`. `total - disposed` already counts the no-data days, so they are counted twice. | a month whose only record has no data: 1 day, 2 missed | missed = days not disposed, so disposed + missed = total | high; not executed | CalendarWidget.NoDataCountedTwice | CalendarWidget.IntendedMonthlyStatisticsFacts |
