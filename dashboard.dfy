/** The rules of `views/dashboard_view.py`: the score colour, the category
    rule of the ward map data, the issue summary counts and the grouping of
    complaints by location. */
module Dashboard {
  import opened Common
  import opened Sorting
  import WC = WasteController

  // ---------------------------------------------------------------------
  // Score colours and the ward map category rule
  // ---------------------------------------------------------------------

  const Green: string := "#2ecc71"
  const Blue: string := "#3498db"
  const Orange: string := "#f39c12"
  const Red: string := "#e74c3c"

  /** `get_score_color`: green from 80, blue from 60, orange from 40, else red. */
  function ScoreColor(score: int): string
  {
    if score >= 80 then Green
    else if score >= 60 then Blue
    else if score >= 40 then Orange
    else Red
  }

  /** Each colour is shown exactly on its band of scores. */
  lemma ScoreColorBands(score: int)
    ensures ScoreColor(score) == Green <==> score >= 80
    ensures ScoreColor(score) == Blue <==> 60 <= score < 80
    ensures ScoreColor(score) == Orange <==> 40 <= score < 60
    ensures ScoreColor(score) == Red <==> score < 40
  {
    assert Green[1] != Blue[1] && Green[1] != Orange[1] && Green[1] != Red[1];
    assert Blue[1] != Orange[1] && Blue[1] != Red[1] && Orange[1] != Red[1];
  }

  /** The category and colour chosen together in `get_ward_map_data`. */
  function MapCategory(score: int): (WC.Category, string)
  {
    if score >= 80 then (WC.Excellent, Green)
    else if score >= 60 then (WC.Good, Blue)
    else if score >= 40 then (WC.Average, Orange)
    else (WC.NeedsImprovement, Red)
  }

  /** The map uses the ranking's category thresholds and the ranking
      table's colours. */
  lemma MapCategoryAgrees(score: int)
    ensures MapCategory(score).0 == WC.CategoryOf(score)
    ensures MapCategory(score).1 == ScoreColor(score)
  {
  }

  // ---------------------------------------------------------------------
  // Issue summary
  // ---------------------------------------------------------------------

  function StatusOf(c: WC.Complaint): WC.ComplaintStatus { c.status }

  function PriorityOf(c: WC.Complaint): WC.Priority { c.priority }

  /** The complaints with status `s`. */
  function CountStatus(cs: seq<WC.Complaint>, s: WC.ComplaintStatus): nat { CountBy(cs, StatusOf, s) }

  /** The complaints with priority `p`. */
  function CountPriority(cs: seq<WC.Complaint>, p: WC.Priority): nat { CountBy(cs, PriorityOf, p) }

  datatype IssueSummary = IssueSummary(total: int, pending: int, resolved: int, highPriority: int,
                                       pendingPct: real, resolvedPct: real, highPct: real)

  /** The issue summary, computed only when there are complaints: totals by
      status and priority and their percentages of all complaints. */
  function Summary(cs: seq<WC.Complaint>): (r: Option<IssueSummary>)
    ensures r.None? <==> cs == []
    ensures r.Some? ==> r.value.total == |cs|
  {
    if cs == [] then None
    else
      var total := |cs|;
      var pending := CountStatus(cs, WC.Pending);
      var resolved := CountStatus(cs, WC.Resolved);
      var high := CountPriority(cs, WC.High);
      Some(IssueSummary(total, pending, resolved, high,
                        Percent(pending, total), Percent(resolved, total), Percent(high, total)))
  }

  /** No complaint is both pending and resolved. */
  lemma {:induction false} PendingResolvedDisjoint(cs: seq<WC.Complaint>)
    ensures CountStatus(cs, WC.Pending) + CountStatus(cs, WC.Resolved) <= |cs|
  {
    if cs != [] {
      PendingResolvedDisjoint(cs[1..]);
    }
  }

  /** Every count is at most the total, pending and resolved together too,
      and every percentage lies in [0, 100]. */
  lemma SummaryBounds(cs: seq<WC.Complaint>)
    requires cs != []
    ensures var s := Summary(cs).value;
      && 0 <= s.pending <= s.total && 0 <= s.resolved <= s.total && 0 <= s.highPriority <= s.total
      && s.pending + s.resolved <= s.total
      && 0.0 <= s.pendingPct <= 100.0 && 0.0 <= s.resolvedPct <= 100.0 && 0.0 <= s.highPct <= 100.0
  {
    var s := Summary(cs).value;
    PendingResolvedDisjoint(cs);
    PercentBounds(s.pending, s.total);
    PercentBounds(s.resolved, s.total);
    PercentBounds(s.highPriority, s.total);
  }

  // ---------------------------------------------------------------------
  // Grouping by location
  // ---------------------------------------------------------------------

  /** The characters Python's `str.strip()` removes, within ASCII. */
  predicate IsSpace(c: char)
  {
    c == ' ' || 9 <= c as int <= 13 || 28 <= c as int <= 31
  }

  function StripLeft(s: string): (r: string)
    ensures |r| <= |s| && r == s[|s| - |r|..]
    ensures r == [] || !IsSpace(r[0])
    ensures forall i :: 0 <= i < |s| - |r| ==> IsSpace(s[i])
  {
    if s != [] && IsSpace(s[0]) then StripLeft(s[1..]) else s
  }

  function StripRight(s: string): (r: string)
    ensures |r| <= |s| && r == s[..|r|]
    ensures r == [] || !IsSpace(r[|r| - 1])
    ensures forall i :: |r| <= i < |s| ==> IsSpace(s[i])
  {
    if s != [] && IsSpace(s[|s| - 1]) then StripRight(s[..|s| - 1]) else s
  }

  /** `str.strip()`. */
  function Strip(s: string): string
  {
    StripRight(StripLeft(s))
  }

  /** Text that neither starts nor ends with whitespace is stripped to itself. */
  lemma StripTrimmed(s: string)
    requires s == [] || (!IsSpace(s[0]) && !IsSpace(s[|s| - 1]))
    ensures Strip(s) == s
  {
    assert StripLeft(s) == s;
    assert StripRight(s) == s;
  }

  /** `s.split(',')[0]`: the text before the first comma, or all of `s`. */
  function BeforeComma(s: string): (r: string)
    ensures |r| <= |s| && r == s[..|r|] && ',' !in r
    ensures |r| < |s| ==> s[|r|] == ','
  {
    if s == [] || s[0] == ',' then [] else [s[0]] + BeforeComma(s[1..])
  }

  /** The grouping key of a complaint's location. */
  function LocationKey(location: string): string
  {
    Strip(BeforeComma(location))
  }

  function KeyOf(c: WC.Complaint): string
  {
    LocationKey(c.location)
  }

  /** Text without a comma, followed by a comma or nothing, is kept whole. */
  lemma {:induction false} BeforeCommaPrefix(p: string, rest: string)
    requires ',' !in p && (rest == [] || rest[0] == ',')
    ensures BeforeComma(p + rest) == p
  {
    if p != [] {
      assert (p + rest)[1..] == p[1..] + rest;
      BeforeCommaPrefix(p[1..], rest);
    } else {
      assert p + rest == rest;
    }
  }

  lemma SeqAssoc(a: string, b: string, c: string)
    ensures a + b + c == a + (b + c)
  {
  }

  /** The text before the first comma of "<place>, <ward>", or of the place
      alone, is the place when it has no comma. */
  lemma PlaceBeforeComma(place: string, ward: string)
    requires ',' !in place
    ensures BeforeComma(WC.ComplaintLocation(place, ward)) == place
  {
    if ward != "" {
      var rest := ", " + ward;
      assert rest[0] == ',';
      BeforeCommaPrefix(place, rest);
      SeqAssoc(place, ", ", ward);
    } else {
      BeforeCommaPrefix(place, []);
      assert WC.ComplaintLocation(place, ward) == place + [];
    }
  }

  /** A place name without commas and without surrounding blanks, written
      as "<place>, <ward>" or alone, groups under the place name itself. */
  lemma KeyRecoversPlace(place: string, ward: string)
    requires ',' !in place
    requires place == [] || (!IsSpace(place[0]) && !IsSpace(place[|place| - 1]))
    ensures LocationKey(WC.ComplaintLocation(place, ward)) == place
  {
    PlaceBeforeComma(place, ward);
    StripTrimmed(place);
  }

  /** So every generated complaint groups under its drawn place. */
  lemma GeneratedComplaintKey(today: int, ward: string, d: WC.ComplaintDraw)
    requires WC.ValidComplaintDraw(d)
    ensures KeyOf(WC.ComplaintOf(today, ward, d)) == WC.ComplaintPlaces[d.place]
  {
    var place := WC.ComplaintPlaces[d.place];
    assert forall i :: 0 <= i < |place| ==> place[i] != ',' && !(9 <= place[i] as int <= 13) && !(28 <= place[i] as int <= 31);
    KeyRecoversPlace(place, ward);
  }

  /** How many keys equal `k`. */
  function Occurrences(ks: seq<string>, k: string): (n: nat)
    ensures n <= |ks|
  {
    if ks == [] then 0
    else Occurrences(ks[..|ks| - 1], k) + (if ks[|ks| - 1] == k then 1 else 0)
  }

  /** The distinct keys in order of first appearance. */
  function FirstSeen(ks: seq<string>): seq<string>
  {
    if ks == [] then []
    else
      var p := ks[..|ks| - 1];
      FirstSeen(p) + (if ks[|ks| - 1] in p then [] else [ks[|ks| - 1]])
  }

  /** The first appearances hold every key once. */
  lemma {:induction false} FirstSeenMembers(ks: seq<string>)
    ensures forall k :: k in FirstSeen(ks) <==> k in ks
    ensures Distinct(FirstSeen(ks))
  {
    if ks != [] {
      var p := ks[..|ks| - 1];
      FirstSeenMembers(p);
      assert ks == p + [ks[|ks| - 1]];
    }
  }

  lemma {:induction false} OccurrencesAbsent(ks: seq<string>, k: string)
    requires k !in ks
    ensures Occurrences(ks, k) == 0
  {
    if ks != [] {
      OccurrencesAbsent(ks[..|ks| - 1], k);
    }
  }

  /** `locationCount` and its key order `order` tally the keys `ks`. */
  ghost predicate Tallies(locationCount: map<string, int>, order: seq<string>, ks: seq<string>)
  {
    && order == FirstSeen(ks)
    && (forall k :: k in locationCount <==> k in order)
    && (forall k :: k in locationCount ==> locationCount[k] == Occurrences(ks, k))
  }

  /** One more key: an existing group grows by one, a new key opens a group
      of one at the end of the order. */
  lemma TalliesNext(locationCount: map<string, int>, order: seq<string>, ks: seq<string>, i: int, x: string)
    requires 0 <= i < |ks| && x == ks[i] && Tallies(locationCount, order, ks[..i])
    ensures x in locationCount ==> Tallies(locationCount[x := locationCount[x] + 1], order, ks[..i + 1])
    ensures x !in locationCount ==> Tallies(locationCount[x := 1], order + [x], ks[..i + 1])
  {
    var p := ks[..i];
    assert ks[..i + 1] == p + [x];
    assert (p + [x])[..|p|] == p;
    FirstSeenMembers(p);
    if x !in locationCount {
      OccurrencesAbsent(p, x);
    }
  }

  lemma TalliesAll(locationCount: map<string, int>, order: seq<string>, ks: seq<string>)
    requires Tallies(locationCount, order, ks[..|ks|])
    ensures Tallies(locationCount, order, ks)
  {
    assert ks[..|ks|] == ks;
  }

  /** The loop over the complaints of the issue distribution: the dictionary
      counts each location key; `order` is the dictionary's key order,
      which Python keeps as insertion order. */
  method GroupByLocation(complaints: seq<WC.Complaint>) returns (locationCount: map<string, int>, order: seq<string>)
    ensures Tallies(locationCount, order, Image(complaints, KeyOf))
  {
    var ks := Image(complaints, KeyOf);
    locationCount := map[];
    order := [];
    var i := 0;
    while i < |complaints|
      invariant 0 <= i <= |complaints|
      invariant Tallies(locationCount, order, ks[..i])
    {
      var loc := LocationKey(complaints[i].location);
      TalliesNext(locationCount, order, ks, i, loc);
      if loc in locationCount {
        locationCount := locationCount[loc := locationCount[loc] + 1];
      } else {
        locationCount := locationCount[loc := 1];
        order := order + [loc];
      }
      i := i + 1;
    }
    TalliesAll(locationCount, order, ks);
  }

  /** The sum of the counts of `keys`. */
  function Total(keys: seq<string>, ks: seq<string>): int
  {
    if keys == [] then 0 else Occurrences(ks, keys[0]) + Total(keys[1..], ks)
  }

  lemma {:induction false} TotalSnoc(keys: seq<string>, ks: seq<string>, x: string)
    requires Distinct(keys)
    ensures Total(keys, ks + [x]) == Total(keys, ks) + (if x in keys then 1 else 0)
  {
    assert (ks + [x])[..|ks|] == ks;
    if keys != [] {
      TotalSnoc(keys[1..], ks, x);
    }
  }

  lemma {:induction false} TotalAppendKey(keys: seq<string>, k: string, ks: seq<string>)
    ensures Total(keys + [k], ks) == Total(keys, ks) + Occurrences(ks, k)
  {
    if keys != [] {
      assert (keys + [k])[1..] == keys[1..] + [k];
      TotalAppendKey(keys[1..], k, ks);
    }
  }

  /** The counts of all groups add up to the number of complaints. */
  lemma {:induction false} CountsSumToTotal(ks: seq<string>)
    ensures Total(FirstSeen(ks), ks) == |ks|
  {
    if ks != [] {
      var p := ks[..|ks| - 1];
      var x := ks[|ks| - 1];
      assert ks == p + [x];
      CountsSumToTotal(p);
      FirstSeenMembers(p);
      TotalSnoc(FirstSeen(p), p, x);
      if x in p {
        assert FirstSeen(ks) == FirstSeen(p);
      } else {
        assert FirstSeen(ks) == FirstSeen(p) + [x];
        TotalAppendKey(FirstSeen(p), x, ks);
        OccurrencesAbsent(p, x);
        assert Occurrences(ks, x) == 1;
      }
    }
  }

  /** The sum of the dictionary's values, in key order. */
  function SumCounts(locationCount: map<string, int>, order: seq<string>): int
    requires forall k :: k in order ==> k in locationCount
  {
    if order == [] then 0 else locationCount[order[0]] + SumCounts(locationCount, order[1..])
  }

  lemma {:induction false} SumCountsIsTotal(locationCount: map<string, int>, order: seq<string>, ks: seq<string>)
    requires forall k :: k in order ==> k in locationCount && locationCount[k] == Occurrences(ks, k)
    ensures SumCounts(locationCount, order) == Total(order, ks)
  {
    if order != [] {
      SumCountsIsTotal(locationCount, order[1..], ks);
    }
  }

  /** The grouped counts add up to the number of complaints. */
  lemma GroupedCountsSum(locationCount: map<string, int>, order: seq<string>, ks: seq<string>)
    requires Tallies(locationCount, order, ks)
    ensures forall k :: k in order ==> k in locationCount
    ensures SumCounts(locationCount, order) == |ks|
  {
    SumCountsIsTotal(locationCount, order, ks);
    CountsSumToTotal(ks);
  }

  // ---------------------------------------------------------------------
  // The location table
  // ---------------------------------------------------------------------

  datatype LocationRow = LocationRow(location: string, count: int)

  function RowCount(r: LocationRow): int
  {
    r.count
  }

  /** The dictionary as rows, in key order. */
  function Rows(locationCount: map<string, int>, order: seq<string>): (rows: seq<LocationRow>)
    requires forall k :: k in order ==> k in locationCount
    ensures |rows| == |order|
    ensures forall i :: 0 <= i < |order| ==> rows[i] == LocationRow(order[i], locationCount[order[i]])
  {
    seq(|order|, i requires 0 <= i < |order| => LocationRow(order[i], locationCount[order[i]]))
  }

  /** `sort_values('count', ascending=False)`, with ties kept in key order. */
  function LocationTable(locationCount: map<string, int>, order: seq<string>): seq<LocationRow>
    requires forall k :: k in order ==> k in locationCount
  {
    SortDesc(Rows(locationCount, order), RowCount)
  }

  /** The table lists the same rows with counts non-increasing. */
  lemma LocationTableSorted(locationCount: map<string, int>, order: seq<string>)
    requires forall k :: k in order ==> k in locationCount
    ensures NonIncreasing(LocationTable(locationCount, order), RowCount)
    ensures multiset(LocationTable(locationCount, order)) == multiset(Rows(locationCount, order))
  {
    SortDescSorted(Rows(locationCount, order), RowCount);
    SortDescPermutation(Rows(locationCount, order), RowCount);
  }
}
