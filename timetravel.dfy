/** The historical geocoder: resolves a place name against a catalog of
    locations, each with a list of dated historical records, and answers
    "what was this place in year Y", "what happened here between two years"
    and "how did it change between two years". Years are integers, negative
    for BCE. The catalog is read-only; every answer is derived from it. */
module TimeTravel {
  import opened Common
  import opened Text
  import opened Numeric
  import opened Ranking

  /** One dated record of a location's history. */
  datatype HistoricalEntry = HistoricalEntry(year: int, name: string, lat: real, lon: real, context: string)

  type History = seq<HistoricalEntry>

  /** Catalog key and that location's history, in catalog order. */
  type Database = seq<(string, History)>

  /** What the catalog guarantees: every key is non-empty (a found key is
      truthy) and every location has at least one record (the closest-year
      search takes a minimum over it). */
  predicate ValidDatabase(db: Database)
  {
    forall i :: 0 <= i < |db| ==> db[i].0 != "" && |db[i].1| > 0
  }

  // ---------------------------------------------------------------------------
  // Name resolution

  /** A catalog entry answers to the lower-cased query when its key, or the
      name of any of its records, lower-cases to the query. */
  predicate Answers(entry: (string, History), query: string)
  {
    Lower(entry.0) == query ||
    exists j :: 0 <= j < |entry.1| && Lower(entry.1[j].name) == query
  }

  /** The first catalog position at or after `from` that answers to `query`. */
  function FindFrom(db: Database, query: string, from: nat): (r: Option<nat>)
    requires from <= |db|
    ensures r.Some? ==> from <= r.value < |db| && Answers(db[r.value], query)
    ensures r.Some? ==> forall j :: from <= j < r.value ==> !Answers(db[j], query)
    ensures r.None? ==> forall j :: from <= j < |db| ==> !Answers(db[j], query)
    decreases |db| - from
  {
    if from == |db| then None
    else if Answers(db[from], query) then Some(from)
    else FindFrom(db, query, from + 1)
  }

  /** `_find_location_key`: the first key, in catalog order, whose name or any
      historical name equals the query ignoring case; `None` otherwise. */
  function FindLocationKey(db: Database, locationName: string): (r: Option<string>)
    ensures r.None? <==> forall i :: 0 <= i < |db| ==> !Answers(db[i], Lower(locationName))
    ensures r.Some? ==> exists i :: (0 <= i < |db| && db[i].0 == r.value &&
      Answers(db[i], Lower(locationName)) &&
      forall j :: 0 <= j < i ==> !Answers(db[j], Lower(locationName)))
  {
    match FindFrom(db, Lower(locationName), 0)
    case None => None
    case Some(i) => Some(db[i].0)
  }

  /** The history stored under the key `FindLocationKey` returns. */
  function HistoryOf(db: Database, locationName: string): (h: Option<History>)
    requires ValidDatabase(db)
    ensures h.Some? <==> FindLocationKey(db, locationName).Some?
    ensures h.Some? ==> (|h.value| > 0 &&
      exists i :: 0 <= i < |db| && db[i] == (FindLocationKey(db, locationName).value, h.value))
  {
    match FindFrom(db, Lower(locationName), 0)
    case None => None
    case Some(i) => Some(db[i].1)
  }

  /** Resolution ignores case: two spellings that lower-case alike resolve alike. */
  lemma ResolutionIgnoresCase(db: Database, a: string, b: string)
    requires Lower(a) == Lower(b)
    ensures FindLocationKey(db, a) == FindLocationKey(db, b)
  {
  }

  /** No key and no historical name is empty. */
  predicate NamesNonEmpty(db: Database)
  {
    forall i :: 0 <= i < |db| ==> (db[i].0 != "" &&
      forall j :: 0 <= j < |db[i].1| ==> db[i].1[j].name != "")
  }

  /** The empty name resolves to nothing when no stored name is empty. */
  lemma EmptyNameUnresolved(db: Database)
    requires NamesNonEmpty(db)
    ensures FindLocationKey(db, "") == None
  {
    forall i | 0 <= i < |db| ensures !Answers(db[i], Lower("")) {
      assert Lower("") == "";
      assert |Lower(db[i].0)| == |db[i].0|;
      forall j | 0 <= j < |db[i].1| ensures Lower(db[i].1[j].name) != "" {
        assert |Lower(db[i].1[j].name)| == |db[i].1[j].name|;
      }
    }
  }

  // ---------------------------------------------------------------------------
  // Geocoding one year

  /** The stored year's distance from the query year. */
  function Distance(e: HistoricalEntry, year: int): nat
  {
    Abs(e.year - year)
  }

  /** `min(history, key=lambda x: abs(x["year"] - year))`: the position of the
      first record whose year is nearest to `year`. */
  function ClosestIndex(h: History, year: int): (k: nat)
    requires |h| > 0
    ensures k < |h|
    ensures forall i :: 0 <= i < |h| ==> Distance(h[k], year) <= Distance(h[i], year)
    ensures forall i :: 0 <= i < k ==> Distance(h[i], year) > Distance(h[k], year)
  {
    var d := Distances(h, year);
    var k := FirstMin(d);
    assert forall i :: 0 <= i < |h| ==> d[k] <= d[i];
    k
  }

  function Distances(h: History, year: int): (d: seq<real>)
    ensures |d| == |h|
    ensures forall i :: 0 <= i < |h| ==> d[i] == Distance(h[i], year) as real
  {
    seq(|h|, i requires 0 <= i < |h| => Distance(h[i], year) as real)
  }

  function Years(h: History): (ys: seq<real>)
    ensures |ys| == |h|
    ensures forall i :: 0 <= i < |h| ==> ys[i] == h[i].year as real
  {
    seq(|h|, i requires 0 <= i < |h| => h[i].year as real)
  }

  /** `any(entry["year"] <= year for entry in history)` */
  predicate Existed(h: History, year: int)
  {
    exists i :: 0 <= i < |h| && h[i].year <= year
  }

  /** The earliest stored year. */
  function EarliestYear(h: History): (y: int)
    requires |h| > 0
    ensures forall i :: 0 <= i < |h| ==> y <= h[i].year
    ensures exists i :: 0 <= i < |h| && h[i].year == y
  {
    var ys := Years(h);
    var k := FirstMin(ys);
    assert forall i :: 0 <= i < |h| ==> ys[k] <= ys[i];
    h[k].year
  }

  /** The latest stored year. */
  function LatestYear(h: History): (y: int)
    requires |h| > 0
    ensures forall i :: 0 <= i < |h| ==> h[i].year <= y
    ensures exists i :: 0 <= i < |h| && h[i].year == y
  {
    var ys := Years(h);
    var k := FirstMax(ys);
    assert forall i :: 0 <= i < |h| ==> ys[i] <= ys[k];
    h[k].year
  }

  /** A location "existed" in a year exactly when its earliest record is not later. */
  lemma ExistedIffEarliest(h: History, year: int)
    requires |h| > 0
    ensures Existed(h, year) <==> EarliestYear(h) <= year
  {
    if EarliestYear(h) <= year {
      var i :| 0 <= i < |h| && h[i].year == EarliestYear(h);
      assert h[i].year <= year;
    }
  }

  datatype Accuracy = Exact | Interpolated

  datatype GeoLocation = GeoLocation(
    name: string, latitude: real, longitude: real, queryYear: int,
    closestDocumentedYear: int, existed: bool, historicalContext: string)

  datatype GeocodeResult =
    | Geocoded(location: GeoLocation, temporalAccuracy: Accuracy, yearDifference: nat)
    | GeocodeFailed(error: string, suggestion: string)

  const GeocodeSuggestion := "Try 'Constantinople', 'Berlin', or 'New York'"

  /** `geocode_historical`: the record nearest in time to `year`, with whether
      the place had any record at or before `year`. */
  function GeocodeHistorical(db: Database, locationName: string, year: int): (r: GeocodeResult)
    requires ValidDatabase(db)
    ensures r.GeocodeFailed? <==> FindLocationKey(db, locationName).None?
    ensures r.GeocodeFailed? ==>
      r.error == "Location '" + locationName + "' not found in historical database" &&
      r.suggestion == GeocodeSuggestion
    ensures r.Geocoded? ==>
      var h := HistoryOf(db, locationName).value;
      var loc := r.location;
      loc.queryYear == year &&
      (exists k :: 0 <= k < |h| && h[k].year == loc.closestDocumentedYear &&
         h[k].name == loc.name && h[k].lat == loc.latitude && h[k].lon == loc.longitude &&
         h[k].context == loc.historicalContext &&
         forall j :: 0 <= j < k ==> Distance(h[j], year) > Distance(h[k], year)) &&
      (forall i :: 0 <= i < |h| ==> r.yearDifference <= Distance(h[i], year)) &&
      r.yearDifference == Abs(year - loc.closestDocumentedYear) &&
      (r.temporalAccuracy == Exact <==> r.yearDifference == 0) &&
      (loc.existed <==> exists i :: 0 <= i < |h| && h[i].year <= year)
  {
    match HistoryOf(db, locationName)
    case None =>
      GeocodeFailed("Location '" + locationName + "' not found in historical database",
                    GeocodeSuggestion)
    case Some(h) =>
      var k := ClosestIndex(h, year);
      var e := h[k];
      var loc := GeoLocation(e.name, e.lat, e.lon, year, e.year, Existed(h, year), e.context);
      Geocoded(loc, if e.year == year then Exact else Interpolated, Abs(year - e.year))
  }

  /** A query year that equals a stored year is answered exactly, from the
      first record with that year. */
  lemma StoredYearIsExact(db: Database, locationName: string, year: int)
    requires ValidDatabase(db)
    requires HistoryOf(db, locationName).Some?
    requires exists i :: (0 <= i < |HistoryOf(db, locationName).value| &&
      HistoryOf(db, locationName).value[i].year == year)
    ensures var r := GeocodeHistorical(db, locationName, year);
      r.Geocoded? && r.temporalAccuracy == Exact && r.yearDifference == 0 &&
      r.location.closestDocumentedYear == year
  {
    var h := HistoryOf(db, locationName).value;
    var i :| 0 <= i < |h| && h[i].year == year;
    assert Distance(h[i], year) == 0;
  }

  // ---------------------------------------------------------------------------
  // Timeline

  /** A bound counts only when it is "truthy": given and not zero. */
  predicate Active(bound: Option<int>)
  {
    bound.Some? && bound.value != 0
  }

  predicate InWindow(e: HistoricalEntry, startYear: Option<int>, endYear: Option<int>)
  {
    (!Active(startYear) || e.year >= startYear.value) &&
    (!Active(endYear) || e.year <= endYear.value)
  }

  /** The list comprehension of the filter: the records inside the window, in
      stored order. */
  function FilterWindow(h: History, startYear: Option<int>, endYear: Option<int>): (r: History)
    ensures forall i :: 0 <= i < |r| ==> InWindow(r[i], startYear, endYear)
    ensures forall e :: e in h && InWindow(e, startYear, endYear) ==> e in r
    ensures multiset(r) <= multiset(h)
    ensures forall e :: multiset(r)[e] == if InWindow(e, startYear, endYear) then multiset(h)[e] else 0
  {
    if h == [] then []
    else
      assert h == [h[0]] + h[1..];
      assert multiset(h) == multiset{h[0]} + multiset(h[1..]);
      (if InWindow(h[0], startYear, endYear) then [h[0]] else []) + FilterWindow(h[1..], startYear, endYear)
  }

  /** The filter keeps stored order: filtering a concatenation filters each
      part. With the one-record case this determines the filter completely. */
  lemma FilterWindowAppend(a: History, b: History, startYear: Option<int>, endYear: Option<int>)
    ensures FilterWindow(a + b, startYear, endYear) == FilterWindow(a, startYear, endYear) + FilterWindow(b, startYear, endYear)
  {
    var keep := e => InWindow(e, startYear, endYear);
    FilterWindowIsFilter(a, startYear, endYear);
    FilterWindowIsFilter(b, startYear, endYear);
    FilterWindowIsFilter(a + b, startYear, endYear);
    FilterAppend(a, b, keep);
  }

  /** The window filter is the generic filter with the window test. */
  lemma {:induction false} FilterWindowIsFilter(h: History, startYear: Option<int>, endYear: Option<int>)
    ensures FilterWindow(h, startYear, endYear) == Filter(h, e => InWindow(e, startYear, endYear))
  {
    if h != [] {
      FilterWindowIsFilter(h[1..], startYear, endYear);
    }
  }

  /** A single record is kept exactly when it lies inside the window. */
  lemma FilterWindowOne(e: HistoricalEntry, startYear: Option<int>, endYear: Option<int>)
    ensures FilterWindow([e], startYear, endYear) == if InWindow(e, startYear, endYear) then [e] else []
  {
    assert [e][1..] == [];
  }

  /** `filtered_history`: filtered only when some bound is truthy. */
  function Filtered(h: History, startYear: Option<int>, endYear: Option<int>): History
  {
    if Active(startYear) || Active(endYear) then FilterWindow(h, startYear, endYear) else h
  }

  /** Minus the year, so that the highest-first sort puts the earliest year first. */
  function EarlierFirst(e: HistoricalEntry): real
  {
    -(e.year as real)
  }

  predicate Chronological(t: History)
  {
    forall i, j :: 0 <= i < j < |t| ==> t[i].year <= t[j].year
  }

  datatype TimeSpan = TimeSpan(earliest: Option<int>, latest: Option<int>)

  datatype TimelineResult =
    | Timeline(location: string, timeline: History, totalEvents: nat, timeSpan: TimeSpan)
    | TimelineFailed(error: string)

  /** What a successful timeline is for a history and a window: exactly the
      records inside the window, in chronological order, counted, with the
      first and last year as its span. */
  ghost predicate TimelineOfHistory(timeline: History, totalEvents: nat, span: TimeSpan, h: History,
                                    startYear: Option<int>, endYear: Option<int>)
  {
    totalEvents == |timeline| &&
    Chronological(timeline) &&
    (Active(startYear) || Active(endYear) ==>
       (forall i :: 0 <= i < |timeline| ==> InWindow(timeline[i], startYear, endYear)) &&
       (forall e :: e in h && InWindow(e, startYear, endYear) ==> e in timeline) &&
       multiset(timeline) <= multiset(h) &&
       (forall e :: multiset(timeline)[e] == if InWindow(e, startYear, endYear) then multiset(h)[e] else 0)) &&
    (!Active(startYear) && !Active(endYear) ==> multiset(timeline) == multiset(h)) &&
    (timeline == [] <==> span == TimeSpan(None, None)) &&
    (timeline != [] ==> span == TimeSpan(Some(timeline[0].year), Some(timeline[|timeline| - 1].year)))
  }

  /** The successful answer for a resolved location. */
  function TimelineOf(key: string, h: History, startYear: Option<int>, endYear: Option<int>): (r: TimelineResult)
    ensures r.Timeline? && r.location == key
    ensures TimelineOfHistory(r.timeline, r.totalEvents, r.timeSpan, h, startYear, endYear)
  {
    var f := Filtered(h, startYear, endYear);
    var t := SortDesc(f, EarlierFirst);
    var span := if f == [] then TimeSpan(None, None)
                else TimeSpan(Some(EarliestYear(f)), Some(LatestYear(f)));
    TimelineOfSorted(h, f, t, span, startYear, endYear);
    Timeline(key, t, |f|, span)
  }

  /** The pieces `TimelineOf` assembles meet `TimelineOfHistory`. */
  lemma TimelineOfSorted(h: History, f: History, t: History, span: TimeSpan,
                         startYear: Option<int>, endYear: Option<int>)
    requires f == Filtered(h, startYear, endYear) && t == SortDesc(f, EarlierFirst)
    requires span == if f == [] then TimeSpan(None, None)
                     else TimeSpan(Some(EarliestYear(f)), Some(LatestYear(f)))
    ensures TimelineOfHistory(t, |f|, span, h, startYear, endYear)
  {
    assert Chronological(t) by {
      forall i, j | 0 <= i < j < |t| ensures t[i].year <= t[j].year {
        assert EarlierFirst(t[i]) >= EarlierFirst(t[j]);
      }
    }
    SpanOfSorted(f, t);
    if Active(startYear) || Active(endYear) {
      forall i | 0 <= i < |t| ensures InWindow(t[i], startYear, endYear) {
        assert t[i] in multiset(f);
      }
      forall e | e in h && InWindow(e, startYear, endYear) ensures e in t {
        assert e in multiset(f);
      }
    }
  }

  /** Records of the same year keep their stored order in the timeline: the
      sort by year is stable. */
  lemma TimelineKeepsStoredOrder(key: string, h: History, startYear: Option<int>, endYear: Option<int>,
                                 year: int)
    ensures WithScore(TimelineOf(key, h, startYear, endYear).timeline, EarlierFirst, -(year as real)) ==
            WithScore(Filtered(h, startYear, endYear), EarlierFirst, -(year as real))
  {
    SortDescStable(Filtered(h, startYear, endYear), EarlierFirst, -(year as real));
  }

  /** `get_location_timeline` */
  function GetLocationTimeline(db: Database, locationName: string,
                               startYear: Option<int>, endYear: Option<int>): (r: TimelineResult)
    requires ValidDatabase(db)
    ensures r.TimelineFailed? <==> FindLocationKey(db, locationName).None?
    ensures r.TimelineFailed? ==>
      r.error == "Location '" + locationName + "' not found in historical database"
    ensures r.Timeline? ==>
      r.location == FindLocationKey(db, locationName).value &&
      TimelineOfHistory(r.timeline, r.totalEvents, r.timeSpan, HistoryOf(db, locationName).value,
                        startYear, endYear)
  {
    match FindFrom(db, Lower(locationName), 0)
    case None =>
      TimelineFailed("Location '" + locationName + "' not found in historical database")
    case Some(i) =>
      TimelineOf(db[i].0, db[i].1, startYear, endYear)
  }

  /** The earliest and latest years of a list are the first and last years of
      its chronological sort. */
  lemma SpanOfSorted(f: History, t: History)
    requires multiset(t) == multiset(f) && Chronological(t) && |t| == |f|
    ensures f != [] ==> EarliestYear(f) == t[0].year && LatestYear(f) == t[|t| - 1].year
  {
    if f != [] {
      SortedFirstIsEarliest(f, t);
      SortedLastIsLatest(f, t);
    }
  }

  lemma SortedFirstIsEarliest(f: History, t: History)
    requires multiset(t) == multiset(f) && Chronological(t) && |t| == |f| && f != []
    ensures EarliestYear(f) == t[0].year
  {
    var a :| 0 <= a < |f| && f[a].year == EarliestYear(f);
    assert t[0] in multiset(f);
    assert f[a] in multiset(t);
    var ia :| 0 <= ia < |t| && t[ia] == f[a];
    var i0 :| 0 <= i0 < |f| && f[i0] == t[0];
  }

  lemma SortedLastIsLatest(f: History, t: History)
    requires multiset(t) == multiset(f) && Chronological(t) && |t| == |f| && f != []
    ensures LatestYear(f) == t[|t| - 1].year
  {
    var b :| 0 <= b < |f| && f[b].year == LatestYear(f);
    assert t[|t| - 1] in multiset(f);
    assert f[b] in multiset(t);
    var ib :| 0 <= ib < |t| && t[ib] == f[b];
    var i1 :| 0 <= i1 < |f| && f[i1] == t[|t| - 1];
  }

  /** An inverted window (both bounds truthy, start after end) yields no
      events, and still succeeds. */
  lemma InvertedWindowIsEmpty(db: Database, locationName: string, startYear: int, endYear: int)
    requires ValidDatabase(db) && HistoryOf(db, locationName).Some?
    requires startYear != 0 && endYear != 0 && startYear > endYear
    ensures var r := GetLocationTimeline(db, locationName, Some(startYear), Some(endYear));
      r.Timeline? && r.totalEvents == 0 && r.timeSpan == TimeSpan(None, None)
  {
  }

  /** A bound of 0 is falsy, so it filters exactly as no bound. */
  lemma ZeroBoundIsAbsent(db: Database, locationName: string, endYear: Option<int>)
    requires ValidDatabase(db)
    ensures GetLocationTimeline(db, locationName, Some(0), endYear)
         == GetLocationTimeline(db, locationName, None, endYear)
  {
    match FindFrom(db, Lower(locationName), 0)
    case None =>
    case Some(i) =>
      var h := db[i].1;
      FilterZero(h, endYear);
      assert Filtered(h, Some(0), endYear) == Filtered(h, None, endYear);
      assert TimelineOf(db[i].0, h, Some(0), endYear) == TimelineOf(db[i].0, h, None, endYear);
  }

  lemma {:induction false} FilterZero(h: History, endYear: Option<int>)
    ensures FilterWindow(h, Some(0), endYear) == FilterWindow(h, None, endYear)
  {
    if h != [] {
      FilterZero(h[1..], endYear);
    }
  }

  /** With no truthy bound, the timeline of a chronologically stored history is
      that history, unchanged. */
  lemma UnboundedTimelineIsHistory(db: Database, locationName: string)
    requires ValidDatabase(db) && HistoryOf(db, locationName).Some?
    requires Chronological(HistoryOf(db, locationName).value)
    ensures GetLocationTimeline(db, locationName, None, None).timeline
         == HistoryOf(db, locationName).value
  {
    var h := db[FindFrom(db, Lower(locationName), 0).value].1;
    assert Descending(h, EarlierFirst);
    SortDescOfSorted(h, EarlierFirst);
  }

  // ---------------------------------------------------------------------------
  // Comparing two eras

  datatype Era = Era(year: int, name: string, lat: real, lon: real, context: string)

  datatype Changes = Changes(nameChanged: bool, coordinatesChanged: bool, yearsBetween: nat)

  /** `_generate_comparison_summary`: which of the two wordings applies. */
  datatype Summary =
    | Renamed(year1: int, year2: int, oldName: string, newName: string)
    | NameKept(year1: int, year2: int, name: string)
  {
    function Text(): string
    {
      match this
      case Renamed(y1, y2, a, b) =>
        "Between " + IntToString(y1) + " and " + IntToString(y2) + ", '" + a +
        "' was renamed to '" + b + "'. This reflects significant political or cultural changes."
      case NameKept(y1, y2, a) =>
        "Between " + IntToString(y1) + " and " + IntToString(y2) + ", '" + a +
        "' maintained its name but underwent historical developments."
    }
  }

  datatype ComparisonResult =
    | Comparison(location: string, era1: Era, era2: Era, changes: Changes, summary: Summary)
    | ComparisonFailed(error: string)

  function EraOf(loc: GeoLocation, year: int): Era
  {
    Era(year, loc.name, loc.latitude, loc.longitude, loc.historicalContext)
  }

  function SummaryOf(loc1: GeoLocation, loc2: GeoLocation, year1: int, year2: int): (s: Summary)
    ensures s.Renamed? <==> loc1.name != loc2.name
  {
    if loc1.name != loc2.name then Renamed(year1, year2, loc1.name, loc2.name)
    else NameKept(year1, year2, loc1.name)
  }

  /** `compare_eras`: geocodes both years and reports what changed. */
  function CompareEras(db: Database, locationName: string, year1: int, year2: int): (r: ComparisonResult)
    requires ValidDatabase(db)
    ensures r.ComparisonFailed? <==>
      GeocodeHistorical(db, locationName, year1).GeocodeFailed? ||
      GeocodeHistorical(db, locationName, year2).GeocodeFailed?
    ensures r.ComparisonFailed? <==> FindLocationKey(db, locationName).None?
    ensures r.ComparisonFailed? ==> r.error == "Could not retrieve data for one or both time periods"
    ensures r.Comparison? ==>
      var l1 := GeocodeHistorical(db, locationName, year1).location;
      var l2 := GeocodeHistorical(db, locationName, year2).location;
      r.location == locationName &&
      r.era1 == EraOf(l1, year1) && r.era2 == EraOf(l2, year2) &&
      r.changes.yearsBetween == Abs(year2 - year1) &&
      (r.changes.nameChanged <==> r.era1.name != r.era2.name) &&
      (r.changes.coordinatesChanged <==> (r.era1.lat != r.era2.lat || r.era1.lon != r.era2.lon)) &&
      (r.summary.Renamed? <==> r.changes.nameChanged)
  {
    var g1 := GeocodeHistorical(db, locationName, year1);
    var g2 := GeocodeHistorical(db, locationName, year2);
    if g1.GeocodeFailed? || g2.GeocodeFailed? then
      ComparisonFailed("Could not retrieve data for one or both time periods")
    else
      var l1, l2 := g1.location, g2.location;
      Comparison(locationName, EraOf(l1, year1), EraOf(l2, year2),
                 Changes(l1.name != l2.name,
                         l1.latitude != l2.latitude || l1.longitude != l2.longitude,
                         Abs(year2 - year1)),
                 SummaryOf(l1, l2, year1, year2))
  }

  /** Swapping the two years swaps the eras and changes nothing else that
      `changes` reports; comparing a year with itself reports no change. */
  lemma CompareErasSymmetric(db: Database, locationName: string, year1: int, year2: int)
    requires ValidDatabase(db)
    ensures var a := CompareEras(db, locationName, year1, year2);
      var b := CompareEras(db, locationName, year2, year1);
      a.Comparison? <==> b.Comparison?
    ensures var a := CompareEras(db, locationName, year1, year2);
      var b := CompareEras(db, locationName, year2, year1);
      a.Comparison? ==> a.era1 == b.era2 && a.era2 == b.era1 && a.changes == b.changes
    ensures var a := CompareEras(db, locationName, year1, year1);
      a.Comparison? ==> a.changes == Changes(false, false, 0) && a.summary.NameKept?
  {
  }

  // ---------------------------------------------------------------------------
  // The catalog the server is built with

  function HistoricalDatabase(): Database
  {
    [ ("Beirut", BeirutHistory()),
      ("Gemmayzeh", GemmayzehHistory()),
      ("AUB Campus", AubCampusHistory()),
      ("AUB Main Gate", AubMainGateHistory()),
      ("Byblos", ByblosHistory()),
      ("Constantinople", ConstantinopleHistory()),
      ("Berlin", BerlinHistory()),
      ("New York", NewYorkHistory())
    ]
  }

  /** A catalog history: non-empty, without empty names, in year order. */
  predicate WellFormedHistory(t: History)
  {
    |t| > 0 && Chronological(t) && forall j :: 0 <= j < |t| ==> t[j].name != ""
  }

  function BeirutHistory(): (t: History)
    ensures WellFormedHistory(t)
  {
    [ HistoricalEntry(-3000, "Berytus (Phoenician)", 33.8886, 35.4955, "Ancient Phoenician port city, center of maritime trade"),
      HistoricalEntry(64, "Berytus (Roman)", 33.8886, 35.4955, "Roman colony, famous law school established"),
      HistoricalEntry(1866, "Beirut", 33.8886, 35.4955, "American University of Beirut founded"),
      HistoricalEntry(1920, "Beirut (French Mandate)", 33.8886, 35.4955, "Under French Mandate after WWI"),
      HistoricalEntry(1943, "Beirut", 33.8886, 35.4955, "Lebanon gains independence, Beirut becomes capital"),
      HistoricalEntry(2024, "Beirut", 33.8886, 35.4955, "Modern capital, resilient cultural hub of Lebanon") ]
  }

  function GemmayzehHistory(): (t: History)
    ensures WellFormedHistory(t)
  {
    [ HistoricalEntry(1880, "Gemmayzeh Quarter", 33.8947, 35.5189, "Historic Armenian and Greek Orthodox district established"),
      HistoricalEntry(1975, "Gemmayzeh (Green Line)", 33.8947, 35.5189, "Near the Green Line during Lebanese civil war"),
      HistoricalEntry(2000, "Gemmayzeh Arts District", 33.8947, 35.5189, "Post-war cultural renaissance, galleries and cafes flourish"),
      HistoricalEntry(2020, "Gemmayzeh", 33.8947, 35.5189, "Devastating port blast damage, ongoing community rebuilding") ]
  }

  function AubCampusHistory(): (t: History)
    ensures WellFormedHistory(t)
  {
    [ HistoricalEntry(1866, "Syrian Protestant College", 33.8972, 35.4795, "Founded by American missionaries, 16 students"),
      HistoricalEntry(1920, "American University of Beirut", 33.8972, 35.4795, "Renamed AUB, expanded programs and campus"),
      HistoricalEntry(1975, "AUB Campus (War Era)", 33.8972, 35.4795, "Continued operation during civil war, sanctuary for students"),
      HistoricalEntry(2024, "AUB Campus", 33.8972, 35.4795, "Leading regional university, 158 years of excellence") ]
  }

  function AubMainGateHistory(): (t: History)
    ensures WellFormedHistory(t)
  {
    [ HistoricalEntry(1866, "College Entrance", 33.8975, 35.4790, "Original entrance to Syrian Protestant College"),
      HistoricalEntry(1920, "AUB Main Gate", 33.8975, 35.4790, "Iconic campus entrance on Bliss Street"),
      HistoricalEntry(2024, "AUB Main Gate", 33.8975, 35.4790, "Historic gateway welcoming generations of students") ]
  }

  function ByblosHistory(): (t: History)
    ensures WellFormedHistory(t)
  {
    [ HistoricalEntry(-5000, "Gebal (Phoenician)", 34.1208, 35.6481, "Ancient Phoenician city, one of oldest continuously inhabited"),
      HistoricalEntry(64, "Byblos (Roman)", 34.1208, 35.6481, "Roman colony, thriving port city"),
      HistoricalEntry(1104, "Gibelet (Crusader)", 34.1208, 35.6481, "Crusader castle built overlooking the port"),
      HistoricalEntry(1920, "Jbeil", 34.1208, 35.6481, "Lebanese town under French Mandate"),
      HistoricalEntry(2024, "Byblos (Jbeil)", 34.1208, 35.6481, "UNESCO World Heritage Site, tourist destination") ]
  }

  function ConstantinopleHistory(): (t: History)
    ensures WellFormedHistory(t)
  {
    [ HistoricalEntry(330, "Constantinople", 41.0082, 28.9784, "Founded by Constantine as the new capital of Roman Empire"),
      HistoricalEntry(1453, "Constantinople", 41.0082, 28.9784, "Fell to Ottoman Empire, marking end of Byzantine Empire"),
      HistoricalEntry(1930, "Istanbul", 41.0082, 28.9784, "Officially renamed to Istanbul by Turkish Republic") ]
  }

  function BerlinHistory(): (t: History)
    ensures WellFormedHistory(t)
  {
    [ HistoricalEntry(1237, "Berlin", 52.5200, 13.4050, "First documented mention of Berlin"),
      HistoricalEntry(1961, "Berlin (Divided)", 52.5200, 13.4050, "Berlin Wall constructed, dividing East and West"),
      HistoricalEntry(1989, "Berlin", 52.5200, 13.4050, "Berlin Wall fell, reunification began") ]
  }

  function NewYorkHistory(): (t: History)
    ensures WellFormedHistory(t)
  {
    [ HistoricalEntry(1624, "New Amsterdam", 40.7128, -74.0060, "Dutch settlement established on Manhattan"),
      HistoricalEntry(1664, "New York", 40.7128, -74.0060, "English captured and renamed the city"),
      HistoricalEntry(1898, "New York City", 40.7128, -74.0060, "Five boroughs consolidated into modern NYC") ]
  }
}
