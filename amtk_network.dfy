/** Station tables: filtering by column value, fiscal year and quarters;
    ordering a train's stations into a route; and the country, region and
    division lookups for a state or province. */
module AmtkNetwork {
  import opened Common

  /** One row of a station table. The columns the core reads are fields; every
      other column of the row is kept by name in `others`. */
  datatype Station = Station(
    code: string,            // "Arrival Station Code"
    trainNumber: int,        // "Train Number"
    fiscalYear: int,         // "Fiscal Year"
    fiscalQuarter: int,      // "Fiscal Quarter"
    latitude: real,          // "Latitude"
    longitude: real,         // "Longitude"
    others: map<string, PyVal>)

  /** A station table: its rows and the names of its columns besides the named ones. */
  datatype StationFrame = StationFrame(otherColumns: set<string>, rows: seq<Station>)

  const NamedColumns: set<string> :=
    {"Arrival Station Code", "Train Number", "Fiscal Year", "Fiscal Quarter", "Latitude", "Longitude"}

  predicate HasColumn(f: StationFrame, c: string)
  {
    c in NamedColumns || c in f.otherColumns
  }

  /** The value of column c in a row; a column the row lacks reads as missing. */
  function Cell(s: Station, c: string): PyVal
  {
    if c == "Arrival Station Code" then PStr(s.code)
    else if c == "Train Number" then PInt(s.trainNumber)
    else if c == "Fiscal Year" then PInt(s.fiscalYear)
    else if c == "Fiscal Quarter" then PInt(s.fiscalQuarter)
    else if c == "Latitude" then PReal(s.latitude)
    else if c == "Longitude" then PReal(s.longitude)
    else if c in s.others then s.others[c]
    else PNone
  }

  // ---------------------------------------------------------------------------
  // filter_stations

  /** The active filtering criteria: a column/value test, a fiscal year, and a
      set of fiscal quarters; None means the criterion is not applied. */
  datatype Criteria = Criteria(
    columnTest: Option<(string, PyVal)>,
    year: Option<int>,
    quarters: Option<seq<int>>)

  predicate Matches(s: Station, crit: Criteria)
  {
    PassesColumnTest(s, crit.columnTest) && PassesYear(s, crit.year) && PassesQuarters(s, crit.quarters)
  }

  /** `stations[column] == value` */
  predicate PassesColumnTest(s: Station, test: Option<(string, PyVal)>)
  {
    test.None? || PyEq(Cell(s, test.value.0), test.value.1)
  }

  /** `stations["Fiscal Year"] == year` */
  predicate PassesYear(s: Station, year: Option<int>)
  {
    year.None? || s.fiscalYear == year.value
  }

  /** `stations["Fiscal Quarter"].isin(quarters)` */
  predicate PassesQuarters(s: Station, quarters: Option<seq<int>>)
  {
    quarters.None? || s.fiscalQuarter in quarters.value
  }

  /** The rows meeting the criteria, in their original relative order. */
  function Filter(rows: seq<Station>, crit: Criteria): (r: seq<Station>)
    ensures |r| <= |rows|
  {
    if |rows| == 0 then []
    else
      var last := rows[|rows| - 1];
      Filter(rows[..|rows| - 1], crit) + (if Matches(last, crit) then [last] else [])
  }

  lemma {:induction false} FilterMembership(rows: seq<Station>, crit: Criteria, x: Station)
    ensures x in Filter(rows, crit) <==> x in rows && Matches(x, crit)
  {
    if |rows| > 0 {
      FilterMembership(rows[..|rows| - 1], crit, x);
      assert rows == rows[..|rows| - 1] + [rows[|rows| - 1]];
    }
  }

  /** Filtering commutes with concatenation, so it keeps the rows' relative order. */
  lemma {:induction false} FilterConcat(a: seq<Station>, b: seq<Station>, crit: Criteria)
    ensures Filter(a + b, crit) == Filter(a, crit) + Filter(b, crit)
    decreases |b|
  {
    if |b| == 0 {
      assert a + b == a;
    } else {
      var b' := b[..|b| - 1];
      assert (a + b)[..|a + b| - 1] == a + b';
      FilterConcat(a, b', crit);
    }
  }

  /** When no row is excluded the result is the input table itself. */
  lemma {:induction false} FilterAllPass(rows: seq<Station>, crit: Criteria)
    requires forall k :: 0 <= k < |rows| ==> Matches(rows[k], crit)
    ensures Filter(rows, crit) == rows
  {
    if |rows| > 0 {
      FilterAllPass(rows[..|rows| - 1], crit);
    }
  }

  /** `if column:` — None and the empty name are both falsy. */
  predicate ColumnGiven(column: Option<string>)
  {
    column.Some? && |column.value| > 0
  }

  predicate IsQuarter(v: PyVal)
  {
    IsInt(v) && 1 <= AsInt(v) <= 4
  }

  /** The criteria filter_stations applies for given (valid) arguments: the
      quarters only count when a truthy year is given. */
  function CriteriaOf(column: Option<string>, value: PyVal, year: PyVal, quarters: seq<PyVal>): Criteria
  {
    var yearGiven := Truthy(year) && IsInt(year);
    Criteria(
      if ColumnGiven(column) then Some((column.value, value)) else None,
      if yearGiven then Some(AsInt(year)) else None,
      if yearGiven && |quarters| > 0 && AllQuarters(quarters)
      then Some(QuarterNumbers(quarters))
      else None)
  }

  function QuarterNumbers(quarters: seq<PyVal>): (qs: seq<int>)
    requires AllQuarters(quarters)
    ensures |qs| == |quarters|
    ensures forall j :: 0 <= j < |qs| ==> qs[j] == AsInt(quarters[j]) && 1 <= qs[j] <= 4
  {
    seq(|quarters|, j requires 0 <= j < |quarters| => AsInt(quarters[j]))
  }

  /** The boolean mask a filter has built so far selects exactly the rows
      meeting crit. */
  ghost predicate MaskIs(mask: seq<bool>, rows: seq<Station>, crit: Criteria)
  {
    |mask| == |rows| && forall k :: 0 <= k < |rows| ==> mask[k] == Matches(rows[k], crit)
  }

  /** `mask &= stations[column] == value` */
  method NarrowByColumn(mask: seq<bool>, rows: seq<Station>, ghost crit: Criteria, c: string, value: PyVal)
    returns (m: seq<bool>)
    requires MaskIs(mask, rows, crit) && crit.columnTest.None?
    ensures MaskIs(m, rows, crit.(columnTest := Some((c, value))))
  {
    m := [];
    while |m| < |rows|
      invariant |m| <= |rows|
      invariant forall k :: 0 <= k < |m| ==> m[k] == (mask[k] && PassesColumnTest(rows[k], Some((c, value))))
    {
      m := m + [mask[|m|] && PassesColumnTest(rows[|m|], Some((c, value)))];
    }
  }

  /** `mask &= stations["Fiscal Year"] == year` */
  method NarrowByYear(mask: seq<bool>, rows: seq<Station>, ghost crit: Criteria, y: int)
    returns (m: seq<bool>)
    requires MaskIs(mask, rows, crit) && crit.year.None?
    ensures MaskIs(m, rows, crit.(year := Some(y)))
  {
    m := [];
    while |m| < |rows|
      invariant |m| <= |rows|
      invariant forall k :: 0 <= k < |m| ==> m[k] == (mask[k] && PassesYear(rows[k], Some(y)))
    {
      m := m + [mask[|m|] && PassesYear(rows[|m|], Some(y))];
    }
  }

  /** `mask &= stations["Fiscal Quarter"].isin(quarters)` */
  method NarrowByQuarters(mask: seq<bool>, rows: seq<Station>, ghost crit: Criteria, qs: seq<int>)
    returns (m: seq<bool>)
    requires MaskIs(mask, rows, crit) && crit.quarters.None?
    ensures MaskIs(m, rows, crit.(quarters := Some(qs)))
  {
    m := [];
    while |m| < |rows|
      invariant |m| <= |rows|
      invariant forall k :: 0 <= k < |m| ==> m[k] == (mask[k] && PassesQuarters(rows[k], Some(qs)))
    {
      m := m + [mask[|m|] && PassesQuarters(rows[|m|], Some(qs))];
    }
  }

  predicate AllQuarters(quarters: seq<PyVal>)
  {
    forall j :: 0 <= j < |quarters| ==> IsQuarter(quarters[j])
  }

  /** The exception filter_stations raises for its arguments, checked in the
      source's order: column name, value, year type, quarters. */
  function ArgumentError(stations: StationFrame, column: Option<string>, value: PyVal, year: PyVal, quarters: seq<PyVal>)
    : Option<Error>
  {
    if ColumnGiven(column) && !HasColumn(stations, column.value) then Some(ValueError("Invalid < column > name."))
    else if ColumnGiven(column) && value == PNone then Some(ValueError("Invalid or missing < value >."))
    else if Truthy(year) && !IsInt(year) then Some(TypeError("Invalid < year > type."))
    else if Truthy(year) && |quarters| > 0 && !AllQuarters(quarters) then Some(ValueError("Only 1-4 quarters can be specified."))
    else None
  }

  /** filter_stations: validates the arguments in the source's order, then keeps
      the rows passing every active criterion. */
  method FilterStations(stations: StationFrame, column: Option<string>, value: PyVal, year: PyVal, quarters: seq<PyVal>)
    returns (r: Result<seq<Station>>)
    ensures ArgumentError(stations, column, value, year, quarters).Some? ==>
              r == Err(ArgumentError(stations, column, value, year, quarters).value)
    ensures ArgumentError(stations, column, value, year, quarters).None? ==>
              r == Ok(Filter(stations.rows, CriteriaOf(column, value, year, quarters)))
  {
    var rows := stations.rows;
    var mask := seq(|rows|, _ => true);
    ghost var crit := Criteria(None, None, None);

    if ColumnGiven(column) {
      if !HasColumn(stations, column.value) {
        return Err(ValueError("Invalid < column > name."));
      }
      if value == PNone {
        return Err(ValueError("Invalid or missing < value >."));
      }
      mask := NarrowByColumn(mask, rows, crit, column.value, value);
      crit := crit.(columnTest := Some((column.value, value)));
    }

    if Truthy(year) {
      if !IsInt(year) {
        return Err(TypeError("Invalid < year > type."));
      }
      mask := NarrowByYear(mask, rows, crit, AsInt(year));
      crit := crit.(year := Some(AsInt(year)));

      if |quarters| > 0 {
        if !AllQuarters(quarters) {
          return Err(ValueError("Only 1-4 quarters can be specified."));
        }
        mask := NarrowByQuarters(mask, rows, crit, QuarterNumbers(quarters));
        crit := crit.(quarters := Some(QuarterNumbers(quarters)));
      }
    }
    assert crit == CriteriaOf(column, value, year, quarters);

    var kept := SelectRows(rows, mask, crit);
    r := Ok(kept);
  }

  /** Falsy values other than None (0, 0.0, False, "") are accepted as filter values. */
  lemma FalsyValuesAccepted(stations: StationFrame, column: Option<string>, value: PyVal, year: PyVal, quarters: seq<PyVal>)
    requires ColumnGiven(column) && HasColumn(stations, column.value)
    requires value != PNone && !Truthy(value)
    ensures ArgumentError(stations, column, value, year, quarters) != Some(ValueError("Invalid or missing < value >."))
    ensures ArgumentError(stations, column, value, year, quarters).None? ==>
              CriteriaOf(column, value, year, quarters).columnTest == Some((column.value, value))
  {
  }

  /** Without a truthy year the quarters are neither validated nor applied. */
  lemma QuartersIgnoredWithoutYear(stations: StationFrame, column: Option<string>, value: PyVal, year: PyVal, quarters: seq<PyVal>)
    requires !Truthy(year)
    ensures ArgumentError(stations, column, value, year, quarters) == ArgumentError(stations, column, value, year, [])
    ensures CriteriaOf(column, value, year, quarters) == CriteriaOf(column, value, year, [])
    ensures CriteriaOf(column, value, year, quarters).year.None?
  {
  }

  /** `stations if mask.all() else stations[mask]`: the rows the mask keeps. */
  method SelectRows(rows: seq<Station>, mask: seq<bool>, ghost crit: Criteria) returns (kept: seq<Station>)
    requires MaskIs(mask, rows, crit)
    ensures kept == Filter(rows, crit)
    ensures (forall k :: 0 <= k < |rows| ==> Matches(rows[k], crit)) ==> kept == rows
  {
    var allTrue := AllTrue(mask);
    if allTrue {
      FilterAllPass(rows, crit);
      return rows;
    }
    kept := [];
    var i := 0;
    while i < |rows|
      invariant 0 <= i <= |rows|
      invariant kept == Filter(rows[..i], crit)
    {
      assert rows[..i + 1][..i] == rows[..i];
      if mask[i] {
        kept := kept + [rows[i]];
      }
      i := i + 1;
    }
    assert rows[..|rows|] == rows;
  }

  /** `mask.all()` */
  method AllTrue(mask: seq<bool>) returns (b: bool)
    ensures b <==> forall k :: 0 <= k < |mask| ==> mask[k]
  {
    var i := 0;
    while i < |mask|
      invariant 0 <= i <= |mask|
      invariant forall k :: 0 <= k < i ==> mask[k]
    {
      if !mask[i] {
        return false;
      }
      i := i + 1;
    }
    return true;
  }

  // ---------------------------------------------------------------------------
  // create_route and add_stations_to_route

  datatype Direction = Northbound | Southbound | Eastbound | Westbound

  /** `match direction.lower()` */
  function ParseDirection(direction: string): (r: Option<Direction>)
    ensures r == Some(Northbound) <==> Lower(direction) == "nb" || Lower(direction) == "northbound"
    ensures r == Some(Southbound) <==> Lower(direction) == "sb" || Lower(direction) == "southbound"
    ensures r == Some(Eastbound) <==> Lower(direction) == "eb" || Lower(direction) == "eastbound"
    ensures r == Some(Westbound) <==> Lower(direction) == "wb" || Lower(direction) == "westbound"
  {
    var d := Lower(direction);
    if d == "nb" || d == "northbound" then Some(Northbound)
    else if d == "sb" || d == "southbound" then Some(Southbound)
    else if d == "eb" || d == "eastbound" then Some(Eastbound)
    else if d == "wb" || d == "westbound" then Some(Westbound)
    else None
  }

  /** How a route is ordered: by each station code's rank in a station order,
      or by coordinates for a direction of travel. */
  datatype RouteOrder = ByRank(ranks: map<string, int>) | ByCoordinates(direction: Direction)

  /** `x.map(station_order)`: a code missing from the order maps to NaN (None). */
  function Rank(ranks: map<string, int>, s: Station): Option<int>
  {
    if s.code in ranks then Some(ranks[s.code]) else None
  }

  /** May a come before b? Ranks ascend with NaN placed last; coordinates follow
      the (column, ascending) pairs chosen for each direction. */
  predicate Precedes(o: RouteOrder, a: Station, b: Station)
  {
    match o
    case ByRank(ranks) =>
      (Rank(ranks, b).None? || (Rank(ranks, a).Some? && Rank(ranks, a).value <= Rank(ranks, b).value))
    case ByCoordinates(Northbound) =>
      a.latitude < b.latitude || (a.latitude == b.latitude && a.longitude <= b.longitude)
    case ByCoordinates(Southbound) =>
      a.latitude > b.latitude || (a.latitude == b.latitude && a.longitude <= b.longitude)
    case ByCoordinates(Eastbound) =>
      a.longitude < b.longitude || (a.longitude == b.longitude && a.latitude <= b.latitude)
    case ByCoordinates(Westbound) =>
      a.longitude > b.longitude || (a.longitude == b.longitude && a.latitude <= b.latitude)
  }

  lemma PrecedesTotal(o: RouteOrder, a: Station, b: Station)
    ensures Precedes(o, a, b) || Precedes(o, b, a)
  {
  }

  lemma PrecedesTransitive(o: RouteOrder, a: Station, b: Station, c: Station)
    requires Precedes(o, a, b) && Precedes(o, b, c)
    ensures Precedes(o, a, c)
  {
  }

  ghost predicate SortedBy(o: RouteOrder, s: seq<Station>)
  {
    forall i, j :: 0 <= i < j < |s| ==> Precedes(o, s[i], s[j])
  }

  /** `sort_values` in place: the rows end up ordered and are a permutation of
      the rows before. The sort is not promised to be stable. */
  method SortRows(a: array<Station>, o: RouteOrder)
    modifies a
    ensures SortedBy(o, a[..])
    ensures multiset(a[..]) == multiset(old(a[..]))
  {
    var i := 0;
    while i < a.Length
      invariant 0 <= i <= a.Length
      invariant forall p, q :: 0 <= p < q < i ==> Precedes(o, a[p], a[q])
      invariant multiset(a[..]) == multiset(old(a[..]))
    {
      InsertIntoPrefix(a, o, i);
      i := i + 1;
    }
  }

  /** One step of insertion sort: moves a[i] left into the ordered prefix a[..i]. */
  method InsertIntoPrefix(a: array<Station>, o: RouteOrder, i: nat)
    requires i < a.Length
    requires forall p, q :: 0 <= p < q < i ==> Precedes(o, a[p], a[q])
    modifies a
    ensures forall p, q :: 0 <= p < q <= i ==> Precedes(o, a[p], a[q])
    ensures multiset(a[..]) == multiset(old(a[..]))
  {
    var j := i;
    while j > 0 && !Precedes(o, a[j - 1], a[j])
      invariant 0 <= j <= i
      invariant forall p, q :: 0 <= p < q <= i && p != j && q != j ==> Precedes(o, a[p], a[q])
      invariant forall q :: j < q <= i ==> Precedes(o, a[j], a[q])
      invariant multiset(a[..]) == multiset(old(a[..]))
    {
      PrecedesTotal(o, a[j - 1], a[j]);
      a[j - 1], a[j] := a[j], a[j - 1];
      j := j - 1;
    }
    forall p | 0 <= p < j
      ensures Precedes(o, a[p], a[j])
    {
      if p < j - 1 {
        PrecedesTransitive(o, a[p], a[j - 1], a[j]);
      }
    }
  }

  /** create_route: a non-empty station order sorts the caller's table in place
      by rank; otherwise the direction picks the coordinate order and a sorted
      copy is returned, and an unknown direction is an error. */
  method CreateRoute(train: array<Station>, direction: string, stationOrder: map<string, int>)
    returns (r: Result<seq<Station>>)
    modifies train
    ensures |stationOrder| > 0 ==>
              && r == Ok(train[..])
              && SortedBy(ByRank(stationOrder), train[..])
              && multiset(train[..]) == multiset(old(train[..]))
    ensures |stationOrder| == 0 ==> train[..] == old(train[..])
    ensures |stationOrder| == 0 && ParseDirection(direction).None? ==>
              r == Err(ValueError("Direction invalid: choose eastbound, westbound, northbound, or southbound"))
    ensures |stationOrder| == 0 && ParseDirection(direction).Some? ==>
              && r.Ok?
              && SortedBy(ByCoordinates(ParseDirection(direction).value), r.value)
              && multiset(r.value) == multiset(train[..])
  {
    if |stationOrder| > 0 {
      SortRows(train, ByRank(stationOrder));
      return Ok(train[..]);
    }
    var d := ParseDirection(direction);
    if d.None? {
      return Err(ValueError("Direction invalid: choose eastbound, westbound, northbound, or southbound"));
    }
    var copy := new Station[train.Length](i requires 0 <= i < train.Length reads train => train[i]);
    assert copy[..] == train[..];
    SortRows(copy, ByCoordinates(d.value));
    r := Ok(copy[..]);
  }

  /** add_stations_to_route: stamps every added station with the train number of
      the train's first row (changing the caller's station table), then orders
      the train's rows and the stations together by rank. */
  method AddStationsToRoute(train: seq<Station>, stations: array<Station>, stationOrder: map<string, int>)
    returns (r: Result<seq<Station>>)
    modifies stations
    ensures |train| == 0 ==> r == Err(IndexError) && stations[..] == old(stations[..])
    ensures |train| > 0 ==>
              forall k :: 0 <= k < stations.Length ==>
                stations[k] == old(stations[k]).(trainNumber := train[0].trainNumber)
    ensures |train| > 0 ==>
              && r.Ok?
              && SortedBy(ByRank(stationOrder), r.value)
              && multiset(r.value) == multiset(train) + multiset(stations[..])
  {
    if |train| == 0 {
      return Err(IndexError);
    }
    var number := train[0].trainNumber;
    var i := 0;
    while i < stations.Length
      invariant 0 <= i <= stations.Length
      invariant forall k :: 0 <= k < i ==> stations[k] == old(stations[k]).(trainNumber := number)
      invariant forall k :: i <= k < stations.Length ==> stations[k] == old(stations[k])
    {
      stations[i] := stations[i].(trainNumber := number);
      i := i + 1;
    }
    var all := train + stations[..];
    var route := new Station[|all|](k requires 0 <= k < |all| => all[k]);
    assert route[..] == all;
    SortRows(route, ByRank(stationOrder));
    r := Ok(route[..]);
  }

  // ---------------------------------------------------------------------------
  // get_country and get_region_division

  /** get_country: "United States" when the jurisdiction is in the US list
      (checked first), else "Canada" when in the Canadian list, else missing
      (None); a list the dictionary lacks when it is consulted raises KeyError. */
  function GetCountry(statesProvinces: map<string, seq<string>>, jurisdiction: string): (r: Result<Option<string>>)
    ensures r.Ok? <==>
              "United States" in statesProvinces
              && (jurisdiction in statesProvinces["United States"] || "Canada" in statesProvinces)
    ensures "United States" !in statesProvinces ==> r == Err(KeyError("United States"))
    ensures var us := "United States";
            us in statesProvinces && jurisdiction !in statesProvinces[us] && "Canada" !in statesProvinces ==>
              r == Err(KeyError("Canada"))
    ensures r.Ok? && r.value.Some? ==>
              && (r.value.value == "United States" || r.value.value == "Canada")
              && r.value.value in statesProvinces
              && jurisdiction in statesProvinces[r.value.value]
    ensures r.Ok? && r.value.Some? && r.value.value == "Canada" ==>
              jurisdiction !in statesProvinces["United States"]
    ensures r.Ok? && r.value.None? ==>
              jurisdiction !in statesProvinces["United States"] && jurisdiction !in statesProvinces["Canada"]
  {
    if "United States" !in statesProvinces then Err(KeyError("United States"))
    else if jurisdiction in statesProvinces["United States"] then Ok(Some("United States"))
    else if "Canada" !in statesProvinces then Err(KeyError("Canada"))
    else if jurisdiction in statesProvinces["Canada"] then Ok(Some("Canada"))
    else Ok(None)
  }

  datatype Division = Division(name: string, jurisdictions: seq<string>)

  /** A region and its divisions, in the dictionaries' iteration order. */
  datatype Region = Region(name: string, divisions: seq<Division>)

  predicate ListedAt(regions: seq<Region>, jurisdiction: string, i: int, j: int)
  {
    0 <= i < |regions| && 0 <= j < |regions[i].divisions|
    && jurisdiction in regions[i].divisions[j].jurisdictions
  }

  /** (i, j) is the first listing of the jurisdiction in iteration order. */
  ghost predicate FirstListing(regions: seq<Region>, jurisdiction: string, i: int, j: int)
  {
    && ListedAt(regions, jurisdiction, i, j)
    && (forall i', j' :: 0 <= i' < i ==> !ListedAt(regions, jurisdiction, i', j'))
    && (forall j' :: 0 <= j' < j ==> !ListedAt(regions, jurisdiction, i, j'))
  }

  /** get_region_division: the first (region, division) whose list contains the
      jurisdiction, or missing (None) when no list does. */
  method GetRegionDivision(regions: seq<Region>, jurisdiction: string) returns (r: Option<(string, string)>)
    ensures r.None? <==> forall i, j :: !ListedAt(regions, jurisdiction, i, j)
    ensures r.Some? ==>
              exists i, j :: FirstListing(regions, jurisdiction, i, j)
                && r.value == (regions[i].name, regions[i].divisions[j].name)
  {
    var i := 0;
    while i < |regions|
      invariant 0 <= i <= |regions|
      invariant forall i', j' :: 0 <= i' < i ==> !ListedAt(regions, jurisdiction, i', j')
    {
      var divisions := regions[i].divisions;
      var j := 0;
      while j < |divisions|
        invariant 0 <= j <= |divisions|
        invariant forall j' :: 0 <= j' < j ==> !ListedAt(regions, jurisdiction, i, j')
      {
        if jurisdiction in divisions[j].jurisdictions {
          assert FirstListing(regions, jurisdiction, i, j);
          return Some((regions[i].name, divisions[j].name));
        }
        j := j + 1;
      }
      i := i + 1;
    }
    return None;
  }
}
