/**
 * The in-memory shaping the statistics service applies to query results:
 * per-product closure buckets, the status by severity grid, day and hour
 * gap-filled trends, the date by severity cross product and the folding
 * of AI-decision outcomes. The queries themselves are parameters: each
 * method receives the rows its query returned.
 */
module StatsShaping {
  import opened Wrappers
  import opened Text
  import opened Seqs
  import opened Sorting
  import opened Calendar

  datatype StatsError = OverflowError | ValueError(message: string)

  /** `_normalize_datetime_to_utc(dt)`: an aware value is moved to UTC and made naive. */
  function NormalizeDatetimeToUtc(dt: Option<DateTime>): (r: Result<Option<DateTime>, StatsError>)
    requires dt.Some? ==> ValidDateTime(dt.value)
    ensures dt.None? ==> r == Ok(None)
    ensures dt.Some? && dt.value.offset.None? ==> r == Ok(dt)
    ensures dt.Some? && r.Ok? ==> r.value.Some? && ValidDateTime(r.value.value) && r.value.value.offset.None?
    ensures dt.Some? && dt.value.offset.Some? ==>
              (r.Ok? <==> 0 <= WallMicros(dt.value) - dt.value.offset.value * MicrosPerMinute < MicrosCount())
    ensures dt.Some? && dt.value.offset.Some? && r.Ok? ==>
              WallMicros(r.value.value) == WallMicros(dt.value) - dt.value.offset.value * MicrosPerMinute
  {
    match dt
    case None => Ok(None)
    case Some(t) =>
      match t.offset
      case None => Ok(dt)
      case Some(o) =>
        match Shift(t, -o * MicrosPerMinute)
        case None => Err(OverflowError)
        case Some(u) => Ok(Some(u.(offset := None)))
  }

  /** Normalising an already normalised value changes nothing. */
  lemma NormalizeIdempotent(dt: Option<DateTime>)
    requires dt.Some? ==> ValidDateTime(dt.value)
    ensures NormalizeDatetimeToUtc(dt).Ok? ==>
              NormalizeDatetimeToUtc(NormalizeDatetimeToUtc(dt).value) == NormalizeDatetimeToUtc(dt)
  {
  }

  /** The guard of the AI analyses: both ends of the range are required. */
  function RequireRange(start: Option<DateTime>, end: Option<DateTime>): (r: Option<StatsError>)
    ensures r.None? <==> start.Some? && end.Some?
    ensures r.Some? ==> r.value.ValueError?
  {
    if start.None? || end.None? then Some(ValueError("start_date and end_date are required")) else None
  }

  // ---------------------------------------------------------------------
  // Alert counts by product and closure type
  // ---------------------------------------------------------------------

  /** The closure type the query's CASE expression yields. */
  datatype Closure = Manual | AutoClosed | Unclosed

  datatype ProductRow = ProductRow(product: Option<string>, closure: Closure, count: nat)

  /** The three counters kept per product. */
  datatype Buckets = Buckets(manual: nat, autoClosed: nat, none: nat)

  /** `row.data_source_product_name or 'Unknown'`. */
  function ProductKey(row: ProductRow): (r: string)
    ensures r != ""
    ensures row.product.Some? && row.product.value != "" ==> r == row.product.value
  {
    if row.product.None? || row.product.value == "" then "Unknown" else row.product.value
  }

  /** The total count of the rows filed under `key` and closure type `c`. */
  function Tally(rows: seq<ProductRow>, key: string, c: Closure): nat {
    if rows == [] then 0
    else
      var row := rows[|rows| - 1];
      Tally(rows[..|rows| - 1], key, c) + (if ProductKey(row) == key && row.closure == c then row.count else 0)
  }

  function ProductKeys(rows: seq<ProductRow>): set<string> {
    set row | row in rows :: ProductKey(row)
  }

  /** The buckets a product is expected to end with. */
  function Expected(rows: seq<ProductRow>, key: string): Buckets {
    Buckets(Tally(rows, key, Manual), Tally(rows, key, AutoClosed), Tally(rows, key, Unclosed))
  }

  /** `result[product][closure] += count`. */
  function Bump(b: Buckets, c: Closure, n: nat): Buckets {
    match c
    case Manual => b.(manual := b.manual + n)
    case AutoClosed => b.(autoClosed := b.autoClosed + n)
    case Unclosed => b.(none := b.none + n)
  }

  /** A product no row is filed under has nothing counted. */
  lemma {:induction false} TallyAbsent(rows: seq<ProductRow>, key: string, c: Closure)
    requires key !in ProductKeys(rows)
    ensures Tally(rows, key, c) == 0
    decreases |rows|
  {
    if rows != [] {
      assert ProductKeys(rows[..|rows| - 1]) <= ProductKeys(rows);
      TallyAbsent(rows[..|rows| - 1], key, c);
    }
  }

  lemma ExpectedSnoc(rows: seq<ProductRow>, row: ProductRow, key: string)
    ensures Expected(rows + [row], key) ==
              if ProductKey(row) == key then Bump(Expected(rows, key), row.closure, row.count) else Expected(rows, key)
  {
    assert (rows + [row])[..|rows|] == rows;
  }

  /**
   * The loop of `get_alert_count_by_product_name`: every product seen maps
   * to all three buckets, and each bucket holds the sum of the counts filed
   * under that product and closure type.
   */
  method CountByProduct(rows: seq<ProductRow>) returns (result: map<string, Buckets>)
    ensures result.Keys == ProductKeys(rows)
    ensures forall key :: key in result ==> result[key] == Expected(rows, key)
  {
    result := map[];
    for i := 0 to |rows|
      invariant result.Keys == ProductKeys(rows[..i])
      invariant forall key :: key in result ==> result[key] == Expected(rows[..i], key)
    {
      var row := rows[i];
      var key := ProductKey(row);
      assert rows[..i + 1] == rows[..i] + [row];
      if key !in result {
        TallyAbsent(rows[..i], key, Manual);
        TallyAbsent(rows[..i], key, AutoClosed);
        TallyAbsent(rows[..i], key, Unclosed);
        result := result[key := Buckets(0, 0, 0)];
      }
      result := result[key := Bump(result[key], row.closure, row.count)];
      forall k | k in result
        ensures result[k] == Expected(rows[..i + 1], k)
      {
        ExpectedSnoc(rows[..i], row, k);
      }
    }
    assert rows[..|rows|] == rows;
  }

  // ---------------------------------------------------------------------
  // Alert status by severity
  // ---------------------------------------------------------------------

  datatype StatusRow = StatusRow(status: Option<string>, severity: Option<string>, count: nat)

  const StatusBuckets: seq<string> := ["Open", "Closed", "Block"]
  const SeverityBuckets: seq<string> := ["Fatal", "High", "Medium", "Low", "Tips"]

  /** Python `s or ""`. */
  function OrEmpty(s: Option<string>): string {
    if s.None? then "" else s.value
  }

  /** The total count of the rows with status `s` and severity `v`. */
  function Cell(rows: seq<StatusRow>, s: string, v: string): nat {
    if rows == [] then 0
    else
      var row := rows[|rows| - 1];
      Cell(rows[..|rows| - 1], s, v) + (if OrEmpty(row.status) == s && OrEmpty(row.severity) == v then row.count else 0)
  }

  function StatusesOf(rows: seq<StatusRow>): set<string> {
    set row | row in rows :: OrEmpty(row.status)
  }

  function SeveritiesOf(rows: seq<StatusRow>, s: string): set<string> {
    set row | row in rows && OrEmpty(row.status) == s :: OrEmpty(row.severity)
  }

  /** The severities a status row of the result is expected to hold. */
  function GridSeverities(rows: seq<StatusRow>, s: string): set<string> {
    (if s in StatusBuckets then set v | v in SeverityBuckets else {}) + SeveritiesOf(rows, s)
  }

  /** The standard 3 x 5 grid of zeros. */
  function InitialGrid(): (g: map<string, map<string, nat>>)
    ensures g.Keys == set s | s in StatusBuckets
    ensures forall s :: s in g ==> g[s].Keys == (set v | v in SeverityBuckets)
    ensures forall s, v :: s in g && v in g[s] ==> g[s][v] == 0
  {
    map s | s in StatusBuckets :: map v | v in SeverityBuckets :: 0
  }

  lemma {:induction false} CellAbsent(rows: seq<StatusRow>, s: string, v: string)
    requires v !in SeveritiesOf(rows, s)
    ensures Cell(rows, s, v) == 0
    decreases |rows|
  {
    if rows != [] {
      assert SeveritiesOf(rows[..|rows| - 1], s) <= SeveritiesOf(rows, s);
      CellAbsent(rows[..|rows| - 1], s, v);
    }
  }

  lemma CellSnoc(rows: seq<StatusRow>, row: StatusRow, s: string, v: string)
    ensures Cell(rows + [row], s, v) ==
              Cell(rows, s, v) + (if OrEmpty(row.status) == s && OrEmpty(row.severity) == v then row.count else 0)
  {
    assert (rows + [row])[..|rows|] == rows;
  }

  /**
   * `result[status][severity] += count`, creating the status row and the
   * cell first when they are absent.
   */
  function AddCount(grid: map<string, map<string, nat>>, status: string, severity: string, n: nat)
    : (r: map<string, map<string, nat>>)
    ensures r.Keys == grid.Keys + {status}
    ensures forall s :: s in r ==> r[s].Keys == (if s in grid then grid[s].Keys else {}) + (if s == status then {severity} else {})
    ensures forall s, v :: s in r && v in r[s] ==>
              r[s][v] == (if s in grid && v in grid[s] then grid[s][v] else 0) + (if s == status && v == severity then n else 0)
  {
    var inner: map<string, nat> := if status in grid then grid[status] else map[];
    var cell := if severity in inner then inner[severity] else 0;
    grid[status := inner[severity := cell + n]]
  }

  /** `grid` is the result of folding `rows` into the standard grid. */
  predicate GridOf(grid: map<string, map<string, nat>>, rows: seq<StatusRow>) {
    && grid.Keys == (set s | s in StatusBuckets) + StatusesOf(rows)
    && (forall s :: s in grid ==> grid[s].Keys == GridSeverities(rows, s))
    && (forall s, v :: s in grid && v in grid[s] ==> grid[s][v] == Cell(rows, s, v))
  }

  lemma StatusesSnoc(rows: seq<StatusRow>, row: StatusRow)
    ensures StatusesOf(rows + [row]) == StatusesOf(rows) + {OrEmpty(row.status)}
  {
    assert forall r :: r in rows + [row] <==> r in rows || r == row;
  }

  lemma SeveritiesSnoc(rows: seq<StatusRow>, row: StatusRow, s: string)
    ensures SeveritiesOf(rows + [row], s) ==
              SeveritiesOf(rows, s) + (if s == OrEmpty(row.status) then {OrEmpty(row.severity)} else {})
  {
    assert forall r :: r in rows + [row] <==> r in rows || r == row;
  }

  lemma GridKeysStep(grid: map<string, map<string, nat>>, rows: seq<StatusRow>, row: StatusRow)
    requires GridOf(grid, rows)
    ensures AddCount(grid, OrEmpty(row.status), OrEmpty(row.severity), row.count).Keys
            == (set s | s in StatusBuckets) + StatusesOf(rows + [row])
  {
    StatusesSnoc(rows, row);
  }

  lemma GridRowsStep(grid: map<string, map<string, nat>>, rows: seq<StatusRow>, row: StatusRow)
    requires GridOf(grid, rows)
    ensures var next := AddCount(grid, OrEmpty(row.status), OrEmpty(row.severity), row.count);
            forall s :: s in next ==> next[s].Keys == GridSeverities(rows + [row], s)
  {
    var next := AddCount(grid, OrEmpty(row.status), OrEmpty(row.severity), row.count);
    forall s | s in next
      ensures next[s].Keys == GridSeverities(rows + [row], s)
    {
      SeveritiesSnoc(rows, row, s);
    }
  }

  lemma GridCellsStep(grid: map<string, map<string, nat>>, rows: seq<StatusRow>, row: StatusRow)
    requires GridOf(grid, rows)
    ensures var next := AddCount(grid, OrEmpty(row.status), OrEmpty(row.severity), row.count);
            forall s, v :: s in next && v in next[s] ==> next[s][v] == Cell(rows + [row], s, v)
  {
    var next := AddCount(grid, OrEmpty(row.status), OrEmpty(row.severity), row.count);
    forall s, v | s in next && v in next[s]
      ensures next[s][v] == Cell(rows + [row], s, v)
    {
      CellSnoc(rows, row, s, v);
      if !(s in grid && v in grid[s]) {
        CellAbsent(rows, s, v);
      }
    }
  }

  /** Folding one more row keeps the grid the fold of the rows seen. */
  lemma GridStep(grid: map<string, map<string, nat>>, rows: seq<StatusRow>, row: StatusRow)
    requires GridOf(grid, rows)
    ensures GridOf(AddCount(grid, OrEmpty(row.status), OrEmpty(row.severity), row.count), rows + [row])
  {
    GridKeysStep(grid, rows, row);
    GridRowsStep(grid, rows, row);
    GridCellsStep(grid, rows, row);
  }

  /**
   * The loop of `get_alert_status_by_severity`: the full standard grid is
   * always present, every status and severity seen is added, and each cell
   * holds the sum of the counts of its rows (0 for an unseen combination).
   */
  method StatusBySeverity(rows: seq<StatusRow>) returns (result: map<string, map<string, nat>>)
    ensures result.Keys == (set s | s in StatusBuckets) + StatusesOf(rows)
    ensures forall s :: s in result ==> result[s].Keys == GridSeverities(rows, s)
    ensures forall s, v :: s in result && v in result[s] ==> result[s][v] == Cell(rows, s, v)
  {
    result := InitialGrid();
    for i := 0 to |rows|
      invariant GridOf(result, rows[..i])
    {
      var row := rows[i];
      GridStep(result, rows[..i], row);
      assert rows[..i + 1] == rows[..i] + [row];
      result := AddCount(result, OrEmpty(row.status), OrEmpty(row.severity), row.count);
    }
    assert rows[..|rows|] == rows;
  }

  // ---------------------------------------------------------------------
  // Gap-filled trends
  // ---------------------------------------------------------------------

  /** `{item['date']: item['count'] for item in trend_data}`: a later row for the same key wins. */
  function CountsByLabel(rows: seq<(string, nat)>): (m: map<string, nat>)
    ensures m.Keys == set row | row in rows :: row.0
  {
    if rows == [] then map[]
    else
      var init := rows[..|rows| - 1];
      assert forall row :: row in rows <==> row in init || row == rows[|rows| - 1];
      CountsByLabel(init)[rows[|rows| - 1].0 := rows[|rows| - 1].1]
  }

  /** The count a key gets is the one of the last row carrying that key. */
  lemma {:induction false} CountsByLabelLast(rows: seq<(string, nat)>, i: nat)
    requires i < |rows| && forall j :: i < j < |rows| ==> rows[j].0 != rows[i].0
    ensures rows[i].0 in CountsByLabel(rows) && CountsByLabel(rows)[rows[i].0] == rows[i].1
    decreases |rows|
  {
    if i < |rows| - 1 {
      var init := rows[..|rows| - 1];
      assert forall j :: i < j < |init| ==> init[j] == rows[j];
      CountsByLabelLast(init, i);
    }
  }

  /** `trend_dict.get(key, 0)`. */
  function CountOr0(m: map<string, nat>, key: string): nat {
    if key in m then m[key] else 0
  }

  /** `strftime('%Y-%m-%d')` of the day with ordinal `n`. */
  function DayLabel(n: nat): string {
    DateString(FromOrdinal(n))
  }

  /** The labels of `n` consecutive days starting at the day with ordinal `first`. */
  function DayLabels(first: nat, n: nat): (r: seq<string>)
    ensures |r| == n
  {
    Range(DayLabel, first, n)
  }

  /** The number of days from `start` to `end` inclusive. */
  function Span(start: Date, end: Date): nat
    requires InCalendar(start) && InCalendar(end)
  {
    if Ordinal(end) < Ordinal(start) then 0 else Ordinal(end) - Ordinal(start) + 1
  }

  /**
   * `current_date += timedelta(days=1)` raises once the walk reaches the
   * last day Python's `date` can hold, 9999-12-31.
   */
  predicate WalkOverflows(start: Date, end: Date)
    requires InCalendar(start) && InCalendar(end)
  {
    Span(start, end) > 0 && Ordinal(end) + 1 == DayCount()
  }

  /**
   * The `while current_date <= end_date_obj` walk: one key per day from
   * `start` to `end` inclusive, ascending, or OverflowError when the walk
   * steps past the last representable day.
   */
  method WalkDays(start: Date, end: Date) returns (r: Result<seq<string>, StatsError>)
    requires ValidDate(start) && ValidDate(end)
    ensures WalkOverflows(start, end) ==> r == Err(OverflowError)
    ensures !WalkOverflows(start, end) ==> r == Ok(DayLabels(Ordinal(start), Span(start, end)))
  {
    OrdinalInRange(end);
    var labels: seq<string> := [];
    var current := start;
    while Ordinal(current) <= Ordinal(end)
      invariant ValidDate(current) && Ordinal(current) == Ordinal(start) + |labels|
      invariant labels == [] || Ordinal(current) <= Ordinal(end) + 1
      invariant labels == DayLabels(Ordinal(start), |labels|)
      decreases Ordinal(end) + 1 - Ordinal(current)
    {
      FromOrdinalOrdinal(current);
      var dayString := DateString(current);
      RangeAppend(DayLabel, Ordinal(start), labels, Ordinal(current), dayString);
      labels := labels + [dayString];
      if Ordinal(current) + 1 == DayCount() {
        assert WalkOverflows(start, end);
        return Err(OverflowError);
      }
      current := NextDay(current);
    }
    OrdinalInRange(current);
    assert |labels| == Span(start, end) && !WalkOverflows(start, end);
    return Ok(labels);
  }

  /** The gap-filled trend over the given labels: each label with its count, or 0. */
  function GapFilled(m: map<string, nat>, keys: seq<string>): (r: seq<(string, nat)>)
    ensures |r| == |keys|
    ensures forall k :: 0 <= k < |keys| ==> r[k].0 == keys[k]
  {
    seq(|keys|, k requires 0 <= k < |keys| => (keys[k], CountOr0(m, keys[k])))
  }

  /** The daily trend over `start`..`end` the rows should produce. */
  function DailyResult(rows: seq<(string, nat)>, start: Date, end: Date): Result<seq<(string, nat)>, StatsError>
    requires InCalendar(start) && InCalendar(end)
  {
    if WalkOverflows(start, end) then Err(OverflowError)
    else Ok(GapFilled(CountsByLabel(rows), DayLabels(Ordinal(start), Span(start, end))))
  }

  /** Appends one gap-filled entry per label. */
  method FillLabels(counts: map<string, nat>, keys: seq<string>) returns (trend: seq<(string, nat)>)
    ensures trend == GapFilled(counts, keys)
  {
    trend := [];
    for k := 0 to |keys|
      invariant trend == GapFilled(counts, keys[..k])
    {
      trend := trend + [(keys[k], CountOr0(counts, keys[k]))];
    }
    assert keys[..|keys|] == keys;
  }

  /**
   * The day branch of `get_alert_trend` and the bodies of
   * `get_incident_trend` and `get_vulnerability_trend`, given the
   * normalised range and the rows of the per-day query: one entry per
   * day of the range, ascending, counted from the rows or 0.
   */
  method FillDays(rows: seq<(string, nat)>, startDt: Option<DateTime>, endDt: Option<DateTime>)
    returns (r: Result<seq<(string, nat)>, StatsError>)
    requires startDt.Some? ==> ValidDateTime(startDt.value)
    requires endDt.Some? ==> ValidDateTime(endDt.value)
    ensures startDt.None? || endDt.None? ==> r == Ok([])
    ensures startDt.Some? && endDt.Some? ==> r == DailyResult(rows, startDt.value.date, endDt.value.date)
  {
    if startDt.None? || endDt.None? {
      return Ok([]);
    }
    var counts := CountsByLabel(rows);
    var walk := WalkDays(startDt.value.date, endDt.value.date);
    if walk.Err? {
      return Err(walk.error);
    }
    var trend := FillLabels(counts, walk.value);
    return Ok(trend);
  }

  /** The number of the hour `t` falls in, counted from 0001-01-01T00:00. */
  function HourIndex(t: DateTime): nat
    requires ValidDateTime(t)
  {
    Ordinal(t.date) * 24 + t.hour
  }

  /** Number of hours Python's `datetime` covers. */
  function HourCount(): nat {
    DayCount() * 24
  }

  /** `strftime('%Y-%m-%d %H:00:00')` of the hour numbered `h`. */
  function HourLabel(h: nat): string {
    DayLabel(h / 24) + " " + ZeroPad(h % 24, 2) + ":00:00"
  }

  /** The labels of `n` consecutive hours starting at hour `first`. */
  function HourLabels(first: nat, n: nat): (r: seq<string>)
    ensures |r| == n
  {
    Range(HourLabel, first, n)
  }

  /** The number of hours from the hour of `start` to the hour of `end` inclusive. */
  function HourSpan(start: DateTime, end: DateTime): nat
    requires ValidDateTime(start) && ValidDateTime(end)
  {
    if HourIndex(end) < HourIndex(start) then 0 else HourIndex(end) - HourIndex(start) + 1
  }

  /** `current_time += timedelta(hours=1)` raises past 9999-12-31 23:59:59.999999. */
  predicate HourWalkOverflows(start: DateTime, end: DateTime)
    requires ValidDateTime(start) && ValidDateTime(end)
  {
    HourSpan(start, end) > 0 && HourIndex(end) + 1 == HourCount()
  }

  /** A date-time on a whole hour is that hour's first instant, and its fields are the hour's. */
  lemma HourFields(t: DateTime, h: nat)
    requires ValidDateTime(t) && WallMicros(t) == h * MicrosPerHour
    ensures t.minute == 0 && t.second == 0 && t.micro == 0
    ensures HourIndex(t) == h && t.date == FromOrdinal(h / 24) && t.hour == h % 24
  {
    var rest := t.minute * MicrosPerMinute + t.second * MicrosPerSecond + t.micro;
    assert WallMicros(t) == HourIndex(t) * MicrosPerHour + rest;
    DivModUnique(h, 0, HourIndex(t), rest, MicrosPerHour);
    DivModUnique(h / 24, h % 24, Ordinal(t.date), t.hour, 24);
    FromOrdinalOrdinal(t.date);
  }

  /** Every valid date-time lies in an hour Python's `datetime` can hold. */
  lemma HourInRange(t: DateTime)
    requires ValidDateTime(t)
    ensures HourIndex(t) < HourCount()
  {
    assert HourIndex(t) * MicrosPerHour <= WallMicros(t) < MicrosCount();
  }

  /** `t.strftime('%Y-%m-%d %H:00:00')`. */
  function HourString(t: DateTime): (r: string)
    requires ValidDateTime(t)
    ensures r == HourLabel(HourIndex(t))
  {
    DivModUnique(HourIndex(t) / 24, HourIndex(t) % 24, Ordinal(t.date), t.hour, 24);
    FromOrdinalOrdinal(t.date);
    DateString(t.date) + " " + ZeroPad(t.hour, 2) + ":00:00"
  }

  /** Adding an hour to the start of an hour reaches the start of the next, unless that is out of range. */
  lemma NextHour(t: DateTime)
    requires ValidDateTime(t) && WallMicros(t) == HourIndex(t) * MicrosPerHour
    ensures Shift(t, MicrosPerHour).None? <==> HourIndex(t) + 1 == HourCount()
    ensures Shift(t, MicrosPerHour).Some? ==>
              var u := Shift(t, MicrosPerHour).value;
              ValidDateTime(u) && u.offset == t.offset
              && WallMicros(u) == HourIndex(u) * MicrosPerHour && HourIndex(u) == HourIndex(t) + 1
  {
    HourInRange(t);
    if Shift(t, MicrosPerHour).Some? {
      HourFields(Shift(t, MicrosPerHour).value, HourIndex(t) + 1);
    }
  }

  /** `t.replace(minute=0, second=0, microsecond=0)`. */
  function FloorHour(t: DateTime): (r: DateTime)
    requires ValidDateTime(t)
    ensures ValidDateTime(r) && r.offset == t.offset
    ensures WallMicros(r) == HourIndex(t) * MicrosPerHour && HourIndex(r) == HourIndex(t)
  {
    t.(minute := 0, second := 0, micro := 0)
  }

  /**
   * The `while current_time <= end_time` walk: one label per hour from the
   * hour of `start` to the hour of `end`, ascending, or OverflowError when
   * the walk steps past the last representable instant.
   */
  method WalkHours(start: DateTime, end: DateTime) returns (r: Result<seq<string>, StatsError>)
    requires ValidDateTime(start) && ValidDateTime(end) && start.offset.None? && end.offset.None?
    ensures HourWalkOverflows(start, end) ==> r == Err(OverflowError)
    ensures !HourWalkOverflows(start, end) ==> r == Ok(HourLabels(HourIndex(start), HourSpan(start, end)))
  {
    var current := FloorHour(start);
    var endTime := FloorHour(end);
    assert HourSpan(current, endTime) == HourSpan(start, end);
    assert HourWalkOverflows(current, endTime) == HourWalkOverflows(start, end);
    r := WalkWholeHours(current, endTime);
  }

  /** The walk of `WalkHours` once both ends are truncated to their hour. */
  method WalkWholeHours(start: DateTime, end: DateTime) returns (r: Result<seq<string>, StatsError>)
    requires ValidDateTime(start) && ValidDateTime(end) && start.offset.None?
    requires WallMicros(start) == HourIndex(start) * MicrosPerHour && WallMicros(end) == HourIndex(end) * MicrosPerHour
    ensures HourWalkOverflows(start, end) ==> r == Err(OverflowError)
    ensures !HourWalkOverflows(start, end) ==> r == Ok(HourLabels(HourIndex(start), HourSpan(start, end)))
  {
    var labels: seq<string> := [];
    var current := start;
    while WallMicros(current) <= WallMicros(end)
      invariant ValidDateTime(current) && current.offset.None?
      invariant WallMicros(current) == HourIndex(current) * MicrosPerHour
      invariant HourIndex(current) == HourIndex(start) + |labels|
      invariant labels == [] || HourIndex(current) <= HourIndex(end) + 1
      invariant labels == HourLabels(HourIndex(start), |labels|)
      decreases HourIndex(end) + 1 - HourIndex(current)
    {
      var hourString := HourString(current);
      RangeAppend(HourLabel, HourIndex(start), labels, HourIndex(current), hourString);
      labels := labels + [hourString];
      NextHour(current);
      var next := Shift(current, MicrosPerHour);
      if next.None? {
        HourInRange(end);
        assert HourWalkOverflows(start, end);
        return Err(OverflowError);
      }
      current := next.value;
    }
    HourInRange(current);
    assert |labels| == HourSpan(start, end) && !HourWalkOverflows(start, end);
    return Ok(labels);
  }

  /** The hourly trend over the hours of `start`..`end` the rows should produce. */
  function HourlyResult(rows: seq<(string, nat)>, start: DateTime, end: DateTime): Result<seq<(string, nat)>, StatsError>
    requires ValidDateTime(start) && ValidDateTime(end)
  {
    if HourWalkOverflows(start, end) then Err(OverflowError)
    else Ok(GapFilled(CountsByLabel(rows), HourLabels(HourIndex(start), HourSpan(start, end))))
  }

  /** At most 24 hours apart: `(end - start).total_seconds() / 3600 <= 24`. */
  predicate WithinDay(start: DateTime, end: DateTime)
    requires ValidDateTime(start) && ValidDateTime(end)
  {
    WallMicros(end) - WallMicros(start) <= 24 * MicrosPerHour
  }

  /**
   * `get_alert_trend` after the range is normalised: no range gives an
   * empty trend, a range of at most 24 hours an hourly trend, any longer
   * one a daily trend. `rows` are the rows of whichever query runs.
   */
  method AlertTrend(rows: seq<(string, nat)>, startDt: Option<DateTime>, endDt: Option<DateTime>)
    returns (r: Result<seq<(string, nat)>, StatsError>)
    requires startDt.Some? ==> ValidDateTime(startDt.value) && startDt.value.offset.None?
    requires endDt.Some? ==> ValidDateTime(endDt.value) && endDt.value.offset.None?
    ensures startDt.None? || endDt.None? ==> r == Ok([])
    ensures startDt.Some? && endDt.Some? && WithinDay(startDt.value, endDt.value) ==>
              r == HourlyResult(rows, startDt.value, endDt.value)
    ensures startDt.Some? && endDt.Some? && !WithinDay(startDt.value, endDt.value) ==>
              r == DailyResult(rows, startDt.value.date, endDt.value.date)
  {
    if startDt.None? || endDt.None? {
      return Ok([]);
    }
    var start, end := startDt.value, endDt.value;
    if WallMicros(end) - WallMicros(start) <= 24 * MicrosPerHour {
      var counts := CountsByLabel(rows);
      var walk := WalkHours(start, end);
      if walk.Err? {
        return Err(walk.error);
      }
      var trend := FillLabels(counts, walk.value);
      return Ok(trend);
    }
    r := FillDays(rows, startDt, endDt);
  }

  // ---------------------------------------------------------------------
  // Trends by date and severity
  // ---------------------------------------------------------------------

  /** A row of the per-day, per-severity query: the date key, the stored severity (None for NULL) and its count. */
  datatype SeverityRow = SeverityRow(date: string, severity: Option<string>, count: nat)

  /** An item of `trend_data` and of the complete trend. */
  datatype SeverityEntry = SeverityEntry(date: string, severity: string, count: nat)

  /** `normalize_severity`: a missing or empty severity reads "Unknown", any other is capitalised. */
  function NormalizeSeverity(severity: Option<string>): (r: string)
    ensures r != ""
    ensures |r| == if severity.None? || severity.value == "" then 7 else |severity.value|
  {
    if severity.None? || severity.value == "" then "Unknown" else Capitalize(severity.value)
  }

  /**
   * Normalising ignores letter case and is idempotent: "high", "HIGH" and
   * "High" all read "High", and a normalised severity normalises to itself.
   */
  lemma NormalizeSeverityCase(s: string)
    ensures NormalizeSeverity(Some(Lower(s))) == NormalizeSeverity(Some(s))
    ensures NormalizeSeverity(Some(Upper(s))) == NormalizeSeverity(Some(s))
    ensures NormalizeSeverity(Some(NormalizeSeverity(Some(s)))) == NormalizeSeverity(Some(s))
    ensures NormalizeSeverity(None) == NormalizeSeverity(Some(""))
  {
    CapitalizeCase(s);
    if s == "" {
      assert NormalizeSeverity(Some(NormalizeSeverity(Some(s)))) == Capitalize("Unknown");
      assert Capitalize("Unknown") == "Unknown";
    }
  }

  /** The standard levels, always part of the severities. */
  const StandardSeverities: seq<string> := ["Critical", "High", "Medium", "Low", "Unknown"]

  /** `trend_data`: the rows with their severities normalised. */
  function TrendData(rows: seq<SeverityRow>): (r: seq<SeverityEntry>)
    ensures |r| == |rows|
  {
    seq(|rows|, k requires 0 <= k < |rows| => SeverityEntry(rows[k].date, NormalizeSeverity(rows[k].severity), rows[k].count))
  }

  /** Builds `trend_data` row by row. */
  method CollectTrendData(rows: seq<SeverityRow>) returns (items: seq<SeverityEntry>)
    ensures items == TrendData(rows)
  {
    items := [];
    for k := 0 to |rows|
      invariant items == TrendData(rows)[..k]
    {
      var row := rows[k];
      items := items + [SeverityEntry(row.date, NormalizeSeverity(row.severity), row.count)];
    }
  }

  /** The non-empty severities of the items, in order: what the loop adds to `all_severities`. */
  function PresentSeverities(items: seq<SeverityEntry>): (r: seq<string>)
    ensures forall x :: x in r <==> x != "" && exists k :: 0 <= k < |items| && items[k].severity == x
  {
    if items == [] then []
    else
      var init := items[..|items| - 1];
      var last := items[|items| - 1];
      var rest := PresentSeverities(init);
      assert forall k :: 0 <= k < |init| ==> init[k] == items[k];
      if last.severity != "" then rest + [last.severity] else rest
  }

  /** `sorted(all_severities)`. */
  function AllSeverities(items: seq<SeverityEntry>): (r: seq<string>)
    ensures Ascending(r) && NoDup(r)
    ensures forall x :: x in r <==> x in StandardSeverities || x in PresentSeverities(items)
  {
    SortedSet(StandardSeverities + PresentSeverities(items))
  }

  /**
   * The severities of the complete trend are the five standard levels and
   * the normalised severity of every row, each once, in ascending order.
   */
  lemma SeveritiesOfRows(rows: seq<SeverityRow>)
    ensures forall x :: x in AllSeverities(TrendData(rows)) <==>
              x in StandardSeverities || exists k :: 0 <= k < |rows| && NormalizeSeverity(rows[k].severity) == x
  {
    var items := TrendData(rows);
    forall x | x in AllSeverities(items) && x !in StandardSeverities
      ensures exists k :: 0 <= k < |rows| && NormalizeSeverity(rows[k].severity) == x
    {
      var k :| 0 <= k < |items| && items[k].severity == x;
      assert NormalizeSeverity(rows[k].severity) == x;
    }
    forall x, k | 0 <= k < |rows| && NormalizeSeverity(rows[k].severity) == x
      ensures x in PresentSeverities(items)
    {
      assert items[k].severity == x;
    }
  }

  /** The loop over `trend_data` that adds each non-empty severity to the standard ones. */
  method CollectSeverities(items: seq<SeverityEntry>) returns (severities: seq<string>)
    ensures severities == AllSeverities(items)
  {
    var all := StandardSeverities;
    for k := 0 to |items|
      invariant all == StandardSeverities + PresentSeverities(items[..k])
    {
      PrefixSnoc(items, k);
      assert items[..k + 1][..k] == items[..k];
      if items[k].severity != "" {
        all := all + [items[k].severity];
      }
    }
    assert items[..|items|] == items;
    severities := SortedSet(all);
  }

  /** `trend_dict`: date, then severity, to count; a later item for the same pair overwrites an earlier one. */
  function SeverityTable(items: seq<SeverityEntry>): map<string, map<string, nat>>
  {
    if items == [] then map[]
    else
      var init := items[..|items| - 1];
      var last := items[|items| - 1];
      var t := SeverityTable(init);
      var inner: map<string, nat> := if last.date in t then t[last.date] else map[];
      t[last.date := inner[last.severity := last.count]]
  }

  /** `trend_dict.get(date, {}).get(severity, 0)`. */
  function TableCount(t: map<string, map<string, nat>>, date: string, severity: string): nat {
    if date in t && severity in t[date] then t[date][severity] else 0
  }

  /** A pair no item carries counts 0. */
  lemma {:induction false} TableCountAbsent(items: seq<SeverityEntry>, date: string, severity: string)
    requires forall k :: 0 <= k < |items| ==> items[k].date != date || items[k].severity != severity
    ensures TableCount(SeverityTable(items), date, severity) == 0
    decreases |items|
  {
    if items != [] {
      var init := items[..|items| - 1];
      assert forall k :: 0 <= k < |init| ==> init[k] == items[k];
      TableCountAbsent(init, date, severity);
    }
  }

  /** A pair counts what the last item carrying it says. */
  lemma {:induction false} TableCountLast(items: seq<SeverityEntry>, i: nat)
    requires i < |items|
    requires forall j :: i < j < |items| ==> items[j].date != items[i].date || items[j].severity != items[i].severity
    ensures TableCount(SeverityTable(items), items[i].date, items[i].severity) == items[i].count
    decreases |items|
  {
    if i < |items| - 1 {
      var init := items[..|items| - 1];
      assert forall j :: i < j < |init| ==> init[j] == items[j];
      TableCountLast(init, i);
    }
  }

  /** One more item updates the entry of its date with its severity and count. */
  lemma SeverityTableSnoc(items: seq<SeverityEntry>, k: nat)
    requires k < |items|
    ensures var t := SeverityTable(items[..k]);
            var inner: map<string, nat> := if items[k].date in t then t[items[k].date] else map[];
            SeverityTable(items[..k + 1]) == t[items[k].date := inner[items[k].severity := items[k].count]]
  {
    assert items[..k + 1][..k] == items[..k];
  }

  /** The loop that fills `trend_dict`. */
  method BuildSeverityTable(items: seq<SeverityEntry>) returns (table: map<string, map<string, nat>>)
    ensures table == SeverityTable(items)
  {
    table := map[];
    for k := 0 to |items|
      invariant table == SeverityTable(items[..k])
    {
      var item := items[k];
      SeverityTableSnoc(items, k);
      ghost var before := table;
      if item.date !in table {
        table := table[item.date := map[]];
      }
      var inner := table[item.date];
      assert inner == if item.date in before then before[item.date] else map[];
      table := table[item.date := inner[item.severity := item.count]];
      assert table == before[item.date := inner[item.severity := item.count]];
    }
    assert items[..|items|] == items;
  }

  /** The entries for one date: every severity in order, with its looked-up count. */
  function DateBlock(t: map<string, map<string, nat>>, severities: seq<string>, date: string): (r: seq<SeverityEntry>)
    ensures |r| == |severities|
  {
    seq(|severities|, j requires 0 <= j < |severities| => SeverityEntry(date, severities[j], TableCount(t, date, severities[j])))
  }

  /** `complete_trend`: for each date in order, an entry per severity in order. */
  function CompleteTrend(t: map<string, map<string, nat>>, dates: seq<string>, severities: seq<string>): seq<SeverityEntry> {
    FlatMap(date => DateBlock(t, severities, date), dates)
  }

  /**
   * The complete trend is the date by severity cross product, date-major:
   * entry `i * |severities| + j` is date `i` with severity `j` and its count.
   */
  lemma CompleteTrendAt(t: map<string, map<string, nat>>, dates: seq<string>, severities: seq<string>, i: nat, j: nat)
    requires i < |dates| && j < |severities|
    ensures |CompleteTrend(t, dates, severities)| == |dates| * |severities|
    ensures i * |severities| + j < |dates| * |severities|
    ensures CompleteTrend(t, dates, severities)[i * |severities| + j]
            == SeverityEntry(dates[i], severities[j], TableCount(t, dates[i], severities[j]))
  {
    FlatMapBlock(date => DateBlock(t, severities, date), dates, |severities|, i, j);
  }

  /** The nested loops that build `complete_trend`. */
  method CrossProduct(table: map<string, map<string, nat>>, dates: seq<string>, severities: seq<string>)
    returns (trend: seq<SeverityEntry>)
    ensures trend == CompleteTrend(table, dates, severities)
  {
    trend := [];
    for i := 0 to |dates|
      invariant trend == CompleteTrend(table, dates[..i], severities)
    {
      var date := dates[i];
      ghost var done := trend;
      for j := 0 to |severities|
        invariant trend == done + DateBlock(table, severities, date)[..j]
      {
        var severity := severities[j];
        var inner: map<string, nat> := if date in table then table[date] else map[];
        var count := if severity in inner then inner[severity] else 0;
        trend := trend + [SeverityEntry(date, severity, count)];
      }
      PrefixSnoc(dates, i);
      FlatMapSnoc(date => DateBlock(table, severities, date), dates[..i], date);
    }
    assert dates[..|dates|] == dates;
  }

  /** The trend by severity for the days `start`..`end` the rows should produce. */
  function SeverityResult(rows: seq<SeverityRow>, start: Date, end: Date): Result<seq<SeverityEntry>, StatsError>
    requires InCalendar(start) && InCalendar(end)
  {
    if WalkOverflows(start, end) then Err(OverflowError)
    else
      var items := TrendData(rows);
      Ok(CompleteTrend(SeverityTable(items), SortedSet(DayLabels(Ordinal(start), Span(start, end))), AllSeverities(items)))
  }

  /**
   * Every day of the range appears in the trend by severity with every
   * standard severity, counted from the last row for that day and
   * severity, or 0 when no row has them.
   */
  lemma SeverityResultCovers(rows: seq<SeverityRow>, start: Date, end: Date, day: nat, severity: string)
    requires InCalendar(start) && InCalendar(end) && !WalkOverflows(start, end)
    requires day < Span(start, end) && severity in StandardSeverities
    ensures var key := DayLabel(Ordinal(start) + day);
            SeverityEntry(key, severity, TableCount(SeverityTable(TrendData(rows)), key, severity))
              in SeverityResult(rows, start, end).value
  {
    var items := TrendData(rows);
    var t := SeverityTable(items);
    var dates := SortedSet(DayLabels(Ordinal(start), Span(start, end)));
    var severities := AllSeverities(items);
    RangeAt(DayLabel, Ordinal(start), Span(start, end), day);
    var key := DayLabel(Ordinal(start) + day);
    assert key in DayLabels(Ordinal(start), Span(start, end));
    var i :| 0 <= i < |dates| && dates[i] == key;
    var j :| 0 <= j < |severities| && severities[j] == severity;
    CompleteTrendHas(t, dates, severities, i, j);
    assert SeverityResult(rows, start, end).value == CompleteTrend(t, dates, severities);
  }

  /** Each date and severity pair has its entry in the complete trend. */
  lemma CompleteTrendHas(t: map<string, map<string, nat>>, dates: seq<string>, severities: seq<string>, i: nat, j: nat)
    requires i < |dates| && j < |severities|
    ensures SeverityEntry(dates[i], severities[j], TableCount(t, dates[i], severities[j])) in CompleteTrend(t, dates, severities)
  {
    CompleteTrendAt(t, dates, severities, i, j);
  }

  /**
   * The body of `get_vulnerability_trend_by_severity` and of
   * `get_incident_trend_by_severity` after the range is normalised, given
   * the rows of the per-day, per-severity query.
   */
  method TrendBySeverity(rows: seq<SeverityRow>, startDt: Option<DateTime>, endDt: Option<DateTime>)
    returns (r: Result<seq<SeverityEntry>, StatsError>)
    requires startDt.Some? ==> ValidDateTime(startDt.value)
    requires endDt.Some? ==> ValidDateTime(endDt.value)
    ensures startDt.None? || endDt.None? ==> r == Ok([])
    ensures startDt.Some? && endDt.Some? ==> r == SeverityResult(rows, startDt.value.date, endDt.value.date)
  {
    if startDt.None? || endDt.None? {
      return Ok([]);
    }
    var items := CollectTrendData(rows);
    var walk := WalkDays(startDt.value.date, endDt.value.date);
    if walk.Err? {
      return Err(walk.error);
    }
    var dates := SortedSet(walk.value);
    var severities := CollectSeverities(items);
    var table := BuildSeverityTable(items);
    var trend := CrossProduct(table, dates, severities);
    return Ok(trend);
  }

  // ---------------------------------------------------------------------
  // AI decision analysis
  // ---------------------------------------------------------------------

  /** A row of the AI-decision query: the stored `is_ai_decision_correct` (None for NULL) and its count (None for NULL). */
  datatype DecisionRow = DecisionRow(decision: Option<string>, count: Option<nat>)

  /** An item of the analysis: a category name and its count. */
  datatype DecisionItem = DecisionItem(name: string, value: nat)

  /** `category_counts`, whose keys are TP, FP, FN and Empty in that order. */
  datatype CategoryCounts = CategoryCounts(tp: nat, fp: nat, fn: nat, empty: nat)

  /** The analysis: the items and `total_decisions`. */
  datatype DecisionAnalysis = DecisionAnalysis(data: seq<DecisionItem>, totalDecisions: nat)

  /** The four categories a row can fall in. */
  datatype Category = TpCategory | FpCategory | FnCategory | EmptyCategory

  /** `int(row.count or 0)`. */
  function RowCount(row: DecisionRow): nat {
    if row.count.Some? then row.count.value else 0
  }

  /** TP and TT are the correct calls; anything but TP, TT, FP or FN, NULL included, is Empty. */
  function CategoryOf(decision: Option<string>): (c: Category)
    ensures c == TpCategory <==> decision == Some("TP") || decision == Some("TT")
    ensures c == EmptyCategory <==> decision !in {Some("TP"), Some("TT"), Some("FP"), Some("FN")}
  {
    if decision == Some("TP") || decision == Some("TT") then TpCategory
    else if decision == Some("FP") then FpCategory
    else if decision == Some("FN") then FnCategory
    else EmptyCategory
  }

  /** The count of one category. */
  function CountOf(c: CategoryCounts, category: Category): nat {
    match category
    case TpCategory => c.tp
    case FpCategory => c.fp
    case FnCategory => c.fn
    case EmptyCategory => c.empty
  }

  /** The counts with one category set to `n`. */
  function WithCount(c: CategoryCounts, category: Category, n: nat): (r: CategoryCounts)
    ensures CountOf(r, category) == n
    ensures forall other :: other != category ==> CountOf(r, other) == CountOf(c, other)
  {
    match category
    case TpCategory => c.(tp := n)
    case FpCategory => c.(fp := n)
    case FnCategory => c.(fn := n)
    case EmptyCategory => c.(empty := n)
  }

  /**
   * The loop over the rows as written: a TP/TT, FP or FN row sets its
   * category to its count, replacing what an earlier row put there; any
   * other row adds its count to Empty.
   */
  function CountsAsWritten(rows: seq<DecisionRow>): CategoryCounts {
    if rows == [] then CategoryCounts(0, 0, 0, 0)
    else
      var c := CountsAsWritten(rows[..|rows| - 1]);
      var row := rows[|rows| - 1];
      var category := CategoryOf(row.decision);
      WithCount(c, category, if category == EmptyCategory then c.empty + RowCount(row) else RowCount(row))
  }

  /**
   * The result list: Empty last, always, and before it the categories TP,
   * FP and FN in that order, each exactly when its count is above 0, each
   * item with the count of the category it names.
   */
  function DecisionItems(c: CategoryCounts): (items: seq<DecisionItem>)
    ensures |items| >= 1 && items[|items| - 1] == DecisionItem("Empty", c.empty)
    ensures forall k :: 0 <= k < |items| - 1 ==> items[k].value > 0
    ensures forall k :: 0 <= k < |items| ==> items[k].value == CountOf(c, NamedCategory(items[k].name))
    ensures |items| == 1 + (if c.tp > 0 then 1 else 0) + (if c.fp > 0 then 1 else 0) + (if c.fn > 0 then 1 else 0)
    ensures c.tp > 0 ==> items[0] == DecisionItem("TP", c.tp)
  {
    (if c.tp > 0 then [DecisionItem("TP", c.tp)] else [])
    + (if c.fp > 0 then [DecisionItem("FP", c.fp)] else [])
    + (if c.fn > 0 then [DecisionItem("FN", c.fn)] else [])
    + [DecisionItem("Empty", c.empty)]
  }

  /** `sum(item['value'] for item in stats)`. */
  function ItemsTotal(items: seq<DecisionItem>): nat {
    if items == [] then 0 else ItemsTotal(items[..|items| - 1]) + items[|items| - 1].value
  }

  lemma {:induction false} ItemsTotalAppend(a: seq<DecisionItem>, b: seq<DecisionItem>)
    ensures ItemsTotal(a + b) == ItemsTotal(a) + ItemsTotal(b)
    decreases |b|
  {
    if b == [] {
      assert a + b == a;
    } else {
      ItemsTotalAppend(a, b[..|b| - 1]);
      assert (a + b)[..|a + b| - 1] == a + b[..|b| - 1];
    }
  }

  /** The total is the sum of the four counts. */
  lemma DecisionItemsTotal(c: CategoryCounts)
    ensures ItemsTotal(DecisionItems(c)) == c.tp + c.fp + c.fn + c.empty
  {
    var tp := if c.tp > 0 then [DecisionItem("TP", c.tp)] else [];
    var fp := if c.fp > 0 then [DecisionItem("FP", c.fp)] else [];
    var fn := if c.fn > 0 then [DecisionItem("FN", c.fn)] else [];
    var empty := [DecisionItem("Empty", c.empty)];
    ItemsTotalAppend(tp, fp);
    ItemsTotalAppend(tp + fp, fn);
    ItemsTotalAppend(tp + fp + fn, empty);
  }

  /** The category an item name stands for. */
  function NamedCategory(name: string): Category {
    if name == "TP" then TpCategory else if name == "FP" then FpCategory else if name == "FN" then FnCategory else EmptyCategory
  }

  /**
   * The loop over the rows that fills `category_counts`, with every row
   * adding its count to its category (see `CountsAsWritten` for the loop as
   * it stands, which overwrites).
   */
  method FoldDecisions(rows: seq<DecisionRow>) returns (counts: CategoryCounts)
    ensures counts == CountsAdded(rows)
  {
    var tp: nat, fp: nat, fn: nat, empty: nat := 0, 0, 0, 0;
    for k := 0 to |rows|
      invariant CategoryCounts(tp, fp, fn, empty) == CountsAdded(rows[..k])
    {
      var row := rows[k];
      PrefixSnoc(rows, k);
      assert rows[..k + 1][..k] == rows[..k];
      var count := if row.count.Some? then row.count.value else 0;
      if row.decision == Some("TP") || row.decision == Some("TT") {
        tp := tp + count;
      } else if row.decision == Some("FP") {
        fp := fp + count;
      } else if row.decision == Some("FN") {
        fn := fn + count;
      } else {
        empty := empty + count;
      }
    }
    assert rows[..|rows|] == rows;
    counts := CategoryCounts(tp, fp, fn, empty);
  }

  /** `sum(item['value'] for item in stats)`, item by item. */
  method SumValues(stats: seq<DecisionItem>) returns (total: nat)
    ensures total == ItemsTotal(stats)
  {
    total := 0;
    for k := 0 to |stats|
      invariant total == ItemsTotal(stats[..k])
    {
      PrefixSnoc(stats, k);
      assert stats[..k + 1][..k] == stats[..k];
      total := total + stats[k].value;
    }
    assert stats[..|stats|] == stats;
  }

  /**
   * `get_ai_decision_analysis` after its query, given the rows grouped by
   * `is_ai_decision_correct`: ValueError without both ends of the range;
   * otherwise the items of the added counts, and `total_decisions` is the
   * number of alerts the query counted.
   */
  method AiDecisionAnalysis(startDt: Option<DateTime>, endDt: Option<DateTime>, rows: seq<DecisionRow>)
    returns (r: Result<DecisionAnalysis, StatsError>)
    ensures RequireRange(startDt, endDt).Some? ==> r == Err(RequireRange(startDt, endDt).value)
    ensures RequireRange(startDt, endDt).None? ==>
              r == Ok(DecisionAnalysis(DecisionItems(CountsAdded(rows)), RowsTotal(rows)))
  {
    var guard := RequireRange(startDt, endDt);
    if guard.Some? {
      return Err(guard.value);
    }
    var counts := FoldDecisions(rows);
    var stats: seq<DecisionItem> := [];
    if counts.tp > 0 {
      stats := stats + [DecisionItem("TP", counts.tp)];
    }
    if counts.fp > 0 {
      stats := stats + [DecisionItem("FP", counts.fp)];
    }
    if counts.fn > 0 {
      stats := stats + [DecisionItem("FN", counts.fn)];
    }
    stats := stats + [DecisionItem("Empty", counts.empty)];
    assert stats == DecisionItems(counts);
    var total := SumValues(stats);
    CountsAddedTotal(rows);
    return Ok(DecisionAnalysis(stats, total));
  }

  /** The counts of every row, category by category: `sum(row.count)` over the query. */
  function RowsTotal(rows: seq<DecisionRow>): nat {
    if rows == [] then 0 else RowsTotal(rows[..|rows| - 1]) + RowCount(rows[|rows| - 1])
  }

  /**
   * A TT row and a TP row both land in TP, and the later one overwrites the
   * earlier: with 3 TT and 2 TP alerts the analysis reports TP 2 and a
   * total of 2 for 5 alerts.
   */
  lemma AsWrittenLosesTp()
    ensures var rows := [DecisionRow(Some("TT"), Some(3)), DecisionRow(Some("TP"), Some(2))];
            CountsAsWritten(rows).tp == 2 && RowsTotal(rows) == 5
            && ItemsTotal(DecisionItems(CountsAsWritten(rows))) == 2
  {
    var rows := [DecisionRow(Some("TT"), Some(3)), DecisionRow(Some("TP"), Some(2))];
    assert rows[..1] == [rows[0]];
    assert rows[..1][..0] == [];
    DecisionItemsTotal(CountsAsWritten(rows));
  }

  /** The loop as intended: every row adds its count to its category. */
  function CountsAdded(rows: seq<DecisionRow>): CategoryCounts {
    if rows == [] then CategoryCounts(0, 0, 0, 0)
    else
      var c := CountsAdded(rows[..|rows| - 1]);
      var row := rows[|rows| - 1];
      var category := CategoryOf(row.decision);
      WithCount(c, category, CountOf(c, category) + RowCount(row))
  }

  /** With counts added, `total_decisions` is the number of alerts the query counted, whatever the rows. */
  lemma {:induction false} CountsAddedTotal(rows: seq<DecisionRow>)
    ensures ItemsTotal(DecisionItems(CountsAdded(rows))) == RowsTotal(rows)
    decreases |rows|
  {
    DecisionItemsTotal(CountsAdded(rows));
    if rows != [] {
      CountsAddedTotal(rows[..|rows| - 1]);
      DecisionItemsTotal(CountsAdded(rows[..|rows| - 1]));
    }
  }

  /**
   * The code as written agrees with the intended sum when no two rows share
   * a category other than Empty, which the grouped query guarantees unless
   * both TP and TT occur.
   */
  lemma {:induction false} AsWrittenWhenDistinct(rows: seq<DecisionRow>)
    requires forall i, j :: 0 <= i < j < |rows| && CategoryOf(rows[i].decision) == CategoryOf(rows[j].decision) ==>
               CategoryOf(rows[i].decision) == EmptyCategory
    ensures CountsAsWritten(rows) == CountsAdded(rows)
    decreases |rows|
  {
    if rows != [] {
      var init := rows[..|rows| - 1];
      var category := CategoryOf(rows[|rows| - 1].decision);
      assert forall i :: 0 <= i < |init| ==> init[i] == rows[i];
      AsWrittenWhenDistinct(init);
      if category != EmptyCategory {
        CategoryAbsent(init, category);
      }
    }
  }

  /** A category no row falls in counts 0. */
  lemma {:induction false} CategoryAbsent(rows: seq<DecisionRow>, category: Category)
    requires forall i :: 0 <= i < |rows| ==> CategoryOf(rows[i].decision) != category
    ensures CountOf(CountsAdded(rows), category) == 0
    decreases |rows|
  {
    if rows != [] {
      var init := rows[..|rows| - 1];
      assert forall i :: 0 <= i < |init| ==> init[i] == rows[i];
      CategoryAbsent(init, category);
    }
  }
}
