/**
 * The mock alert endpoints of `api/views/mock_alert_view.py`, which serve
 * the console from an in-memory list of alerts: the filtered and paged
 * list, batch close, reopen, create and update.
 */
module MockAlerts {
  import opened Wrappers
  import opened Text
  import opened Values
  import opened Seqs
  import opened MockRecords

  /**
   * One mock alert. The keys the views read or write are fields;
   * `description` is absent from the fixtures until an update sets it, and
   * the keys no view changes after creation (`aiAnalysis`, `timeline`,
   * `comments`) are kept together in `details`.
   */
  datatype Alert = Alert(
    id: int,
    createTime: Value,
    title: Value,
    riskLevel: Value,
    status: Value,
    owner: Value,
    severity: Value,
    ruleName: Value,
    timestamp: Value,
    description: Option<Value>,
    associatedEntities: Value,
    details: Entries)

  function Ids(alerts: seq<Alert>): (ids: seq<int>)
    ensures |ids| == |alerts| && forall k :: 0 <= k < |alerts| ==> ids[k] == alerts[k].id
  {
    seq(|alerts|, k requires 0 <= k < |alerts| => alerts[k].id)
  }

  // ---- The list view ----

  /** Why a list request answers 500: a page number `int()` rejects, or `lower()` on a non-string. */
  datatype ListFailure = BadNumber(param: string) | NotAString(v: Value)

  /**
   * The search keywords: a string is split on commas, each part trimmed and
   * blanks dropped; a list is taken as it is; anything else gives none.
   */
  function SearchKeywords(search: Value): (kws: seq<Value>)
    ensures !PyTruthy(search) ==> kws == []
    ensures search.Str? ==> forall k :: 0 <= k < |kws| ==> kws[k].Str? && kws[k].s != "" && IsStripped(kws[k].s)
    ensures search.List? ==> kws == search.items
    ensures !search.Str? && !search.List? ==> kws == []
  {
    if !PyTruthy(search) then []
    else if search.Str? then
      var parts := TrimmedStrings(Strs(Split(search.s, ',')));
      Strs(parts)
    else if search.List? then search.items
    else []
  }

  /** `keyword.lower() in title.lower()`, both strings. */
  predicate KeywordIn(kw: Value, title: Value) {
    kw.Str? && title.Str? && Contains(Lower(title.s), Lower(kw.s))
  }

  /** Every keyword is in the title. */
  predicate HoldsAll(keywords: seq<Value>, title: Value) {
    forall k :: 0 <= k < |keywords| ==> KeywordIn(keywords[k], title)
  }

  /**
   * `all(keyword.lower() in title.lower() for keyword in keywords)`: it stops
   * at the first keyword missing from the title, and raises on the first
   * non-string it reaches.
   */
  function TitleMatches(title: Value, keywords: seq<Value>): (r: Result<bool, ListFailure>)
    ensures r == Ok(true) <==> HoldsAll(keywords, title)
    ensures r.Err? ==> exists k :: 0 <= k < |keywords| && !(keywords[k].Str? && title.Str?)
  {
    if keywords == [] then Ok(true)
    else
      var kw := keywords[0];
      if !kw.Str? then Err(NotAString(kw))
      else if !title.Str? then Err(NotAString(title))
      else if !Contains(Lower(title.s), Lower(kw.s)) then Ok(false)
      else
        var rest := TitleMatches(title, keywords[1..]);
        assert forall k :: 1 <= k < |keywords| ==> keywords[1..][k - 1] == keywords[k];
        rest
  }

  /** The alerts whose title holds every keyword, in order; the first alert that raises fails the request. */
  function KeywordFilter(alerts: seq<Alert>, keywords: seq<Value>): (r: Result<seq<Alert>, ListFailure>)
    ensures r.Ok? ==> |r.value| <= |alerts|
    ensures r.Ok? ==> forall a :: a in r.value ==> a in alerts && HoldsAll(keywords, a.title)
    ensures r.Ok? ==> forall a :: a in alerts && HoldsAll(keywords, a.title) ==> a in r.value
  {
    if alerts == [] then Ok([])
    else
      var last := alerts[|alerts| - 1];
      var init := KeywordFilter(alerts[..|alerts| - 1], keywords);
      if init.Err? then init
      else
        var m := TitleMatches(last.title, keywords);
        if m.Err? then Err(m.error)
        else
          assert alerts == alerts[..|alerts| - 1] + [last];
          Ok(init.value + if m.value then [last] else [])
  }

  /** `[alert for alert in alerts if alert['status'] == status]`. */
  function StatusFilter(alerts: seq<Alert>, status: Value): (r: seq<Alert>)
    ensures |r| <= |alerts|
    ensures forall a :: a in r <==> a in alerts && a.status == status
  {
    if alerts == [] then []
    else
      var last := alerts[|alerts| - 1];
      assert alerts == alerts[..|alerts| - 1] + [last];
      StatusFilter(alerts[..|alerts| - 1], status) + if last.status == status then [last] else []
  }

  /** Whether the status filter applies: a truthy status other than "all". */
  predicate FiltersStatus(status: Value) {
    PyTruthy(status) && status != Str("all")
  }

  /** The list answer: one page of the filtered alerts, with the filtered count. */
  datatype ListPage = ListPage(data: seq<Alert>, total: nat, page: int, pageSize: int)

  /** Whether both filters keep an alert: every keyword is in its title and, when filtered, its status matches. */
  predicate Selected(a: Alert, search: Value, status: Value) {
    && (FiltersStatus(status) ==> a.status == status)
    && HoldsAll(SearchKeywords(search), a.title)
  }

  /** The alerts both filters keep, before paging. */
  function Filtered(alerts: seq<Alert>, search: Value, status: Value): (r: Result<seq<Alert>, ListFailure>)
    ensures r.Ok? ==> forall a :: a in r.value ==> Selected(a, search, status) && a in alerts
    ensures r.Ok? ==> forall a :: a in alerts && Selected(a, search, status) ==> a in r.value
  {
    FilterBy(alerts, SearchKeywords(search), status)
  }

  /** The two filters with the keywords already read from the request. */
  function FilterBy(alerts: seq<Alert>, keywords: seq<Value>, status: Value): (r: Result<seq<Alert>, ListFailure>)
    ensures r.Ok? ==> forall a :: a in r.value ==> (FiltersStatus(status) ==> a.status == status) && HoldsAll(keywords, a.title) && a in alerts
    ensures r.Ok? ==> forall a :: a in alerts && (FiltersStatus(status) ==> a.status == status) && HoldsAll(keywords, a.title) ==> a in r.value
  {
    var byKeyword := if |keywords| > 0 then KeywordFilter(alerts, keywords) else Ok(alerts);
    if byKeyword.Err? then byKeyword
    else if FiltersStatus(status) then Ok(StatusFilter(byKeyword.value, status))
    else byKeyword
  }

  /** The status filter keeps order: one more alert at the end is appended exactly when its status matches. */
  lemma StatusFilterSnoc(alerts: seq<Alert>, a: Alert, status: Value)
    ensures StatusFilter(alerts + [a], status) == StatusFilter(alerts, status) + if a.status == status then [a] else []
  {
    assert (alerts + [a])[..|alerts|] == alerts;
  }

  /** The keyword filter keeps order: one more alert at the end is appended exactly when its title holds every keyword. */
  lemma KeywordFilterSnoc(alerts: seq<Alert>, a: Alert, keywords: seq<Value>)
    requires KeywordFilter(alerts + [a], keywords).Ok?
    ensures KeywordFilter(alerts, keywords).Ok?
    ensures KeywordFilter(alerts + [a], keywords).value
            == KeywordFilter(alerts, keywords).value
               + if HoldsAll(keywords, a.title) then [a] else []
  {
    assert (alerts + [a])[..|alerts|] == alerts;
  }

  /**
   * Both filters keep order and duplicates: with one more alert at the end,
   * the earlier answer is a prefix and the new alert follows it exactly when
   * both filters keep it.
   */
  lemma FilteredSnoc(alerts: seq<Alert>, a: Alert, search: Value, status: Value)
    requires Filtered(alerts + [a], search, status).Ok?
    ensures Filtered(alerts, search, status).Ok?
    ensures Filtered(alerts + [a], search, status).value
            == Filtered(alerts, search, status).value + if Selected(a, search, status) then [a] else []
  {
    FilterBySnoc(alerts, a, SearchKeywords(search), status);
  }

  lemma FilterBySnoc(alerts: seq<Alert>, a: Alert, keywords: seq<Value>, status: Value)
    requires FilterBy(alerts + [a], keywords, status).Ok?
    ensures FilterBy(alerts, keywords, status).Ok?
    ensures FilterBy(alerts + [a], keywords, status).value
            == FilterBy(alerts, keywords, status).value
               + if (FiltersStatus(status) ==> a.status == status) && HoldsAll(keywords, a.title) then [a] else []
  {
    var kept := HoldsAll(keywords, a.title);
    var before: seq<Alert>;
    if |keywords| > 0 {
      KeywordFilterSnoc(alerts, a, keywords);
      before := KeywordFilter(alerts, keywords).value;
    } else {
      before := alerts;
      assert kept;
    }
    var grown := if kept then before + [a] else before;
    if |keywords| > 0 {
      assert KeywordFilter(alerts + [a], keywords).Ok?;
      assert KeywordFilter(alerts + [a], keywords).value == grown;
      assert KeywordFilter(alerts + [a], keywords) == Ok(grown);
    } else {
      assert grown == alerts + [a];
    }
    if FiltersStatus(status) {
      StatusFilterSnoc(before, a, status);
      assert FilterBy(alerts + [a], keywords, status) == Ok(StatusFilter(grown, status));
      assert FilterBy(alerts, keywords, status) == Ok(StatusFilter(before, status));
    } else {
      assert FilterBy(alerts + [a], keywords, status) == Ok(grown);
      assert FilterBy(alerts, keywords, status) == Ok(before);
    }
  }

  /** The `searchKeywords` parameter, "" when absent. */
  function SearchParam(params: Entries): Value {
    GetOr(params, "searchKeywords", Str(""))
  }

  /** The `status` parameter, "all" when absent. */
  function StatusParam(params: Entries): Value {
    GetOr(params, "status", Str("all"))
  }

  /** `_handle_request` on the request's parameters: page and size are read first, then the alerts filtered and sliced. */
  function ListAlerts(alerts: seq<Alert>, params: Entries): (r: Result<ListPage, ListFailure>)
    ensures r.Ok? ==> Filtered(alerts, SearchParam(params), StatusParam(params)).Ok?
    ensures r.Ok? ==> var filtered := Filtered(alerts, SearchParam(params), StatusParam(params)).value;
            && r.value.total == |filtered|
            && r.value.data == Page(filtered, r.value.page, r.value.pageSize)
  {
    var page := PyInt(GetOr(params, "page", Int(1)));
    var pageSize := PyInt(GetOr(params, "pageSize", Int(10)));
    if page.None? then Err(BadNumber("page"))
    else if pageSize.None? then Err(BadNumber("pageSize"))
    else
      var filtered := Filtered(alerts, SearchParam(params), StatusParam(params));
      if filtered.Err? then Err(filtered.error)
      else
        Ok(ListPage(Page(filtered.value, page.value, pageSize.value), |filtered.value|, page.value, pageSize.value))
  }

  /** `filtered_alerts[start:start + page_size]` with `start = (page - 1) * page_size`. */
  function Page(filtered: seq<Alert>, page: int, size: int): seq<Alert> {
    var start := (page - 1) * size;
    Slice(filtered, start, start + size)
  }

  /** A page from 1 on is the stretch of the filtered list from `(page-1)*size`, cut at its end. */
  lemma PageContents(filtered: seq<Alert>, page: int, size: int)
    requires page >= 1 && size >= 0
    ensures var lo := if (page - 1) * size < |filtered| then (page - 1) * size else |filtered|;
            var hi := if page * size < |filtered| then page * size else |filtered|;
            Page(filtered, page, size) == filtered[lo..hi]
  {
    assert (page - 1) * size >= 0 && page * size == (page - 1) * size + size;
  }

  /** Consecutive pages follow on from each other: together they are the stretch of both. */
  lemma PagesAdjacent(filtered: seq<Alert>, page: int, size: int)
    requires page >= 1 && size >= 0
    ensures Page(filtered, page, size) + Page(filtered, page + 1, size)
            == Slice(filtered, (page - 1) * size, (page + 1) * size)
  {
    assert (page - 1) * size >= 0 && page * size == (page - 1) * size + size && (page + 1) * size == page * size + size;
  }

  // ---- Changes to the list ----

  /** Whether some requested id finds the alert at position `j`. */
  predicate Targeted(alerts: seq<Alert>, requested: seq<Value>, j: nat) {
    exists v :: v in requested && FirstWithId(Ids(alerts), v) == Some(j)
  }

  function Closed(a: Alert): Alert {
    a.(status := Str("closed"))
  }

  /** The list after a batch close: each alert a requested id finds is closed, every other alert kept. */
  function CloseAll(alerts: seq<Alert>, requested: seq<Value>): (r: seq<Alert>)
    ensures |r| == |alerts| && Ids(r) == Ids(alerts)
    ensures forall j :: 0 <= j < |alerts| ==> r[j] == if Targeted(alerts, requested, j) then Closed(alerts[j]) else alerts[j]
  {
    var r := seq(|alerts|, j requires 0 <= j < |alerts| => if Targeted(alerts, requested, j) then Closed(alerts[j]) else alerts[j]);
    assert Ids(r) == Ids(alerts);
    r
  }

  /** With unique ids, an alert is targeted exactly when its id was requested. */
  lemma TargetedUnique(alerts: seq<Alert>, requested: seq<Value>, j: nat)
    requires UniqueIds(Ids(alerts)) && j < |alerts|
    ensures Targeted(alerts, requested, j) <==> exists v :: v in requested && IdIs(alerts[j].id, v)
  {
    if exists v :: v in requested && IdIs(alerts[j].id, v) {
      var v :| v in requested && IdIs(alerts[j].id, v);
      FirstWithUnique(Ids(alerts), v, j);
    }
  }

  /** With unique ids, batch close closes exactly the alerts whose id was requested. */
  lemma CloseAllUnique(alerts: seq<Alert>, requested: seq<Value>, j: nat)
    requires UniqueIds(Ids(alerts)) && j < |alerts|
    ensures CloseAll(alerts, requested)[j].status == Str("closed") <==>
            alerts[j].status == Str("closed") || exists v :: v in requested && IdIs(alerts[j].id, v)
  {
    TargetedUnique(alerts, requested, j);
  }

  /** The first alert with id `v`, or the position where none is. */
  function WithId(alerts: seq<Alert>, id: int): Option<nat> {
    FirstWithId(Ids(alerts), Int(id))
  }

  /** The answer to an update: the updated alert, or why it failed. */
  datatype UpdateFailure = AlertNotFound | NoIsoformat(timestamp: Value)

  /** The answer to a create: the new alert, or why it failed. */
  datatype CreateFailure = NotIsoformattable(timestamp: Value)

  /** A `timestamp` of a request: kept when a string, otherwise `isoformat()` raises on a JSON value. */
  function TimestampOf(ts: Value): Result<Value, Value> {
    if ts.Str? then Ok(ts) else Err(ts)
  }

  /** The alert `MockCreateAlertView.post` builds, given the clock's ISO time and formatted time. */
  function NewAlert(alerts: seq<Alert>, data: Entries, nowIso: string, createTime: string): (r: Result<Alert, CreateFailure>)
    ensures r.Ok? ==> r.value.id !in Ids(alerts) && forall a :: a in alerts ==> a.id < r.value.id
    ensures r.Ok? ==> r.value.severity == r.value.riskLevel == GetOr(data, "riskLevel", Str("medium"))
    ensures r.Ok? ==> r.value.status == GetOr(data, "status", Str("open")) && r.value.title == GetOr(data, "title", Str(""))
    ensures r.Ok? ==> r.value.timestamp.Str?
    ensures r.Err? <==> PyTruthy(Get(data, "timestamp")) && !Get(data, "timestamp").Str?
  {
    var raw := Get(data, "timestamp");
    var ts := if !PyTruthy(raw) then Ok(Str(nowIso + " UTC")) else TimestampOf(raw);
    if ts.Err? then Err(NotIsoformattable(ts.error))
    else
      var id := NextId(Ids(alerts), 0);
      assert forall a :: a in alerts ==> a.id in Ids(alerts);
      Ok(Alert(
        id,
        Str(createTime),
        GetOr(data, "title", Str("")),
        GetOr(data, "riskLevel", Str("medium")),
        GetOr(data, "status", Str("open")),
        GetOr(data, "owner", Str("")),
        GetOr(data, "riskLevel", Str("medium")),
        GetOr(data, "ruleName", Str("Manual Alert")),
        ts.value,
        Some(GetOr(data, "description", Str(""))),
        List([]),
        [("aiAnalysis", Null),
         ("timeline", List([Dict([("time", ts.value), ("event", Str("Alert Created"))])])),
         ("comments", List([]))]))
  }

  /**
   * The alert after the assignments of `MockUpdateAlertView.put` before the
   * timestamp: each key the request holds is assigned, `riskLevel` to both
   * `riskLevel` and `severity`.
   */
  function Patched(a: Alert, data: Entries): (r: Alert)
    ensures r.id == a.id && r.createTime == a.createTime && r.timestamp == a.timestamp
    ensures r.associatedEntities == a.associatedEntities && r.details == a.details
    ensures HasKey(data, "riskLevel") ==> r.severity == r.riskLevel == Lookup(data, "riskLevel").value
    ensures !HasKey(data, "riskLevel") ==> r.severity == a.severity && r.riskLevel == a.riskLevel
    ensures r.title == if HasKey(data, "title") then Lookup(data, "title").value else a.title
    ensures r.status == if HasKey(data, "status") then Lookup(data, "status").value else a.status
    ensures r.owner == if HasKey(data, "owner") then Lookup(data, "owner").value else a.owner
    ensures r.ruleName == if HasKey(data, "ruleName") then Lookup(data, "ruleName").value else a.ruleName
    ensures r.description == if HasKey(data, "description") then Some(Lookup(data, "description").value) else a.description
  {
    a.(title := Patch(data, "title", a.title),
       riskLevel := Patch(data, "riskLevel", a.riskLevel),
       severity := Patch(data, "riskLevel", a.severity),
       status := Patch(data, "status", a.status),
       owner := Patch(data, "owner", a.owner),
       description := if HasKey(data, "description") then Some(Lookup(data, "description").value) else a.description,
       ruleName := Patch(data, "ruleName", a.ruleName))
  }

  /**
   * The answer and the list after an update of the alert with id `alertId`.
   * A non-string timestamp raises after the other keys were assigned, so
   * the list keeps those assignments.
   */
  function UpdateOutcome(alerts: seq<Alert>, alertId: int, data: Entries): (r: (Result<Alert, UpdateFailure>, seq<Alert>))
    ensures |r.1| == |alerts| && Ids(r.1) == Ids(alerts)
    ensures WithId(alerts, alertId).None? <==> r.0 == Err(AlertNotFound)
    ensures WithId(alerts, alertId).None? ==> r.1 == alerts
    ensures WithId(alerts, alertId).Some? ==>
      var i := WithId(alerts, alertId).value;
      && r.1 == alerts[i := r.1[i]]
      && r.1[i] == Patched(alerts[i], data).(timestamp := r.1[i].timestamp)
      && (r.0.Ok? ==> r.0.value == r.1[i])
  {
    var found := WithId(alerts, alertId);
    if found.None? then (Err(AlertNotFound), alerts)
    else
      var i := found.value;
      var patched := Patched(alerts[i], data);
      if !HasKey(data, "timestamp") then
        assert Ids(alerts[i := patched]) == Ids(alerts);
        (Ok(patched), alerts[i := patched])
      else
        var ts := Lookup(data, "timestamp").value;
        if ts.Str? then
          var a := patched.(timestamp := ts);
          assert Ids(alerts[i := a]) == Ids(alerts);
          (Ok(a), alerts[i := a])
        else
          assert Ids(alerts[i := patched]) == Ids(alerts);
          (Err(NoIsoformat(ts)), alerts[i := patched])
  }

  /** The list the mock alert views share, `mock_alerts`. */
  class MockAlertStore {
    var alerts: seq<Alert>

    /** The list starts as a copy of the fixture alerts. */
    constructor Seeded(fixture: seq<Alert>)
      ensures alerts == fixture
    {
      alerts := fixture;
    }

    /** `next((a for a in mock_alerts if a['id'] == v), None)`. */
    method FindAlert(v: Value) returns (found: Option<nat>)
      ensures found == FirstWithId(Ids(alerts), v)
    {
      var ids := Ids(alerts);
      var k := 0;
      while k < |ids|
        invariant 0 <= k <= |ids|
        invariant FirstWithId(ids, v) == FirstFrom(ids, v, k)
      {
        if IdIs(ids[k], v) {
          return Some(k);
        }
        k := k + 1;
      }
      return None;
    }

    /** `MockBatchCloseAlertsView.post`: closes the alert each requested id finds and counts the finds. */
    method BatchClose(requested: seq<Value>) returns (closedCount: nat)
      modifies this
      ensures alerts == CloseAll(old(alerts), requested)
      ensures closedCount == MatchCount(Ids(old(alerts)), requested)
    {
      closedCount := 0;
      for k := 0 to |requested|
        invariant alerts == CloseAll(old(alerts), requested[..k])
        invariant closedCount == MatchCount(Ids(old(alerts)), requested[..k])
      {
        var done, v := requested[..k], requested[k];
        assert requested[..k + 1] == done + [v];
        MatchCountSnoc(Ids(old(alerts)), done, v);
        var found := FindAlert(v);
        if found.Some? {
          CloseStep(old(alerts), done, v, found.value);
          alerts := alerts[found.value := Closed(alerts[found.value])];
          closedCount := closedCount + 1;
        } else {
          CloseStepMissing(old(alerts), done, v);
        }
      }
      assert requested[..|requested|] == requested;
    }

    /** `MockOpenAlertView.post`: sets the alert's status to "open", or answers 404. */
    method OpenAlert(alertId: int) returns (status: nat)
      modifies this
      ensures WithId(old(alerts), alertId).Some? ==>
        && status == 200
        && var i := WithId(old(alerts), alertId).value;
           alerts == old(alerts)[i := old(alerts)[i].(status := Str("open"))]
      ensures WithId(old(alerts), alertId).None? ==> status == 404 && alerts == old(alerts)
    {
      var found := FindAlert(Int(alertId));
      if found.None? {
        return 404;
      }
      alerts := alerts[found.value := alerts[found.value].(status := Str("open"))];
      return 200;
    }

    /** `MockCreateAlertView.post`: builds the alert and puts it first. */
    method CreateAlert(data: Entries, nowIso: string, createTime: string) returns (r: Result<Alert, CreateFailure>)
      modifies this
      ensures r == NewAlert(old(alerts), data, nowIso, createTime)
      ensures r.Ok? ==> alerts == [r.value] + old(alerts)
      ensures r.Err? ==> alerts == old(alerts)
    {
      r := NewAlert(alerts, data, nowIso, createTime);
      if r.Ok? {
        alerts := [r.value] + alerts;
      }
    }

    /** `MockUpdateAlertView.put`. */
    method UpdateAlert(alertId: int, data: Entries) returns (r: Result<Alert, UpdateFailure>)
      modifies this
      ensures r == UpdateOutcome(old(alerts), alertId, data).0
      ensures alerts == UpdateOutcome(old(alerts), alertId, data).1
    {
      var found := FindAlert(Int(alertId));
      assert found == WithId(alerts, alertId);
      if found.None? {
        return Err(AlertNotFound);
      }
      var i := found.value;
      var a := Patched(alerts[i], data);
      alerts := alerts[i := a];
      if HasKey(data, "timestamp") {
        var ts := Lookup(data, "timestamp").value;
        if !ts.Str? {
          return Err(NoIsoformat(ts));
        }
        a := a.(timestamp := ts);
        alerts := alerts[i := a];
      }
      return Ok(a);
    }
  }

  /** One step of batch close when the requested id finds the alert at `i`. */
  lemma CloseStep(alerts: seq<Alert>, done: seq<Value>, v: Value, i: nat)
    requires FirstWithId(Ids(CloseAll(alerts, done)), v) == Some(i)
    ensures i < |alerts|
    ensures CloseAll(alerts, done + [v]) == CloseAll(alerts, done)[i := Closed(CloseAll(alerts, done)[i])]
  {
    var before := CloseAll(alerts, done);
    var after := CloseAll(alerts, done + [v]);
    forall j | 0 <= j < |alerts|
      ensures after[j] == before[i := Closed(before[i])][j]
    {
      if j == i {
        assert v in done + [v];
      } else if Targeted(alerts, done + [v], j) {
        var w :| w in done + [v] && FirstWithId(Ids(alerts), w) == Some(j);
        assert w != v;
      }
    }
  }

  /** One step of batch close when the requested id finds no alert. */
  lemma CloseStepMissing(alerts: seq<Alert>, done: seq<Value>, v: Value)
    requires FirstWithId(Ids(CloseAll(alerts, done)), v).None?
    ensures CloseAll(alerts, done + [v]) == CloseAll(alerts, done)
  {
    var before := CloseAll(alerts, done);
    var after := CloseAll(alerts, done + [v]);
    forall j | 0 <= j < |alerts|
      ensures after[j] == before[j]
    {
      if Targeted(alerts, done + [v], j) {
        var w :| w in done + [v] && FirstWithId(Ids(alerts), w) == Some(j);
        assert w != v;
      }
    }
  }
}
