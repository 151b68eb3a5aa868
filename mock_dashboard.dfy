/**
 * The dashboard's recent-item endpoints of `api/views/mock_dashboard_view.py`:
 * the first open alerts and open vulnerabilities of the fixtures, shaped
 * for the dashboard, or a fixed default list when too few are found.
 */
module MockDashboard {
  import opened Wrappers
  import opened Values
  import opened Seqs

  /** The fields of a fixture alert the dashboard reads. */
  datatype SourceAlert = SourceAlert(id: int, severity: Value, title: Value, createTime: Value, status: Value, associatedEntities: seq<Entries>)

  /** One row of recent open alerts. */
  datatype AlertRow = AlertRow(id: int, severity: Value, name: Value, timestamp: Value, sourceIp: Value, status: Value)

  /** `int(params.get('limit', 3))`, or None where `int()` raises. */
  function LimitOf(params: Entries): Option<int> {
    PyInt(GetOr(params, "limit", Int(3)))
  }

  /** The name of the first entity whose type is "ip", or "N/A". */
  function SourceIp(entities: seq<Entries>): (ip: Value)
    ensures (forall k :: 0 <= k < |entities| ==> Get(entities[k], "type") != Str("ip")) ==> ip == Str("N/A")
    ensures (exists k :: 0 <= k < |entities| && Get(entities[k], "type") == Str("ip")) ==>
      exists k :: 0 <= k < |entities| && Get(entities[k], "type") == Str("ip") && ip == Get(entities[k], "name")
        && forall j :: 0 <= j < k ==> Get(entities[j], "type") != Str("ip")
  {
    if entities == [] then Str("N/A")
    else if Get(entities[0], "type") == Str("ip") then Get(entities[0], "name")
    else
      var rest := SourceIp(entities[1..]);
      assert forall k :: 1 <= k < |entities| ==> entities[1..][k - 1] == entities[k];
      rest
  }

  function AlertRowOf(a: SourceAlert): AlertRow {
    AlertRow(a.id, a.severity, a.title, a.createTime, SourceIp(a.associatedEntities), a.status)
  }

  /** `[alert for alert in MOCK_ALERTS if alert['status'] != 'closed']`. */
  function OpenAlerts(alerts: seq<SourceAlert>): (r: seq<SourceAlert>)
    ensures |r| <= |alerts|
    ensures forall a :: a in r <==> a in alerts && a.status != Str("closed")
  {
    if alerts == [] then []
    else
      var last := alerts[|alerts| - 1];
      assert alerts == alerts[..|alerts| - 1] + [last];
      OpenAlerts(alerts[..|alerts| - 1]) + if last.status != Str("closed") then [last] else []
  }

  function AlertRows(alerts: seq<SourceAlert>): (rows: seq<AlertRow>)
    ensures |rows| == |alerts| && forall k :: 0 <= k < |alerts| ==> rows[k] == AlertRowOf(alerts[k])
  {
    seq(|alerts|, k requires 0 <= k < |alerts| => AlertRowOf(alerts[k]))
  }

  /** The rows answered when too few open alerts are found. */
  const DefaultAlertRows: seq<AlertRow> := [
    AlertRow(1, Str("critical"), Str("Potential Ransomware Activity Detected"), Str("2024-05-27 10:45:12"), Str("198.51.100.23"), Str("new")),
    AlertRow(2, Str("high"), Str("Multiple Failed Login Attempts"), Str("2024-05-27 10:42:55"), Str("203.0.113.10"), Str("inProgress")),
    AlertRow(3, Str("medium"), Str("Anomalous Network Traffic to C2 Server"), Str("2024-05-27 10:39:01"), Str("10.1.1.54"), Str("new"))]

  /** The answer's body: the rows and their number. */
  datatype Listing<T> = Listing(data: seq<T>, total: nat)

  /**
   * `MockRecentOpenAlertsView.get`: the rows of the first `limit` open
   * alerts (a Python slice, so a negative limit drops from the end), or the
   * first `limit` default rows when fewer than `limit` are found.
   */
  function RecentOpenAlerts(alerts: seq<SourceAlert>, params: Entries): (r: Option<Listing<AlertRow>>)
    ensures r.None? <==> LimitOf(params).None?
    ensures r.Some? ==> r.value.total == |r.value.data|
    ensures r.Some? && LimitOf(params).value >= 0 ==> |r.value.data| <= LimitOf(params).value
  {
    var limit := LimitOf(params);
    if limit.None? then None
    else
      var rows := AlertRows(Slice(OpenAlerts(alerts), 0, limit.value));
      var data := if |rows| < limit.value then Slice(DefaultAlertRows, 0, limit.value) else rows;
      Some(Listing(data, |data|))
  }

  /**
   * With enough open alerts the answer is their rows in source order;
   * otherwise it is the default rows, never a mix.
   */
  lemma RecentOpenAlertsChoice(alerts: seq<SourceAlert>, limit: nat)
    ensures var r := RecentOpenAlerts(alerts, [("limit", Int(limit))]).value.data;
            var open := OpenAlerts(alerts);
            && (|open| >= limit ==> r == AlertRows(open[..limit]))
            && (|open| < limit ==> r == Take(DefaultAlertRows, limit))
  {
    assert LimitOf([("limit", Int(limit))]) == Some(limit as int);
  }

  /** Every row of open alerts comes from an alert that is not closed. */
  lemma RecentOpenAlertsOpen(alerts: seq<SourceAlert>, limit: nat, k: nat)
    requires var open := OpenAlerts(alerts); |open| >= limit && k < limit
    ensures var row := RecentOpenAlerts(alerts, [("limit", Int(limit))]).value.data[k];
            exists a :: a in alerts && a.status != Str("closed") && row == AlertRowOf(a)
  {
    RecentOpenAlertsChoice(alerts, limit);
    var open := OpenAlerts(alerts);
    assert open[k] in open;
  }

  /** The fields of a fixture vulnerability the dashboard reads. */
  datatype SourceVulnerability = SourceVulnerability(id: int, name: Value, riskLevel: Value, affectedAsset: Value, firstDiscoveryTime: Value, status: Value)

  /** One row of recent open vulnerabilities; the CVSS score is kept in tenths. */
  datatype VulnerabilityRow = VulnerabilityRow(id: int, cvssTenths: nat, cvssLevel: Value, name: Value, affectedAsset: Value, discoveryTime: Value)

  /** The CVSS score shown for a risk level, in tenths: 9.8 critical, 8.8 high, 6.5 otherwise. */
  function CvssTenths(riskLevel: Value): (c: nat)
    ensures riskLevel == Str("critical") <==> c == 98
    ensures riskLevel == Str("high") <==> c == 88
    ensures riskLevel != Str("critical") && riskLevel != Str("high") <==> c == 65
  {
    if riskLevel == Str("critical") then 98 else if riskLevel == Str("high") then 88 else 65
  }

  /** `firstDiscoveryTime + " 00:00:00"`, which raises unless the date is a string. */
  function VulnerabilityRowOf(v: SourceVulnerability): (r: Option<VulnerabilityRow>)
    ensures r.Some? <==> v.firstDiscoveryTime.Str?
    ensures r.Some? ==> r.value.discoveryTime == Str(v.firstDiscoveryTime.s + " 00:00:00")
    ensures r.Some? ==> r.value.cvssTenths == CvssTenths(v.riskLevel) && r.value.cvssLevel == v.riskLevel
  {
    if !v.firstDiscoveryTime.Str? then None
    else Some(VulnerabilityRow(v.id, CvssTenths(v.riskLevel), v.riskLevel, v.name, v.affectedAsset,
                               Str(v.firstDiscoveryTime.s + " 00:00:00")))
  }

  /** Whether a vulnerability is still open: its status is neither "fixed" nor "ignored". */
  predicate IsOpen(v: SourceVulnerability) {
    v.status != Str("fixed") && v.status != Str("ignored")
  }

  function OpenVulnerabilities(vulns: seq<SourceVulnerability>): (r: seq<SourceVulnerability>)
    ensures |r| <= |vulns|
    ensures forall v :: v in r <==> v in vulns && IsOpen(v)
  {
    if vulns == [] then []
    else
      var last := vulns[|vulns| - 1];
      assert vulns == vulns[..|vulns| - 1] + [last];
      OpenVulnerabilities(vulns[..|vulns| - 1]) + if IsOpen(last) then [last] else []
  }

  /** Whether every vulnerability's discovery date is a string. */
  predicate AllDated(vulns: seq<SourceVulnerability>) {
    forall k :: 0 <= k < |vulns| ==> vulns[k].firstDiscoveryTime.Str?
  }

  /** The rows of the vulnerabilities, in order; the first one without a string date fails them all. */
  function VulnerabilityRows(vulns: seq<SourceVulnerability>): (r: Option<seq<VulnerabilityRow>>)
    ensures r.Some? <==> AllDated(vulns)
    ensures r.Some? ==> |r.value| == |vulns| && forall k :: 0 <= k < |vulns| ==> Some(r.value[k]) == VulnerabilityRowOf(vulns[k])
  {
    if vulns == [] then Some([])
    else
      var init := VulnerabilityRows(vulns[..|vulns| - 1]);
      var last := VulnerabilityRowOf(vulns[|vulns| - 1]);
      if init.None? || last.None? then None else Some(init.value + [last.value])
  }

  /** The rows answered when too few open vulnerabilities are found. */
  const DefaultVulnerabilityRows: seq<VulnerabilityRow> := [
    VulnerabilityRow(1, 98, Str("critical"), Str("CVE-2024-1086: Linux Kernel Double Free"), Str("linux-db-server-01"), Str("2024-05-27 08:12:30")),
    VulnerabilityRow(2, 88, Str("high"), Str("CVE-2023-38408: OpenSSH Remote Code Execution"), Str("jump-host-2"), Str("2024-05-26 15:45:00")),
    VulnerabilityRow(3, 65, Str("medium"), Str("CVE-2024-21626: runC Process Escape"), Str("k8s-node-03"), Str("2024-05-26 11:20:15"))]

  /** `MockRecentOpenVulnerabilitiesView.get`, shaped like the recent open alerts. */
  function RecentOpenVulnerabilities(vulns: seq<SourceVulnerability>, params: Entries): (r: Option<Listing<VulnerabilityRow>>)
    ensures LimitOf(params).None? ==> r.None?
    ensures LimitOf(params).Some? ==>
              var picked := Slice(OpenVulnerabilities(vulns), 0, LimitOf(params).value);
              (r.None? <==> !AllDated(picked))
    ensures r.Some? ==> LimitOf(params).Some? && r.value.total == |r.value.data|
    ensures r.Some? && LimitOf(params).value >= 0 ==> |r.value.data| <= LimitOf(params).value
    ensures r.Some? ==> forall row :: row in r.value.data && row !in DefaultVulnerabilityRows ==>
      exists v :: v in vulns && IsOpen(v) && VulnerabilityRowOf(v) == Some(row)
  {
    var limit := LimitOf(params);
    if limit.None? then None
    else
      var picked := Slice(OpenVulnerabilities(vulns), 0, limit.value);
      var rows := VulnerabilityRows(picked);
      if rows.None? then
        None
      else
        var data := if |rows.value| < limit.value then Slice(DefaultVulnerabilityRows, 0, limit.value) else rows.value;
        assert forall row :: row in rows.value ==> exists k :: 0 <= k < |picked| && VulnerabilityRowOf(picked[k]) == Some(row);
        assert forall k :: 0 <= k < |picked| ==> picked[k] in OpenVulnerabilities(vulns);
        Some(Listing(data, |data|))
  }

  /**
   * With enough open vulnerabilities the answer is the rows of the first
   * `limit` of them in source order; otherwise it is the default rows, never
   * a mix. The view fails exactly when a picked vulnerability's date is not
   * a string.
   */
  lemma RecentOpenVulnerabilitiesChoice(vulns: seq<SourceVulnerability>, limit: nat)
    ensures var r := RecentOpenVulnerabilities(vulns, [("limit", Int(limit))]);
            var open := OpenVulnerabilities(vulns);
            var picked := Take(open, limit);
            && (r.Some? <==> AllDated(picked))
            && (r.Some? && |open| >= limit ==> r.value.data == VulnerabilityRows(open[..limit]).value)
            && (r.Some? && |open| < limit ==> r.value.data == Take(DefaultVulnerabilityRows, limit))
  {
    var params := [("limit", Int(limit))];
    assert LimitOf(params) == Some(limit as int);
    var open := OpenVulnerabilities(vulns);
    var picked := Slice(open, 0, limit);
    assert picked == Take(open, limit);
    var rows := VulnerabilityRows(picked);
    if rows.Some? {
      assert |rows.value| == |picked|;
      assert RecentOpenVulnerabilities(vulns, params).value.data
             == if |picked| < limit then Slice(DefaultVulnerabilityRows, 0, limit) else rows.value;
    }
  }
}
