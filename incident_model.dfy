/**
 * The local incident table of `api/models/incident.py`: how a SecMaster
 * incident payload is normalised into a row (`_build_incident_entity`) and
 * how `upsert_incident` keeps at most one row per incident id.
 */
module IncidentModel {
  import opened Wrappers
  import opened Text
  import opened Values
  import opened JsonStrings

  /** The three enum columns and the values their database types accept. */
  const SeverityChoices: set<string> := {"TIPS", "LOW", "MEDIUM", "HIGH", "FATAL"}
  const HandleStatusChoices: set<string> := {"Open", "Block", "Closed"}
  const CloseReasonChoices: set<string> := {"False positive", "Resolved", "Repeated", "Other"}

  /** Why building or storing a row raises. */
  datatype IncidentError =
    | MissingId        // ValueError: the payload has no truthy "id"
    | Unhashable       // TypeError: a list or dict looked up among an enum's choices
    | NonStringLabel   // TypeError: `",".join` over a label that is not a string

  /** One row of `t_incidents`; every column is kept as the value the payload gave it. */
  datatype Incident = Incident(
    incidentId: Value,
    createTime: Value,
    lastUpdateTime: Value,
    closeTime: Value,
    arriveTime: Value,
    title: Value,
    description: Value,
    severity: Value,
    handleStatus: Value,
    owner: Value,
    creator: Value,
    responsiblePerson: Value,
    responsibleDept: Value,
    closeReason: Value,
    closeComment: Value,
    labels: Value,
    rootCause: Value,
    category: Value,
    ttd: Value,
    isAutoClosed: Value,
    extendProperties: Value)

  /**
   * `v if v in choices else fallback`: a list or dict cannot be looked up in
   * a set and raises; any other value outside the choices is replaced.
   */
  function EnumOr(v: Value, choices: set<string>, fallback: Value): (r: Result<Value, IncidentError>)
    ensures r.Err? <==> v.List? || v.Dict?
    ensures r.Err? ==> r.error == Unhashable
    ensures r.Ok? && v.Str? && v.s in choices ==> r.value == v
    ensures r.Ok? && !(v.Str? && v.s in choices) ==> r.value == fallback
  {
    if v.List? || v.Dict? then Err(Unhashable)
    else if v.Str? && v.s in choices then Ok(v)
    else Ok(fallback)
  }

  /**
   * Description and extend_properties: a dict or list is stored as its JSON
   * text, written by `json.dumps` with its default `ensure_ascii`, so the
   * text is printable ASCII.
   */
  function JsonText(v: Value): (r: Value)
    ensures v.List? || v.Dict? ==> r == Str(JsonDumps(v, true))
    ensures v.List? || v.Dict? ==> Printable(r.s)
    ensures !v.List? && !v.Dict? ==> r == v
  {
    if v.List? || v.Dict? then
      JsonDumpsWritten(v, true);
      Str(JsonDumps(v, true))
    else v
  }

  /** A non-ASCII character in a stored list becomes a `\uXXXX` escape. */
  lemma JsonTextEscapesNonAscii()
    ensures JsonText(List([Str("\U{E9}")])) == Str("[\"\\u00e9\"]")
  {
    EscapeLatinSmallEAcute();
    JsonDumpsSingleton(Str("\U{E9}"), true);
  }

  /** The strings of a list, when every item is a string. */
  function LabelStrings(items: seq<Value>): (r: Option<seq<string>>)
    ensures r.Some? <==> forall k :: 0 <= k < |items| ==> items[k].Str?
    ensures r.Some? ==> |r.value| == |items| && forall k :: 0 <= k < |items| ==> r.value[k] == items[k].s
  {
    if items == [] then Some([])
    else if !items[|items| - 1].Str? then None
    else
      var init := LabelStrings(items[..|items| - 1]);
      if init.None? then None else Some(init.value + [items[|items| - 1].s])
  }

  /** Labels: a list is comma-joined (an empty list is NULL), and "-" is NULL. */
  function NormalizeLabels(v: Value): (r: Result<Value, IncidentError>)
    ensures v == List([]) || v == Str("-") ==> r == Ok(Null)
    ensures r.Err? <==> v.List? && exists k :: 0 <= k < |v.items| && !v.items[k].Str?
    ensures r.Err? ==> r.error == NonStringLabel
    ensures v.List? && v.items != [] && r.Ok? ==> r.value.Str? && |r.value.s| >= |v.items| - 1
    ensures !v.List? && v != Str("-") ==> r == Ok(v)
  {
    if v.List? then
      if v.items == [] then Ok(Null)
      else
        var strs := LabelStrings(v.items);
        if strs.None? then Err(NonStringLabel)
        else
          JoinLength(strs.value);
          Ok(Str(Join(",", strs.value)))
    else if v == Str("-") then Ok(Null)
    else Ok(v)
  }

  /** Joining `n` parts with a one-character separator writes at least `n - 1` separators. */
  lemma {:induction false} JoinLength(parts: seq<string>)
    ensures |Join(",", parts)| >= |parts| - 1
    decreases |parts|
  {
    if |parts| > 1 {
      JoinLength(parts[1..]);
    }
  }

  /** A list of plain strings is stored as their comma-joined text. */
  lemma {:induction false} LabelsOfStrings(labels: seq<string>)
    requires labels != []
    ensures NormalizeLabels(List(Strs(labels))) == Ok(Str(Join(",", labels)))
  {
    var items := Strs(labels);
    assert LabelStrings(items).Some?;
    assert LabelStrings(items).value == labels;
  }

  /** Joined labels split back into the same strings when none holds a comma. */
  lemma {:induction false} LabelsRoundTrip(labels: seq<string>)
    requires labels != []
    requires forall k :: 0 <= k < |labels| ==> ',' !in labels[k]
    ensures Split(Join(",", labels), ',') == labels
    decreases |labels|
  {
    if |labels| > 1 {
      LabelsRoundTrip(labels[1..]);
      assert Join(",", labels) == labels[0] + [','] + Join(",", labels[1..]);
      SplitAtFirst(labels[0], Join(",", labels[1..]), ',');
      assert labels == [labels[0]] + labels[1..];
    }
  }

  /** `_build_incident_entity(payload)`, or the exception it raises. */
  function BuildIncidentEntity(payload: Entries): (r: Result<Incident, IncidentError>)
    ensures r.Ok? ==> r.value.incidentId == Get(payload, "id")
    ensures r.Ok? ==> r.value.severity.Str? && r.value.severity.s in SeverityChoices
    ensures r.Ok? ==> r.value.handleStatus.Str? && r.value.handleStatus.s in HandleStatusChoices
    ensures r.Ok? ==> r.value.closeReason == Null || (r.value.closeReason.Str? && r.value.closeReason.s in CloseReasonChoices)
    ensures r.Ok? ==> r.value.closeTime != Str("-")
    ensures r.Ok? ==> !r.value.description.List? && !r.value.description.Dict?
    ensures r.Ok? ==> r.value.ttd == Null || r.value.ttd.Str?
    ensures r.Ok? ==> (r.value.isAutoClosed == Null <==> Get(payload, "is_auto_closed") == Null)
  {
    var severity := EnumOr(GetOr(payload, "severity", Str("MEDIUM")), SeverityChoices, Str("MEDIUM"));
    var handleStatus := EnumOr(GetOr(payload, "handle_status", Str("Open")), HandleStatusChoices, Str("Open"));
    var closeReason := EnumOr(Get(payload, "close_reason"), CloseReasonChoices, Null);
    var labels := NormalizeLabels(Get(payload, "labels"));
    if severity.Err? then Err(severity.error)
    else if handleStatus.Err? then Err(handleStatus.error)
    else if closeReason.Err? then Err(closeReason.error)
    else if labels.Err? then Err(labels.error)
    else
      var closeTime := Get(payload, "close_time");
      var ttd := Get(payload, "ttd");
      var autoClosed := Get(payload, "is_auto_closed");
      Ok(Incident(
        incidentId := Get(payload, "id"),
        createTime := Get(payload, "create_time"),
        lastUpdateTime := Get(payload, "update_time"),
        closeTime := if closeTime != Str("-") then closeTime else Null,
        arriveTime := Get(payload, "arrive_time"),
        title := Get(payload, "title"),
        description := JsonText(Get(payload, "description")),
        severity := severity.value,
        handleStatus := handleStatus.value,
        owner := Get(payload, "owner"),
        creator := Get(payload, "creator"),
        responsiblePerson := Get(payload, "responsible_person"),
        responsibleDept := Get(payload, "responsible_dept"),
        closeReason := closeReason.value,
        closeComment := Get(payload, "close_comment"),
        labels := labels.value,
        rootCause := Get(payload, "root_cause"),
        category := Get(payload, "category"),
        ttd := if PyTruthy(ttd) then Str(Render(ttd)) else Null,
        isAutoClosed := if autoClosed != Null then Str(Render(autoClosed)) else Null,
        extendProperties := JsonText(Get(payload, "extend_properties"))))
  }

  /**
   * The enum defaults: a severity or status the column does not accept
   * (including a missing one) is stored as MEDIUM / Open, an unknown close
   * reason as NULL, and an accepted one unchanged.
   */
  lemma EnumDefaults(payload: Entries)
    requires BuildIncidentEntity(payload).Ok?
    ensures var e := BuildIncidentEntity(payload).value;
            var severity := GetOr(payload, "severity", Str("MEDIUM"));
            var status := GetOr(payload, "handle_status", Str("Open"));
            var reason := Get(payload, "close_reason");
            && e.severity == (if severity.Str? && severity.s in SeverityChoices then severity else Str("MEDIUM"))
            && e.handleStatus == (if status.Str? && status.s in HandleStatusChoices then status else Str("Open"))
            && e.closeReason == (if reason.Str? && reason.s in CloseReasonChoices then reason else Null)
  {
    var e := BuildIncidentEntity(payload).value;
    var severity := EnumOr(GetOr(payload, "severity", Str("MEDIUM")), SeverityChoices, Str("MEDIUM"));
    var status := EnumOr(GetOr(payload, "handle_status", Str("Open")), HandleStatusChoices, Str("Open"));
    var reason := EnumOr(Get(payload, "close_reason"), CloseReasonChoices, Null);
    assert severity.Ok? && status.Ok? && reason.Ok?;
    assert e.severity == severity.value && e.handleStatus == status.value && e.closeReason == reason.value;
  }

  /** The row stored for a payload carries exactly its rendered ttd and is_auto_closed. */
  lemma RenderedFields(payload: Entries)
    requires BuildIncidentEntity(payload).Ok?
    ensures var e := BuildIncidentEntity(payload).value;
            var ttd := Get(payload, "ttd");
            var autoClosed := Get(payload, "is_auto_closed");
            && (PyTruthy(ttd) ==> e.ttd == Str(Render(ttd)))
            && (!PyTruthy(ttd) ==> e.ttd == Null)
            && (autoClosed != Null ==> e.isAutoClosed == Str(Render(autoClosed)))
            && (Get(payload, "close_time") == Str("-") ==> e.closeTime == Null)
  {
  }

  /** Building fails exactly on a list or dict enum value or a list label that is not a string. */
  lemma BuildErrors(payload: Entries)
    ensures var severity := GetOr(payload, "severity", Str("MEDIUM"));
            var status := GetOr(payload, "handle_status", Str("Open"));
            var reason := Get(payload, "close_reason");
            var labels := Get(payload, "labels");
            BuildIncidentEntity(payload).Err? <==>
              severity.List? || severity.Dict? || status.List? || status.Dict?
              || reason.List? || reason.Dict?
              || (labels.List? && exists k :: 0 <= k < |labels.items| && !labels.items[k].Str?)
  {
  }

  /** No two rows share an incident id. */
  predicate UniqueIds(rows: seq<Incident>) {
    forall i, j :: 0 <= i < j < |rows| ==> rows[i].incidentId != rows[j].incidentId
  }

  /** The first row with the given id: the row `filter_by(...).first()` returns. */
  function FirstRow(rows: seq<Incident>, id: Value): (r: Option<nat>)
    ensures r.Some? ==> r.value < |rows| && rows[r.value].incidentId == id
    ensures r.Some? ==> forall k :: 0 <= k < r.value ==> rows[k].incidentId != id
    ensures r.None? ==> forall k :: 0 <= k < |rows| ==> rows[k].incidentId != id
  {
    if rows == [] then None
    else if rows[0].incidentId == id then Some(0)
    else
      var rest := FirstRow(rows[1..], id);
      if rest.None? then None else Some(rest.value + 1)
  }

  /** The table after storing `e`: the row with its id is overwritten, or `e` is added. */
  function UpsertRows(rows: seq<Incident>, e: Incident): seq<Incident> {
    match FirstRow(rows, e.incidentId)
    case Some(i) => rows[i := e]
    case None => rows + [e]
  }

  /** Storing a row keeps ids unique, leaves exactly one row with its id, and keeps every other row. */
  lemma UpsertKeyed(rows: seq<Incident>, e: Incident)
    requires UniqueIds(rows)
    ensures var after := UpsertRows(rows, e);
            && UniqueIds(after)
            && e in after
            && (forall k :: 0 <= k < |after| && after[k].incidentId == e.incidentId ==> after[k] == e)
            && (forall r :: r in rows && r.incidentId != e.incidentId ==> r in after)
            && (forall r :: r in after ==> r == e || r in rows)
            && |after| == |rows| + (if FirstRow(rows, e.incidentId).Some? then 0 else 1)
  {
    var after := UpsertRows(rows, e);
    match FirstRow(rows, e.incidentId)
    case Some(i) =>
      assert after[i] == e;
      forall r | r in rows && r.incidentId != e.incidentId
        ensures r in after
      {
        var k :| 0 <= k < |rows| && rows[k] == r;
        assert after[k] == r;
      }
      forall r | r in after
        ensures r == e || r in rows
      {
        var k :| 0 <= k < |after| && after[k] == r;
        if k != i {
          assert rows[k] == r;
        }
      }
    case None =>
  }

  /** Storing the same payload twice leaves the table as storing it once. */
  lemma UpsertIdempotent(rows: seq<Incident>, e: Incident)
    ensures UpsertRows(UpsertRows(rows, e), e) == UpsertRows(rows, e)
  {
    var once := UpsertRows(rows, e);
    match FirstRow(rows, e.incidentId)
    case Some(i) =>
      assert FirstRow(once, e.incidentId) == Some(i) by { FirstRowSame(rows, once, e.incidentId, i); }
    case None =>
      assert FirstRow(once, e.incidentId) == Some(|rows|) by { FirstRowSame(rows, once, e.incidentId, |rows|); }
  }

  /** Two tables that agree before `i` and both hold the id at `i` find it at `i`. */
  lemma {:induction false} FirstRowSame(rows: seq<Incident>, other: seq<Incident>, id: Value, i: nat)
    requires i < |other| && other[i].incidentId == id
    requires i <= |rows| && forall k :: 0 <= k < i ==> other[k] == rows[k] && rows[k].incidentId != id
    ensures FirstRow(other, id) == Some(i)
    decreases i
  {
    if i > 0 {
      FirstRowSame(rows[1..], other[1..], id, i - 1);
    }
  }

  /** The `t_incidents` table as the model keeps it: its rows in insertion order. */
  class IncidentTable {
    var rows: seq<Incident>

    constructor Empty()
      ensures rows == []
    {
      rows := [];
    }

    /** `session.query(Incident).filter_by(incident_id=id).first()`, as a position in the table. */
    method FindRow(id: Value) returns (found: Option<nat>)
      ensures found == FirstRow(rows, id)
    {
      found := None;
      var k := 0;
      while k < |rows|
        invariant 0 <= k <= |rows|
        invariant forall j :: 0 <= j < k ==> rows[j].incidentId != id
      {
        if rows[k].incidentId == id {
          FirstRowSame(rows, rows, id, k);
          return Some(k);
        }
        k := k + 1;
      }
    }

    /**
     * `upsert_incident(payload)`: refuses a payload without an id, builds the
     * row, then overwrites the row with the same id or adds it; on any error
     * the session is rolled back and the table is unchanged.
     */
    method Upsert(payload: Entries) returns (r: Result<Incident, IncidentError>)
      modifies this
      ensures !PyTruthy(Get(payload, "id")) ==> r == Err(MissingId)
      ensures PyTruthy(Get(payload, "id")) ==> r == BuildIncidentEntity(payload)
      ensures r.Err? ==> rows == old(rows)
      ensures r.Ok? ==> rows == UpsertRows(old(rows), r.value)
    {
      var id := Get(payload, "id");
      if !PyTruthy(id) {
        return Err(MissingId);
      }
      var found := FindRow(id);
      r := BuildIncidentEntity(payload);
      if r.Err? {
        return;
      }
      if found.Some? {
        rows := rows[found.value := r.value];
      } else {
        rows := rows + [r.value];
      }
    }
  }
}
