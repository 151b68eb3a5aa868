/**
 * The mock incident endpoints of `api/views/mock_incident_view.py`, which
 * change an in-memory list of incidents: batch close, create and update.
 */
module MockIncidents {
  import opened Wrappers
  import opened Values
  import opened MockRecords

  /**
   * One mock incident. The fixtures carry the first nine keys; an update
   * adds the optional ones.
   */
  datatype Incident = Incident(
    id: int,
    severity: Value,
    name: Value,
    responsibleDepartment: Value,
    rootCause: Value,
    occurrenceTime: Value,
    status: Value,
    fullName: Value,
    eventId: Value,
    category: Option<Value>,
    responsiblePerson: Option<Value>,
    description: Option<Value>,
    createTime: Option<Value>,
    updateTime: Option<Value>,
    affectedAssets: Option<Value>)

  function Ids(incidents: seq<Incident>): (ids: seq<int>)
    ensures |ids| == |incidents| && forall k :: 0 <= k < |incidents| ==> ids[k] == incidents[k].id
  {
    seq(|incidents|, k requires 0 <= k < |incidents| => incidents[k].id)
  }

  /** The id a created incident starts after when the list is empty. */
  const FirstIdBase := 73500

  /** Whether some requested id finds the incident at position `j`. */
  predicate Targeted(incidents: seq<Incident>, requested: seq<Value>, j: nat) {
    exists v :: v in requested && FirstWithId(Ids(incidents), v) == Some(j)
  }

  function Closed(i: Incident): Incident {
    i.(status := Str("closed"))
  }

  /** The list after a batch close: each incident a requested id finds is closed, every other kept. */
  function CloseAll(incidents: seq<Incident>, requested: seq<Value>): (r: seq<Incident>)
    ensures |r| == |incidents| && Ids(r) == Ids(incidents)
    ensures forall j :: 0 <= j < |incidents| ==> r[j] == if Targeted(incidents, requested, j) then Closed(incidents[j]) else incidents[j]
  {
    var r := seq(|incidents|, j requires 0 <= j < |incidents| => if Targeted(incidents, requested, j) then Closed(incidents[j]) else incidents[j]);
    assert Ids(r) == Ids(incidents);
    r
  }

  /** With unique ids, an incident is targeted exactly when its id was requested. */
  lemma TargetedUnique(incidents: seq<Incident>, requested: seq<Value>, j: nat)
    requires UniqueIds(Ids(incidents)) && j < |incidents|
    ensures Targeted(incidents, requested, j) <==> exists v :: v in requested && IdIs(incidents[j].id, v)
  {
    if exists v :: v in requested && IdIs(incidents[j].id, v) {
      var v :| v in requested && IdIs(incidents[j].id, v);
      FirstWithUnique(Ids(incidents), v, j);
    }
  }

  /** One step of batch close when the requested id finds the incident at `i`. */
  lemma CloseStep(incidents: seq<Incident>, done: seq<Value>, v: Value, i: nat)
    requires FirstWithId(Ids(CloseAll(incidents, done)), v) == Some(i)
    ensures i < |incidents|
    ensures CloseAll(incidents, done + [v]) == CloseAll(incidents, done)[i := Closed(CloseAll(incidents, done)[i])]
  {
    var before := CloseAll(incidents, done);
    var after := CloseAll(incidents, done + [v]);
    forall j | 0 <= j < |incidents|
      ensures after[j] == before[i := Closed(before[i])][j]
    {
      if j == i {
        assert v in done + [v];
      } else if Targeted(incidents, done + [v], j) {
        var w :| w in done + [v] && FirstWithId(Ids(incidents), w) == Some(j);
        assert w != v;
      }
    }
  }

  /** One step of batch close when the requested id finds no incident. */
  lemma CloseStepMissing(incidents: seq<Incident>, done: seq<Value>, v: Value)
    requires FirstWithId(Ids(CloseAll(incidents, done)), v).None?
    ensures CloseAll(incidents, done + [v]) == CloseAll(incidents, done)
  {
    var before := CloseAll(incidents, done);
    var after := CloseAll(incidents, done + [v]);
    forall j | 0 <= j < |incidents|
      ensures after[j] == before[j]
    {
      if Targeted(incidents, done + [v], j) {
        var w :| w in done + [v] && FirstWithId(Ids(incidents), w) == Some(j);
        assert w != v;
      }
    }
  }

  /** The incident `MockCreateIncidentView.post` builds, given the clock's formatted time. */
  function NewIncident(incidents: seq<Incident>, data: Entries, now: string): (r: Incident)
    ensures r.id !in Ids(incidents) && forall i :: i in incidents ==> i.id < r.id
    ensures incidents == [] ==> r.id == FirstIdBase + 1
    ensures r.eventId == Int(r.id)
    ensures r.name == r.fullName == GetOr(data, "title", Str(""))
    ensures r.occurrenceTime == GetOr(data, "occurrenceTime", Str(now))
  {
    var id := NextId(Ids(incidents), FirstIdBase);
    assert forall i :: i in incidents ==> i.id in Ids(incidents);
    Incident(
      id,
      GetOr(data, "severity", Str("medium")),
      GetOr(data, "title", Str("")),
      GetOr(data, "responsibleDepartment", Str("-")),
      GetOr(data, "rootCause", Str("-")),
      GetOr(data, "occurrenceTime", Str(now)),
      GetOr(data, "status", Str("open")),
      GetOr(data, "title", Str("")),
      Int(id),
      None, None, None, None, None, None)
  }

  /** `d[key] = data[key]` if the request holds `key`, for a key the incident may lack. */
  function PatchOptional(data: Entries, key: string, current: Option<Value>): (r: Option<Value>)
    ensures HasKey(data, key) ==> r == Lookup(data, key)
    ensures !HasKey(data, key) ==> r == current
  {
    if HasKey(data, key) then Lookup(data, key) else current
  }

  /** Python `d.get(key, default)` on a key the incident may lack. */
  function OrDefault(v: Option<Value>, default: Value): Value {
    if v.Some? then v.value else default
  }

  /**
   * The incident after `MockUpdateIncidentView.put`, at the clock's ISO time
   * `now`: each key the request holds is assigned (`title` to both `name` and
   * `fullName`); `createTime` is otherwise kept when truthy, else taken from
   * `occurrenceTime`; `updateTime` becomes `now`; `affectedAssets` becomes
   * the request's value or 4.
   */
  function Updated(i: Incident, data: Entries, now: string): (r: Incident)
    ensures r.id == i.id && r.eventId == i.eventId && r.severity == i.severity
    ensures HasKey(data, "title") ==> r.name == r.fullName == Lookup(data, "title").value
    ensures !HasKey(data, "title") ==> r.name == i.name && r.fullName == i.fullName
    ensures r.status == if HasKey(data, "status") then Lookup(data, "status").value else i.status
    ensures r.category == if HasKey(data, "category") then Some(Lookup(data, "category").value) else i.category
    ensures r.responsibleDepartment == if HasKey(data, "responsibleDepartment") then Lookup(data, "responsibleDepartment").value else i.responsibleDepartment
    ensures r.responsiblePerson == if HasKey(data, "responsiblePerson") then Some(Lookup(data, "responsiblePerson").value) else i.responsiblePerson
    ensures r.rootCause == if HasKey(data, "rootCause") then Lookup(data, "rootCause").value else i.rootCause
    ensures r.occurrenceTime == if HasKey(data, "occurrenceTime") then Lookup(data, "occurrenceTime").value else i.occurrenceTime
    ensures r.description == if HasKey(data, "description") then Some(Lookup(data, "description").value) else i.description
    ensures HasKey(data, "createTime") ==> r.createTime == Lookup(data, "createTime")
    ensures !HasKey(data, "createTime") && i.createTime.Some? && PyTruthy(i.createTime.value) ==> r.createTime == i.createTime
    ensures !HasKey(data, "createTime") && !(i.createTime.Some? && PyTruthy(i.createTime.value)) ==> r.createTime == Some(r.occurrenceTime)
    ensures r.updateTime == Some(Str(now))
    ensures r.affectedAssets == Some(GetOr(data, "affectedAssets", Int(4)))
  {
    var title := if HasKey(data, "title") then Lookup(data, "title").value else i.name;
    var patched := i.(
      name := title,
      fullName := if HasKey(data, "title") then title else i.fullName,
      status := Patch(data, "status", i.status),
      category := PatchOptional(data, "category", i.category),
      responsibleDepartment := Patch(data, "responsibleDepartment", i.responsibleDepartment),
      responsiblePerson := PatchOptional(data, "responsiblePerson", i.responsiblePerson),
      rootCause := Patch(data, "rootCause", i.rootCause),
      occurrenceTime := Patch(data, "occurrenceTime", i.occurrenceTime),
      description := PatchOptional(data, "description", i.description));
    var createTime :=
      if HasKey(data, "createTime") then Lookup(data, "createTime")
      else Some(PyOr(OrDefault(patched.createTime, Null), patched.occurrenceTime));
    patched.(
      createTime := createTime,
      updateTime := Some(Str(now)),
      affectedAssets := Some(GetOr(data, "affectedAssets", Int(4))))
  }

  /** The body of a successful update: the incident's keys, each read with its default. */
  datatype UpdatedView = UpdatedView(
    id: int, eventId: int, name: Value, title: Value, severity: Value, status: Value,
    category: Value, responsibleDepartment: Value, responsiblePerson: Value, rootCause: Value,
    occurrenceTime: Value, description: Value, fullName: Value, createTime: Value,
    updateTime: Value, affectedAssets: Value)

  function ViewOf(i: Incident, now: string): (v: UpdatedView)
    ensures v.id == v.eventId == i.id && v.name == v.title == i.name
  {
    UpdatedView(
      i.id, i.id, i.name, i.name, i.severity, i.status,
      OrDefault(i.category, Str("platform")), i.responsibleDepartment,
      OrDefault(i.responsiblePerson, Str("")), i.rootCause, i.occurrenceTime,
      OrDefault(i.description, Str("")), i.fullName,
      OrDefault(i.createTime, Str(now)), OrDefault(i.updateTime, Str(now)),
      OrDefault(i.affectedAssets, Int(4)))
  }

  /** Updating twice with the same request at the same time changes nothing more than once. */
  lemma UpdateTwice(i: Incident, data: Entries, now: string)
    ensures Updated(Updated(i, data, now), data, now) == Updated(i, data, now)
  {
    var once := Updated(i, data, now);
    if !HasKey(data, "createTime") {
      assert once.createTime.Some?;
      if !PyTruthy(once.createTime.value) {
        assert once.createTime == Some(once.occurrenceTime);
      }
    }
  }

  /** The first incident with id `id`. */
  function WithId(incidents: seq<Incident>, id: int): Option<nat> {
    FirstWithId(Ids(incidents), Int(id))
  }

  /** The list the mock incident views share, `mock_incidents`. */
  class MockIncidentStore {
    var incidents: seq<Incident>

    /** The list starts as a copy of the fixture incidents. */
    constructor Seeded(fixture: seq<Incident>)
      ensures incidents == fixture
    {
      incidents := fixture;
    }

    /** `next((i for i in mock_incidents if i['id'] == v), None)`. */
    method FindIncident(v: Value) returns (found: Option<nat>)
      ensures found == FirstWithId(Ids(incidents), v)
    {
      var ids := Ids(incidents);
      var k := 0;
      while k < |ids|
        invariant 0 <= k <= |ids|
        invariant FirstWithId(ids, v) == FirstFrom(ids, v, k)
      {
        if IdIs(ids[k], v) {
          return Some(k);
        }
        k := k + 1;
      }
      return None;
    }

    /** `MockBatchCloseIncidentsView.post`: closes the incident each requested id finds and counts the finds. */
    method BatchClose(requested: seq<Value>) returns (closedCount: nat)
      modifies this
      ensures incidents == CloseAll(old(incidents), requested)
      ensures closedCount == MatchCount(Ids(old(incidents)), requested)
    {
      closedCount := 0;
      for k := 0 to |requested|
        invariant incidents == CloseAll(old(incidents), requested[..k])
        invariant closedCount == MatchCount(Ids(old(incidents)), requested[..k])
      {
        var done, v := requested[..k], requested[k];
        assert requested[..k + 1] == done + [v];
        MatchCountSnoc(Ids(old(incidents)), done, v);
        var found := FindIncident(v);
        if found.Some? {
          CloseStep(old(incidents), done, v, found.value);
          incidents := incidents[found.value := Closed(incidents[found.value])];
          closedCount := closedCount + 1;
        } else {
          CloseStepMissing(old(incidents), done, v);
        }
      }
      assert requested[..|requested|] == requested;
    }

    /** `MockCreateIncidentView.post`: builds the incident and puts it first. */
    method CreateIncident(data: Entries, now: string) returns (created: Incident)
      modifies this
      ensures created == NewIncident(old(incidents), data, now)
      ensures incidents == [created] + old(incidents)
    {
      created := NewIncident(incidents, data, now);
      incidents := [created] + incidents;
    }

    /** `MockUpdateIncidentView.put`: updates the incident with the id and answers its view, or 404. */
    method UpdateIncident(incidentId: int, data: Entries, now: string) returns (r: Option<UpdatedView>)
      modifies this
      ensures WithId(old(incidents), incidentId).None? ==> r.None? && incidents == old(incidents)
      ensures WithId(old(incidents), incidentId).Some? ==>
        var i := WithId(old(incidents), incidentId).value;
        && incidents == old(incidents)[i := Updated(old(incidents)[i], data, now)]
        && r == Some(ViewOf(incidents[i], now))
    {
      var found := FindIncident(Int(incidentId));
      if found.None? {
        return None;
      }
      var i := found.value;
      incidents := incidents[i := Updated(incidents[i], data, now)];
      return Some(ViewOf(incidents[i], now));
    }
  }
}
