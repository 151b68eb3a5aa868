/**
 * The periodic incident graph job: one sweep over the open incidents'
 * alert snapshots decides, per incident, whether to re-sync the local
 * record from the remote one and whether to rebuild its graph bundle.
 *
 * The database and the remote services are the job's environment: the
 * remote fetch, whether the local upsert succeeds, what the graph
 * generator produces and whether storing the bundle succeeds are given as
 * functions. What a sweep does to that environment is its list of
 * effects, in the order the sweep performs them.
 */
module GraphScheduler {
  import opened Wrappers
  import opened Values
  import opened Seqs

  /** Python `[str(item) for item in values if item is not None]`. */
  function StringifyPresent(items: seq<Value>): (r: seq<string>)
    ensures |r| <= |items|
  {
    if items == [] then []
    else StringifyPresent(items[..|items| - 1]) + (if items[|items| - 1].Null? then [] else [Render(items[|items| - 1])])
  }

  /** Number of entries that are not `None`. */
  function PresentCount(items: seq<Value>): nat {
    if items == [] then 0 else PresentCount(items[..|items| - 1]) + (if items[|items| - 1].Null? then 0 else 1)
  }

  /** `_normalize_alert_list`. */
  function NormalizeAlertList(values: Value): (r: seq<string>)
    ensures !PyTruthy(values) || !values.List? ==> r == []
    ensures values.List? ==> |r| <= |values.items|
  {
    if !PyTruthy(values) then []
    else if values.List? then StringifyPresent(values.items)
    else []
  }

  /** Only `None` entries are dropped: the rest are kept, stringified, in order. */
  lemma {:induction false} StringifyPresentExact(items: seq<Value>)
    ensures |StringifyPresent(items)| == PresentCount(items)
    ensures forall v :: v in items && !v.Null? ==> Render(v) in StringifyPresent(items)
    decreases |items|
  {
    if items != [] {
      var init := items[..|items| - 1];
      StringifyPresentExact(init);
      assert items == init + [items[|items| - 1]];
    }
  }

  /** Appending a list of entries appends its stringified present entries. */
  lemma {:induction false} StringifyPresentAppend(a: seq<Value>, b: seq<Value>)
    ensures StringifyPresent(a + b) == StringifyPresent(a) + StringifyPresent(b)
    decreases |b|
  {
    if b == [] {
      assert a + b == a;
    } else {
      StringifyPresentAppend(a, b[..|b| - 1]);
      assert (a + b)[..|a + b| - 1] == a + b[..|b| - 1];
    }
  }

  /** `_alert_counts_equal`: only the lengths are compared. */
  function AlertCountsEqual(left: seq<string>, right: seq<string>): (r: bool)
    ensures r <==> |left| == |right|
  {
    |left| == |right|
  }

  /**
   * One row of `Incident.list_incident_alert_snapshots(only_open=True)`: the
   * values of its `incident_id`, `alert_list`, `has_graph_data` and
   * `has_graph_summary` keys, `None` where a key is absent.
   */
  datatype Snapshot = Snapshot(incidentId: Value, alertList: Value, hasGraphData: Value, hasGraphSummary: Value)

  /** `_graph_bundle_missing`: either flag absent or falsy. */
  predicate GraphBundleMissing(snapshot: Snapshot) {
    !PyTruthy(snapshot.hasGraphData) || !PyTruthy(snapshot.hasGraphSummary)
  }

  /**
   * The job's environment for one sweep: whether LightRAG is configured,
   * `retrieve_incident_by_id` (None where it raises), whether
   * `upsert_incident` completes, `generate_graph_bundle` (None where it
   * raises) and whether `update_graph_bundle` completes.
   */
  datatype Env = Env(
    configured: bool,
    fetch: Value -> Option<Entries>,
    upsertOk: Entries -> bool,
    generate: (Entries, Value) -> Option<(Value, Value)>,
    writeOk: (Value, Value, Value) -> bool)

  /** What the sweep does to the outside world. */
  datatype Effect =
    | Upsert(id: Value, payload: Entries, ok: bool)
    | Generate(id: Value)
    | WriteBundle(id: Value, graph: Value, summary: Value, ok: bool)

  /** The remote record of a snapshot, or None when it has no id or the fetch raises. */
  function Remote(env: Env, snapshot: Snapshot): (r: Option<Entries>)
    ensures !PyTruthy(snapshot.incidentId) ==> r.None?
    ensures PyTruthy(snapshot.incidentId) ==> r == env.fetch(snapshot.incidentId)
  {
    if !PyTruthy(snapshot.incidentId) then None else env.fetch(snapshot.incidentId)
  }

  /** The alert count of the local snapshot differs from the remote one. */
  predicate Drifted(snapshot: Snapshot, remote: Entries) {
    !AlertCountsEqual(NormalizeAlertList(snapshot.alertList), NormalizeAlertList(Get(remote, "alert_list")))
  }

  /** `remote_payload.get("associated_alerts", [])`. */
  function AssociatedAlerts(remote: Entries): Value {
    GetOr(remote, "associated_alerts", List([]))
  }

  /** `_refresh_graph_bundle`: generation, then storing both halves together; nothing escapes it. */
  function RefreshEffects(env: Env, id: Value, payload: Entries, alerts: Value): (r: seq<Effect>)
    ensures 1 <= |r| <= 2 && r[0] == Generate(id)
    ensures |r| == 2 <==> env.generate(payload, alerts).Some?
    ensures |r| == 2 ==> r[1].WriteBundle? && r[1].id == id
                         && env.generate(payload, alerts) == Some((r[1].graph, r[1].summary))
  {
    match env.generate(payload, alerts)
    case None => [Generate(id)]
    case Some((graph, summary)) => [Generate(id), WriteBundle(id, graph, summary, env.writeOk(id, graph, summary))]
  }

  /** The effects of the loop body of `run` for one snapshot. */
  function SnapshotEffects(env: Env, snapshot: Snapshot): seq<Effect> {
    var remote := Remote(env, snapshot);
    if remote.None? then [] else SyncEffects(env, snapshot, remote.value)
  }

  /** The part of the loop body after the remote record was fetched. */
  function SyncEffects(env: Env, snapshot: Snapshot, remote: Entries): seq<Effect> {
    var id := snapshot.incidentId;
    var changed := Drifted(snapshot, remote);
    if !changed && !GraphBundleMissing(snapshot) then []
    else if changed && !env.upsertOk(remote) then [Upsert(id, remote, false)]
    else
      var upsert := if changed then [Upsert(id, remote, true)] else [];
      var refresh := if env.configured then RefreshEffects(env, id, remote, AssociatedAlerts(remote)) else [];
      upsert + refresh
  }

  /**
   * The upsert rule: the local snapshot is upserted, first and once, exactly
   * when the fetch succeeded and the alert count drifted; nothing follows a
   * failed upsert.
   */
  lemma SnapshotUpsert(env: Env, snapshot: Snapshot)
    ensures var r := SnapshotEffects(env, snapshot);
            ((|r| > 0 && r[0].Upsert?) <==> Remote(env, snapshot).Some? && Drifted(snapshot, Remote(env, snapshot).value))
            && (|r| > 0 && r[0].Upsert? ==> r[0].payload == Remote(env, snapshot).value)
            && (|r| > 0 && r[0].Upsert? && !r[0].ok ==> |r| == 1)
            && (forall i :: 0 < i < |r| ==> !r[i].Upsert?)
  {
  }

  /** A snapshot with nothing to do: no id, a failed fetch, or an unchanged count and a present bundle. */
  predicate Quiet(env: Env, snapshot: Snapshot) {
    Remote(env, snapshot).None?
    || (!Drifted(snapshot, Remote(env, snapshot).value) && !GraphBundleMissing(snapshot))
  }

  /** Without an id or a remote record, and with an unchanged count and a present bundle, nothing happens. */
  lemma SnapshotSkips(env: Env, snapshot: Snapshot)
    ensures Quiet(env, snapshot) ==> SnapshotEffects(env, snapshot) == []
  {
  }

  /**
   * The refresh rule: every effect concerns the snapshot's incident, the
   * generator runs only when configured, and a bundle is written, with both
   * its halves, only right after a generation that produced them.
   */
  lemma SnapshotRefresh(env: Env, snapshot: Snapshot)
    ensures var r := SnapshotEffects(env, snapshot);
            (forall i :: 0 <= i < |r| ==> r[i].id == snapshot.incidentId)
            && (forall i :: 0 <= i < |r| && r[i].Generate? ==> env.configured)
            && (forall i :: 0 <= i < |r| && r[i].WriteBundle? ==>
                  i > 0 && r[i - 1].Generate?
                  && env.generate(Remote(env, snapshot).value, AssociatedAlerts(Remote(env, snapshot).value))
                     == Some((r[i].graph, r[i].summary)))
  {
  }

  /** The effects of one sweep over `snapshots`, in order. */
  function TickEffects(env: Env, snapshots: seq<Snapshot>): seq<Effect> {
    FlatMap(s => SnapshotEffects(env, s), snapshots)
  }

  /** A sweep over two runs of snapshots is the sweep over the first, then over the second. */
  lemma TickAppend(env: Env, a: seq<Snapshot>, b: seq<Snapshot>)
    ensures TickEffects(env, a + b) == TickEffects(env, a) + TickEffects(env, b)
  {
    FlatMapAppend(s => SnapshotEffects(env, s), a, b);
  }

  /** A skipped snapshot does not stop the sweep: the rest are processed as if it were absent. */
  lemma SkippedSnapshot(env: Env, before: seq<Snapshot>, snapshot: Snapshot, after: seq<Snapshot>)
    requires Remote(env, snapshot).None?
    ensures TickEffects(env, before + [snapshot] + after) == TickEffects(env, before) + TickEffects(env, after)
  {
    TickAppend(env, before + [snapshot], after);
    FlatMapSnoc(s => SnapshotEffects(env, s), before, snapshot);
  }

  /** A sweep in which every snapshot is quiet has no effect at all, so repeating it changes nothing. */
  lemma {:induction false} QuietTick(env: Env, snapshots: seq<Snapshot>)
    requires forall k :: 0 <= k < |snapshots| ==> Quiet(env, snapshots[k])
    ensures TickEffects(env, snapshots) == []
    decreases |snapshots|
  {
    if snapshots != [] {
      var init := snapshots[..|snapshots| - 1];
      assert forall k :: 0 <= k < |init| ==> init[k] == snapshots[k];
      QuietTick(env, init);
      SnapshotSkips(env, snapshots[|snapshots| - 1]);
      FlatMapSnoc(s => SnapshotEffects(env, s), init, snapshots[|snapshots| - 1]);
      assert snapshots == init + [snapshots[|snapshots| - 1]];
    }
  }

  /**
   * The snapshot as the store reports it after one effect: a completed
   * upsert brings over the remote alert list, a completed bundle write sets
   * both graph flags. `list_incident_alert_snapshots` and
   * `update_graph_bundle` are not part of this model; this is the behaviour
   * assumed of them.
   */
  function Step(snapshot: Snapshot, e: Effect): Snapshot {
    match e
    case Upsert(_, payload, ok) => if ok then snapshot.(alertList := Get(payload, "alert_list")) else snapshot
    case Generate(_) => snapshot
    case WriteBundle(_, graph, summary, ok) =>
      if ok then snapshot.(hasGraphData := Bool(PyTruthy(graph)), hasGraphSummary := Bool(PyTruthy(summary)))
      else snapshot
  }

  /** The snapshot after a run of effects, applied in order. */
  function Applied(snapshot: Snapshot, effects: seq<Effect>): Snapshot {
    if effects == [] then snapshot else Step(Applied(snapshot, effects[..|effects| - 1]), effects[|effects| - 1])
  }

  /** Applying two runs of effects is applying the first, then the second. */
  lemma {:induction false} AppliedAppend(snapshot: Snapshot, a: seq<Effect>, b: seq<Effect>)
    ensures Applied(snapshot, a + b) == Applied(Applied(snapshot, a), b)
    decreases |b|
  {
    if b == [] {
      assert a + b == a;
    } else {
      AppliedAppend(snapshot, a, b[..|b| - 1]);
      assert (a + b)[..|a + b| - 1] == a + b[..|b| - 1];
    }
  }

  /** A completed generation and write sets both flags from the bundle's halves. */
  lemma RefreshApplied(snapshot: Snapshot, id: Value, graph: Value, summary: Value)
    ensures Applied(snapshot, [Generate(id), WriteBundle(id, graph, summary, true)])
         == snapshot.(hasGraphData := Bool(PyTruthy(graph)), hasGraphSummary := Bool(PyTruthy(summary)))
  {
    var effects := [Generate(id), WriteBundle(id, graph, summary, true)];
    assert effects[..1] == [Generate(id)] && effects[..1][..0] == [];
    assert Applied(snapshot, effects[..1]) == Step(Applied(snapshot, []), Generate(id)) == snapshot;
  }

  /** The effects of a snapshot whose upsert completes: the upsert if drifted, then the refresh if configured. */
  lemma SyncShape(env: Env, snapshot: Snapshot)
    requires Remote(env, snapshot).Some? && env.upsertOk(Remote(env, snapshot).value)
    ensures var remote := Remote(env, snapshot).value;
            var upsert := if Drifted(snapshot, remote) then [Upsert(snapshot.incidentId, remote, true)] else [];
            SnapshotEffects(env, snapshot) ==
              if !Drifted(snapshot, remote) && !GraphBundleMissing(snapshot) then []
              else upsert + if env.configured then RefreshEffects(env, snapshot.incidentId, remote, AssociatedAlerts(remote)) else []
  {
  }

  /**
   * Once the upsert and, when configured, the bundle generation and write
   * all complete with a non-empty bundle, the next sweep with the same
   * remote data has nothing to do for that incident.
   */
  lemma SyncSettles(env: Env, snapshot: Snapshot)
    requires Remote(env, snapshot).Some?
    requires env.upsertOk(Remote(env, snapshot).value)
    requires env.configured ==>
      var remote := Remote(env, snapshot).value;
      var gen := env.generate(remote, AssociatedAlerts(remote));
      gen.Some? && PyTruthy(gen.value.0) && PyTruthy(gen.value.1)
      && env.writeOk(snapshot.incidentId, gen.value.0, gen.value.1)
    requires !env.configured ==> !GraphBundleMissing(snapshot)
    ensures Quiet(env, Applied(snapshot, SnapshotEffects(env, snapshot)))
  {
    var remote := Remote(env, snapshot).value;
    SyncShape(env, snapshot);
    var synced := if Drifted(snapshot, remote) then snapshot.(alertList := Get(remote, "alert_list")) else snapshot;
    assert !Drifted(synced, remote);
    var upsert := if Drifted(snapshot, remote) then [Upsert(snapshot.incidentId, remote, true)] else [];
    assert Applied(snapshot, upsert) == synced by {
      if upsert != [] {
        assert upsert[..0] == [];
      }
    }
    if env.configured && (Drifted(snapshot, remote) || GraphBundleMissing(snapshot)) {
      var gen := env.generate(remote, AssociatedAlerts(remote)).value;
      var refresh := [Generate(snapshot.incidentId), WriteBundle(snapshot.incidentId, gen.0, gen.1, true)];
      assert SnapshotEffects(env, snapshot) == upsert + refresh;
      AppliedAppend(snapshot, upsert, refresh);
      RefreshApplied(synced, snapshot.incidentId, gen.0, gen.1);
    }
  }

  /** The loop body of `run` once the remote record of `snapshot` was fetched. */
  method SyncIncident(env: Env, snapshot: Snapshot, remote: Entries) returns (effects: seq<Effect>)
    ensures effects == SyncEffects(env, snapshot, remote)
  {
    effects := [];
    var id := snapshot.incidentId;
    var storedAlerts := NormalizeAlertList(snapshot.alertList);
    var remoteAlerts := NormalizeAlertList(Get(remote, "alert_list"));
    var alertsChanged := !AlertCountsEqual(storedAlerts, remoteAlerts);
    var graphMissing := GraphBundleMissing(snapshot);
    if !alertsChanged && !graphMissing {
      return;
    }
    if alertsChanged {
      var ok := env.upsertOk(remote);
      effects := effects + [Upsert(id, remote, ok)];
      if !ok {
        return;
      }
    }
    var associatedAlerts := GetOr(remote, "associated_alerts", List([]));
    if env.configured {
      effects := effects + [Generate(id)];
      var generated := env.generate(remote, associatedAlerts);
      if generated.Some? {
        var (graph, summary) := generated.value;
        effects := effects + [WriteBundle(id, graph, summary, env.writeOk(id, graph, summary))];
      }
    }
  }

  /** `IncidentGraphIntelligenceJob.run`: one sweep, returning the effects it performs in order. */
  method Run(env: Env, snapshots: seq<Snapshot>) returns (effects: seq<Effect>)
    ensures effects == TickEffects(env, snapshots)
  {
    effects := [];
    for k := 0 to |snapshots|
      invariant effects == TickEffects(env, snapshots[..k])
    {
      var snapshot := snapshots[k];
      assert snapshots[..k + 1] == snapshots[..k] + [snapshot];
      FlatMapSnoc(s => SnapshotEffects(env, s), snapshots[..k], snapshot);
      var id := snapshot.incidentId;
      if !PyTruthy(id) {
        continue;
      }
      var fetched := env.fetch(id);
      if fetched.None? {
        continue;
      }
      var step := SyncIncident(env, snapshot, fetched.value);
      effects := effects + step;
    }
    assert snapshots[..|snapshots|] == snapshots;
  }
}
