/**
 * The `_LightRAGClient` object of `api/controllers/event_graph_service.py`:
 * each method runs its request or polling loop step by step and is proved to
 * end in exactly the outcome and transcript the `LightRag` module specifies.
 */
module GraphClient {
  import opened Wrappers
  import opened Values
  import opened LightRag

  /**
   * `_LightRAGClient`: its settings, and the state it changes as it talks
   * to the workspace: what it has sent so far and the monotonic clock.
   */
  class LightRagClient {
    const server: Server
    const cfg: Config
    var calls: seq<Call>
    var clock: nat

    function State(): Link
      reads this
    {
      Link(calls, clock)
    }

    constructor Init(server: Server, cfg: Config, clock: nat)
      ensures this.server == server && this.cfg == cfg && State() == Link([], clock)
    {
      this.server := server;
      this.cfg := cfg;
      this.calls := [];
      this.clock := clock;
    }

    /** `_LightRAGClient()`: refuses a configuration without a base URL. */
    static method Open(server: Server, cfg: Config, clock: nat) returns (r: Result<LightRagClient, Failure>)
      ensures r.Err? <==> cfg.baseUrl == ""
      ensures r.Err? ==> r.error == GraphError(NotConfigured)
      ensures r.Ok? ==> fresh(r.value) && r.value.server == server && r.value.cfg == cfg && r.value.State() == Link([], clock)
    {
      if cfg.baseUrl == "" {
        return Err(GraphError(NotConfigured));
      }
      var client := new LightRagClient.Init(server, cfg, clock);
      return Ok(client);
    }

    method Send(req: Request) returns (reply: Reply)
      modifies this
      ensures (reply, State()) == LightRag.Send(server, old(State()), req)
    {
      var a := server.answer(|calls|, req);
      calls := calls + [Call(req, clock, clock + a.elapsed, a.reply)];
      clock := clock + a.elapsed;
      reply := a.reply;
    }

    method Wait(ms: nat)
      modifies this
      ensures State() == Sleep(old(State()), ms)
    {
      clock := clock + ms;
    }

    method GetStatusCounts() returns (r: Result<Counts, Failure>)
      modifies this
      ensures (r, State()) == LightRag.GetStatusCounts(server, old(State()))
    {
      var reply := Send(StatusCounts);
      r := DecodeStatusCounts(reply);
    }

    method ClearDocuments()
      modifies this
      ensures State() == LightRag.ClearDocuments(server, cfg, old(State()))
    {
      var attempts := ClearAttempts(cfg);
      var delay := RetryDelay(cfg);
      var attempt := 1;
      while true
        invariant 1 <= attempt <= attempts
        invariant ClearFrom(server, State(), attempt, attempts, delay) == LightRag.ClearDocuments(server, cfg, old(State()))
        decreases attempts - attempt
      {
        var reply := Send(DeleteDocuments);
        if !ClearRetryable(reply) || attempt == attempts {
          return;
        }
        Wait(delay);
        attempt := attempt + 1;
      }
    }

    method EnsureWorkspaceEmpty() returns (r: Result<(), Failure>)
      modifies this
      ensures (r, State()) == LightRag.EnsureWorkspaceEmpty(server, cfg, old(State()))
    {
      var start := clock;
      var lastClear := 0;
      var deadline := start + cfg.workspaceTimeout * MillisPerSecond;
      while true
        invariant EnsureEmptyFrom(server, cfg, State(), start, lastClear) == LightRag.EnsureWorkspaceEmpty(server, cfg, old(State()))
        decreases Remaining(deadline, clock)
      {
        ghost var before := State();
        var counts := GetStatusCounts();
        if counts.Err? {
          return Err(counts.error);
        }
        if SumCounts(counts.value) == 0 {
          return Ok(());
        }
        var now := clock;
        var clear := ProcessingCount(counts.value) == 0 && now - lastClear >= RetryDelay(cfg);
        if clear {
          ClearDocuments();
          lastClear := now;
        }
        if now - start > cfg.workspaceTimeout * MillisPerSecond {
          return Err(GraphError(WorkspaceBusy));
        }
        Wait(cfg.pollInterval * MillisPerSecond);
        assert Remaining(deadline, clock) < Remaining(deadline, before.clock);
      }
    }

    method InsertText(text: string, fileSource: string) returns (r: Result<Value, Failure>)
      modifies this
      ensures (r, State()) == LightRag.InsertText(server, old(State()), text, fileSource)
    {
      var reply := Send(PostText(text, if fileSource != "" then Some(fileSource) else None));
      r := DecodeTrackId(reply);
    }

    method WaitForTrackCompletion(trackId: Value) returns (r: Result<seq<Value>, Failure>)
      modifies this
      ensures (r, State()) == LightRag.WaitForTrackCompletion(server, cfg, old(State()), trackId)
    {
      var start := clock;
      var path := Render(trackId);
      var deadline := start + cfg.trackTimeout * MillisPerSecond;
      while true
        invariant TrackFrom(server, cfg, State(), path, start) == LightRag.WaitForTrackCompletion(server, cfg, old(State()), trackId)
        decreases Remaining(deadline, clock)
      {
        ghost var before := State();
        var reply := Send(TrackStatus(path));
        var poll := DecodeTrack(reply);
        if !poll.StillRunning? || clock - start > cfg.trackTimeout * MillisPerSecond {
          return TrackVerdict(poll);
        }
        Wait(cfg.pollInterval * MillisPerSecond);
        assert Remaining(deadline, clock) < Remaining(deadline, before.clock);
      }
    }

    method ResolveGraphLabels(docId: Value) returns (r: Result<seq<Value>, Failure>)
      modifies this
      ensures (r, State()) == LightRag.ResolveGraphLabels(server, old(State()), docId)
    {
      if !PyTruthy(docId) {
        return Ok([Str("*")]);
      }
      var reply := Send(LabelList(docId));
      var extra := DecodeLabels(reply);
      if extra.None? {
        return Err(Crash);
      }
      return Ok(TruthyOnly([Str("*")] + extra.value));
    }

    method FetchGraphData(docId: Value, candidates: seq<string>) returns (r: Result<Value, Failure>)
      modifies this
      ensures (r, State()) == LightRag.FetchGraphData(server, old(State()), docId, candidates)
    {
      var resolved := ResolveGraphLabels(docId);
      if resolved.Err? {
        return Err(resolved.error);
      }
      var labels := resolved.value + seq(|candidates|, k requires 0 <= k < |candidates| => Str(candidates[k]));
      r := FetchLabels(docId, labels);
    }

    /** The loop of `fetch_graph_data` over the resolved labels, then the candidates. */
    method FetchLabels(docId: Value, labels: seq<Value>) returns (r: Result<Value, Failure>)
      modifies this
      ensures (r, State()) == FetchFrom(server, old(State()), docId, labels, 0, [])
    {
      var tried := [];
      var i := 0;
      while i < |labels|
        invariant 0 <= i <= |labels|
        invariant FetchFrom(server, State(), docId, labels, i, tried) == FetchFrom(server, old(State()), docId, labels, 0, [])
      {
        ghost var before := State();
        if PyTruthy(labels[i]) {
          var reply := Send(FetchGraph(labels[i], DocParam(docId)));
          var graph := DecodeGraph(reply);
          if graph.Ok? || graph.error == Crash {
            return graph;
          }
          assert FetchFrom(server, before, docId, labels, i, tried) == FetchFrom(server, State(), docId, labels, i + 1, tried + [labels[i]]);
          tried := tried + [labels[i]];
        }
        i := i + 1;
      }
      return Err(GraphError(if tried != [] then NoGraph(tried) else NoValidLabel));
    }

    method QuerySummary(prompt: string) returns (r: Result<Value, Failure>)
      modifies this
      ensures (r, State()) == LightRag.QuerySummary(server, old(State()), prompt)
    {
      var reply := Send(Query(prompt));
      r := DecodeSummary(reply);
    }
  }
}
