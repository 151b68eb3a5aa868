/**
 * The LightRAG REST client of `api/controllers/event_graph_service.py`
 * (`_LightRAGClient`): the remote workspace is an oracle that answers the
 * k-th request, and every request and sleep advances a monotonic clock
 * counted in milliseconds.
 *
 * The first half gives each client operation a specification: a function from
 * the transcript so far (the `Link`) to the operation's outcome and the
 * extended transcript. The class `LightRagClient` at the end runs the same
 * loops step by step and is proved to produce exactly these outcomes.
 */
module LightRag {
  import opened Wrappers
  import opened Text
  import opened Values
  import opened Seqs

  /** The REST calls the client makes (method, path and the parameters that matter). */
  datatype Request =
    | StatusCounts                                        // GET /documents/status_counts
    | PostText(text: string, fileSource: Option<string>)   // POST /documents/text
    | TrackStatus(trackId: string)                        // GET /documents/track_status/{id}
    | LabelList(labelsOf: Value)                        // GET /graph/label/list
    | FetchGraph(graphLabel: Value, docId: Option<Value>) // GET /graphs
    | Query(prompt: string)                               // POST /query
    | DeleteDocuments                                     // DELETE /documents

  /**
   * What a request yields: `_request` raised (network error or HTTP status
   * of 400 or more, after its own retry), the body was not JSON, or a JSON body.
   */
  datatype Reply = RequestFailed | NotJson | Json(body: Value)

  /** Every request takes some time. */
  type Latency = n: nat | n >= 1 witness 1

  datatype Answer = Answer(reply: Reply, elapsed: Latency)

  /** The remote service: its answer to the k-th request of the transcript. */
  datatype Server = Server(answer: (nat, Request) -> Answer)

  /** One request as it happened: when it was sent, when its reply arrived, and the reply. */
  datatype Call = Call(request: Request, sent: nat, received: nat, reply: Reply)

  /** Everything sent so far, and the monotonic clock in milliseconds. */
  datatype Link = Link(calls: seq<Call>, clock: nat)

  /** Why an operation failed: `EventGraphGenerationError`, or any other Python exception. */
  datatype Failure = GraphError(reason: GraphFailure) | Crash

  datatype GraphFailure =
    | ApiFailure
    | InvalidJson
    | WorkspaceBusy
    | MissingTrackId
    | TrackFailed
    | TrackTimeout
    | NoGraph(tried: seq<Value>)
    | NoValidLabel
    | NotConfigured

  /** The `application.lightrag` settings the client reads (seconds). */
  datatype Config = Config(
    baseUrl: string,
    pollInterval: nat,
    workspaceTimeout: nat,
    trackTimeout: nat,
    maxRetryAttempts: Option<int>)

  const MillisPerSecond := 1000

  /** `clear_interval` and `delay`: `max(1, int(poll_interval or 1))` seconds, in milliseconds. */
  function RetryDelay(cfg: Config): (ms: nat)
    ensures ms >= MillisPerSecond && (cfg.pollInterval >= 1 ==> ms == cfg.pollInterval * MillisPerSecond)
  {
    (if cfg.pollInterval == 0 then 1 else cfg.pollInterval) * MillisPerSecond
  }

  /** `attempts` of `clear_documents`: `max(1, max_retry_attempts)`, default 2. */
  function ClearAttempts(cfg: Config): (n: nat)
    ensures n >= 1
  {
    var v := cfg.maxRetryAttempts.GetOr(2);
    if v < 1 then 1 else v
  }

  /** Later transcripts extend earlier ones and the clock never runs back. */
  predicate Extends(before: Link, after: Link) {
    |before.calls| <= |after.calls| && after.calls[..|before.calls|] == before.calls
    && before.clock <= after.clock
  }

  /** The requests added between two transcripts. */
  function NewCalls(before: Link, after: Link): seq<Call>
    requires Extends(before, after)
  {
    after.calls[|before.calls|..]
  }

  /** Sends one request: the server answers it as the next call of the transcript. */
  function Send(server: Server, link: Link, req: Request): (r: (Reply, Link))
    ensures Extends(link, r.1) && r.1.clock > link.clock
    ensures NewCalls(link, r.1) == [Call(req, link.clock, r.1.clock, r.0)]
  {
    var a := server.answer(|link.calls|, req);
    var after := Link(link.calls + [Call(req, link.clock, link.clock + a.elapsed, a.reply)], link.clock + a.elapsed);
    assert after.calls[..|link.calls|] == link.calls;
    (a.reply, after)
  }

  /** `time.sleep`. */
  function Sleep(link: Link, ms: nat): (r: Link)
    ensures Extends(link, r) && r.calls == link.calls && r.clock == link.clock + ms
  {
    Link(link.calls, link.clock + ms)
  }

  lemma ExtendsTrans(a: Link, b: Link, c: Link)
    requires Extends(a, b) && Extends(b, c)
    ensures Extends(a, c)
    ensures NewCalls(a, c) == NewCalls(a, b) + NewCalls(b, c)
  {
    assert c.calls[..|a.calls|] == c.calls[..|b.calls|][..|a.calls|];
    assert c.calls[|a.calls|..] == c.calls[|a.calls|..|b.calls|] + c.calls[|b.calls|..];
    assert c.calls[|a.calls|..|b.calls|] == b.calls[|a.calls|..];
  }

  // ---------------------------------------------------------------------
  // Reading the JSON replies

  /** `_safe_json` and `_request` failures become `EventGraphGenerationError`. */
  function TransportFailure(reply: Reply): Failure
    requires !reply.Json?
  {
    if reply.RequestFailed? then GraphError(ApiFailure) else GraphError(InvalidJson)
  }

  type Counts = seq<(string, int)>

  /** `int(value)`, with 0 where Python raises TypeError or ValueError. */
  function CountValue(v: Value): int {
    PyInt(v).GetOr(0)
  }

  function CountEntries(entries: Entries): (r: Counts)
    ensures |r| == |entries|
    ensures forall k :: 0 <= k < |r| ==> r[k] == (entries[k].0, CountValue(entries[k].1))
  {
    if entries == [] then []
    else [(entries[0].0, CountValue(entries[0].1))] + CountEntries(entries[1..])
  }

  /** `_get_status_counts` on the reply to its request. */
  function DecodeStatusCounts(reply: Reply): (r: Result<Counts, Failure>)
    ensures reply.Json? && !reply.body.Dict? ==> r == Err(Crash)
    ensures !reply.Json? ==> r.Err? && r.error.GraphError?
  {
    match reply
    case Json(data) =>
      if !data.Dict? then Err(Crash)
      else
        var raw := PyOr(PyOr(Get(data.entries, "status_counts"), Get(data.entries, "data")), data);
        if raw.Dict? then Ok(CountEntries(raw.entries)) else Ok([])
    case _ => Err(TransportFailure(reply))
  }

  function SumCounts(counts: Counts): int {
    if counts == [] then 0 else counts[0].1 + SumCounts(counts[1..])
  }

  const ProcessingStates: set<string> := {"PENDING", "QUEUED", "PREPROCESSING", "PROCESSING", "RUNNING"}

  /** The documents still being worked on: counts whose upper-cased state is a processing state. */
  function ProcessingCount(counts: Counts): int {
    if counts == [] then 0
    else (if Upper(counts[0].0) in ProcessingStates then counts[0].1 else 0) + ProcessingCount(counts[1..])
  }

  /** `_get_status_counts()`. */
  function GetStatusCounts(server: Server, link: Link): (r: (Result<Counts, Failure>, Link))
    ensures Extends(link, r.1) && r.1.clock > link.clock
    ensures NewCalls(link, r.1) == [Call(StatusCounts, link.clock, r.1.clock, server.answer(|link.calls|, StatusCounts).reply)]
    ensures r.0 == DecodeStatusCounts(NewCalls(link, r.1)[0].reply)
  {
    var (reply, after) := Send(server, link, StatusCounts);
    (DecodeStatusCounts(reply), after)
  }

  // ---------------------------------------------------------------------
  // clear_documents

  /** The lower-cased `status` field of a JSON object reply, or "" for any other JSON. */
  function ClearStatus(body: Value): string {
    if body.Dict? then Lower(Render(GetOr(body.entries, "status", Str("")))) else ""
  }

  /** A DELETE reply after which `clear_documents` tries again (if attempts remain). */
  predicate ClearRetryable(reply: Reply) {
    reply.RequestFailed? || (reply.Json? && ClearStatus(reply.body) == "busy")
  }

  /** Attempts `attempt..attempts` of `clear_documents`. */
  function ClearFrom(server: Server, link: Link, attempt: nat, attempts: nat, delay: nat): (r: Link)
    requires 1 <= attempt <= attempts
    ensures Extends(link, r) && r.clock > link.clock
    decreases attempts - attempt
  {
    var (reply, after) := Send(server, link, DeleteDocuments);
    if ClearRetryable(reply) && attempt < attempts then
      var r := ClearFrom(server, Sleep(after, delay), attempt + 1, attempts, delay);
      ExtendsTrans(link, after, Sleep(after, delay));
      ExtendsTrans(link, Sleep(after, delay), r);
      r
    else after
  }

  /** `clear_documents()`: it has no failure outcome, since it never raises. */
  function ClearDocuments(server: Server, cfg: Config, link: Link): (r: Link)
    ensures Extends(link, r) && r.clock > link.clock
  {
    ClearFrom(server, link, 1, ClearAttempts(cfg), RetryDelay(cfg))
  }

  /** One run of `clear_documents`: only DELETEs, retried exactly while the workspace is busy or the request failed. */
  predicate ClearRun(calls: seq<Call>, attempts: nat) {
    1 <= |calls| <= attempts
    && (forall i :: 0 <= i < |calls| ==> calls[i].request == DeleteDocuments)
    && (forall i :: 0 <= i < |calls| - 1 ==> ClearRetryable(calls[i].reply))
    && (|calls| < attempts ==> !ClearRetryable(calls[|calls| - 1].reply))
  }

  /**
   * `clear_documents` issues between one and `attempts` DELETE requests, goes on
   * after a busy or failed one, and stops at the first other reply.
   */
  lemma {:induction false} ClearFromRun(server: Server, link: Link, attempt: nat, attempts: nat, delay: nat)
    requires 1 <= attempt <= attempts
    ensures ClearRun(NewCalls(link, ClearFrom(server, link, attempt, attempts, delay)), attempts - attempt + 1)
    decreases attempts - attempt
  {
    var (reply, after) := Send(server, link, DeleteDocuments);
    if ClearRetryable(reply) && attempt < attempts {
      var slept := Sleep(after, delay);
      var r := ClearFrom(server, slept, attempt + 1, attempts, delay);
      ClearFromRun(server, slept, attempt + 1, attempts, delay);
      ExtendsTrans(link, after, slept);
      ExtendsTrans(link, slept, r);
      assert NewCalls(link, r) == [Call(DeleteDocuments, link.clock, after.clock, reply)] + NewCalls(slept, r);
    }
  }

  lemma ClearDocumentsRun(server: Server, cfg: Config, link: Link)
    ensures ClearRun(NewCalls(link, ClearDocuments(server, cfg, link)), ClearAttempts(cfg))
  {
    ClearFromRun(server, link, 1, ClearAttempts(cfg), RetryDelay(cfg));
  }

  // ---------------------------------------------------------------------
  // ensure_workspace_empty

  /** A measure that falls as the clock approaches `deadline` and stays 0 beyond it. */
  function Remaining(deadline: int, clock: nat): nat {
    if clock <= deadline then deadline - clock + 1 else 0
  }

  /**
   * The polling loop of `ensure_workspace_empty`, begun at `start`, with the
   * last automatic clear at `lastClear`.
   */
  function EnsureEmptyFrom(server: Server, cfg: Config, link: Link, start: nat, lastClear: int): (r: (Result<(), Failure>, Link))
    ensures Extends(link, r.1)
    decreases Remaining(start + cfg.workspaceTimeout * MillisPerSecond, link.clock)
  {
    var (counts, polled) := GetStatusCounts(server, link);
    if counts.Err? then (Err(counts.error), polled)
    else if SumCounts(counts.value) == 0 then (Ok(()), polled)
    else
      var now := polled.clock;
      var clear := ProcessingCount(counts.value) == 0 && now - lastClear >= RetryDelay(cfg);
      var cleared := if clear then ClearDocuments(server, cfg, polled) else polled;
      if now - start > cfg.workspaceTimeout * MillisPerSecond then (Err(GraphError(WorkspaceBusy)), cleared)
      else
        var slept := Sleep(cleared, cfg.pollInterval * MillisPerSecond);
        var r := EnsureEmptyFrom(server, cfg, slept, start, if clear then now else lastClear);
        ExtendsTrans(link, polled, cleared);
        ExtendsTrans(link, cleared, slept);
        ExtendsTrans(link, slept, r.1);
        r
  }

  /** `ensure_workspace_empty()`: polling starts now, and `last_clear_ts` starts at 0. */
  function EnsureWorkspaceEmpty(server: Server, cfg: Config, link: Link): (r: (Result<(), Failure>, Link))
    ensures Extends(link, r.1)
  {
    EnsureEmptyFrom(server, cfg, link, link.clock, 0)
  }

  predicate IsPoll(c: Call) {
    c.request == StatusCounts
  }

  predicate IsDelete(c: Call) {
    c.request == DeleteDocuments
  }

  /** A poll that reports documents in the workspace, none of them still processing. */
  predicate IdleButNotEmpty(c: Call) {
    var counts := DecodeStatusCounts(c.reply);
    counts.Ok? && SumCounts(counts.value) != 0 && ProcessingCount(counts.value) == 0
  }

  /**
   * While waiting for an empty workspace the client only polls the counts and
   * deletes documents; it starts with a poll, and every run of DELETEs
   * directly follows a poll that found documents of which none were processing.
   */
  predicate WorkspaceTraffic(calls: seq<Call>) {
    |calls| >= 1 && IsPoll(calls[0])
    && (forall i :: 0 <= i < |calls| ==> IsPoll(calls[i]) || IsDelete(calls[i]))
    && (forall i :: 0 < i < |calls| && IsDelete(calls[i]) ==>
          IsDelete(calls[i - 1]) || IdleButNotEmpty(calls[i - 1]))
  }

  lemma TrafficAppend(head: seq<Call>, tail: seq<Call>)
    requires WorkspaceTraffic(head) && WorkspaceTraffic(tail)
    ensures WorkspaceTraffic(head + tail)
  {
    var all := head + tail;
    forall i | 0 < i < |all| && IsDelete(all[i])
      ensures IsDelete(all[i - 1]) || IdleButNotEmpty(all[i - 1])
    {
      if i >= |head| {
        assert all[i] == tail[i - |head|];
        assert i - |head| > 0;
        assert all[i - 1] == tail[i - |head| - 1];
      } else {
        assert all[i] == head[i] && all[i - 1] == head[i - 1];
      }
    }
  }

  /** One round of the loop: a poll, then the DELETEs of a clear if the poll found an idle workspace. */
  lemma RoundTraffic(server: Server, cfg: Config, link: Link, clear: bool)
    requires var (counts, polled) := GetStatusCounts(server, link);
             clear ==> counts.Ok? && SumCounts(counts.value) != 0 && ProcessingCount(counts.value) == 0
    ensures var (_, polled) := GetStatusCounts(server, link);
            var cleared := if clear then ClearDocuments(server, cfg, polled) else polled;
            Extends(link, cleared) && WorkspaceTraffic(NewCalls(link, cleared))
            && NewCalls(link, cleared)[0] == NewCalls(link, polled)[0]
            && forall i :: 0 < i < |NewCalls(link, cleared)| ==> IsDelete(NewCalls(link, cleared)[i])
  {
    var (counts, polled) := GetStatusCounts(server, link);
    var cleared := if clear then ClearDocuments(server, cfg, polled) else polled;
    ExtendsTrans(link, polled, cleared);
    var all := NewCalls(link, cleared);
    if clear {
      ClearDocumentsRun(server, cfg, polled);
      var run := NewCalls(polled, cleared);
      assert all == [all[0]] + run;
      forall i | 0 < i < |all| ensures IsDelete(all[i]) {
        assert all[i] == run[i - 1];
      }
    }
  }

  lemma {:induction false} EnsureEmptyTraffic(server: Server, cfg: Config, link: Link, start: nat, lastClear: int)
    ensures var r := EnsureEmptyFrom(server, cfg, link, start, lastClear); WorkspaceTraffic(NewCalls(link, r.1))
    decreases Remaining(start + cfg.workspaceTimeout * MillisPerSecond, link.clock)
  {
    var (counts, polled) := GetStatusCounts(server, link);
    var r := EnsureEmptyFrom(server, cfg, link, start, lastClear);
    if counts.Ok? && SumCounts(counts.value) != 0 {
      var now := polled.clock;
      var clear := ProcessingCount(counts.value) == 0 && now - lastClear >= RetryDelay(cfg);
      var cleared := if clear then ClearDocuments(server, cfg, polled) else polled;
      RoundTraffic(server, cfg, link, clear);
      if now - start <= cfg.workspaceTimeout * MillisPerSecond {
        var slept := Sleep(cleared, cfg.pollInterval * MillisPerSecond);
        var rest := EnsureEmptyFrom(server, cfg, slept, start, if clear then now else lastClear);
        EnsureEmptyTraffic(server, cfg, slept, start, if clear then now else lastClear);
        ExtendsTrans(link, cleared, slept);
        ExtendsTrans(link, slept, rest.1);
        TrafficAppend(NewCalls(link, cleared), NewCalls(slept, rest.1));
      }
    } else {
      assert NewCalls(link, r.1) == NewCalls(link, polled);
    }
  }

  /** A poll after which the loop went on: the counts were read, their total was not 0, and the timeout had not passed. */
  predicate KeptWaiting(c: Call, cfg: Config, start: nat) {
    var counts := DecodeStatusCounts(c.reply);
    counts.Ok? && SumCounts(counts.value) != 0 && c.received - start <= cfg.workspaceTimeout * MillisPerSecond
  }

  /** A poll that found the workspace empty. */
  predicate FoundEmpty(c: Call) {
    var counts := DecodeStatusCounts(c.reply);
    counts.Ok? && SumCounts(counts.value) == 0
  }

  /** A final poll that ends the wait with failure `e`: reading the counts failed, or the timeout had passed. */
  predicate GaveUp(c: Call, cfg: Config, start: nat, e: Failure) {
    var counts := DecodeStatusCounts(c.reply);
    counts == Err(e)
    || (counts.Ok? && SumCounts(counts.value) != 0 && c.received - start > cfg.workspaceTimeout * MillisPerSecond
        && e == GraphError(WorkspaceBusy))
  }

  /** Every poll but the last one kept the loop going. */
  predicate PollsKeptWaiting(calls: seq<Call>, cfg: Config, start: nat) {
    forall i, j :: 0 <= i < j < |calls| && IsPoll(calls[i]) && IsPoll(calls[j]) ==> KeptWaiting(calls[i], cfg, start)
  }

  /** The last poll of `calls` ended the wait with failure `e`; only DELETEs followed it. */
  predicate LastPollGaveUp(calls: seq<Call>, cfg: Config, start: nat, e: Failure) {
    exists i :: 0 <= i < |calls| && IsPoll(calls[i]) && GaveUp(calls[i], cfg, start, e)
                && forall j :: i < j < |calls| ==> IsDelete(calls[j])
  }

  /** A round that kept waiting, followed by the rest of the loop. */
  lemma RoundThenRest(head: seq<Call>, tail: seq<Call>, cfg: Config, start: nat)
    requires |head| >= 1 && IsPoll(head[0]) && KeptWaiting(head[0], cfg, start)
    requires forall i :: 0 < i < |head| ==> IsDelete(head[i])
    requires |tail| >= 1 && PollsKeptWaiting(tail, cfg, start)
    ensures PollsKeptWaiting(head + tail, cfg, start)
    ensures (head + tail)[|head + tail| - 1] == tail[|tail| - 1]
    ensures forall e :: LastPollGaveUp(tail, cfg, start, e) ==> LastPollGaveUp(head + tail, cfg, start, e)
  {
    var calls := head + tail;
    forall i, j | 0 <= i < j < |calls| && IsPoll(calls[i]) && IsPoll(calls[j])
      ensures KeptWaiting(calls[i], cfg, start)
    {
      if i > 0 {
        assert i >= |head|;
        assert calls[i] == tail[i - |head|] && calls[j] == tail[j - |head|];
      }
    }
    forall e | LastPollGaveUp(tail, cfg, start, e) ensures LastPollGaveUp(calls, cfg, start, e) {
      var k :| 0 <= k < |tail| && IsPoll(tail[k]) && GaveUp(tail[k], cfg, start, e)
               && forall j :: k < j < |tail| ==> IsDelete(tail[j]);
      var i := k + |head|;
      assert calls[i] == tail[k];
      forall j | i < j < |calls| ensures IsDelete(calls[j]) {
        assert calls[j] == tail[j - |head|];
      }
    }
  }

  /**
   * How a wait that made the calls `calls` ends with `outcome`: every poll but
   * the last kept waiting, the wait succeeds exactly when the last call is a
   * poll that found the workspace empty, and a failure comes from the last poll.
   */
  predicate WaitOutcome(calls: seq<Call>, outcome: Result<(), Failure>, cfg: Config, start: nat) {
    |calls| >= 1 && PollsKeptWaiting(calls, cfg, start)
    && (outcome.Ok? <==> IsPoll(calls[|calls| - 1]) && FoundEmpty(calls[|calls| - 1]))
    && (outcome.Err? ==> LastPollGaveUp(calls, cfg, start, outcome.error))
  }

  /** A last round: one poll that ended the wait, then possibly the DELETEs of a clear. */
  lemma LastRoundOutcome(head: seq<Call>, outcome: Result<(), Failure>, cfg: Config, start: nat)
    requires |head| >= 1 && IsPoll(head[0]) && forall i :: 0 < i < |head| ==> IsDelete(head[i])
    requires outcome.Ok? <==> |head| == 1 && FoundEmpty(head[0])
    requires outcome.Err? ==> GaveUp(head[0], cfg, start, outcome.error)
    ensures WaitOutcome(head, outcome, cfg, start)
  {
    if outcome.Err? {
      assert LastPollGaveUp(head, cfg, start, outcome.error) by {
        assert IsPoll(head[0]) && GaveUp(head[0], cfg, start, outcome.error);
      }
    }
  }

  /** A round that kept waiting, followed by a wait that ended with `outcome`. */
  lemma KeptWaitingOutcome(head: seq<Call>, tail: seq<Call>, outcome: Result<(), Failure>, cfg: Config, start: nat)
    requires |head| >= 1 && IsPoll(head[0]) && KeptWaiting(head[0], cfg, start)
    requires forall i :: 0 < i < |head| ==> IsDelete(head[i])
    requires WaitOutcome(tail, outcome, cfg, start)
    ensures WaitOutcome(head + tail, outcome, cfg, start)
  {
    RoundThenRest(head, tail, cfg, start);
  }

  /**
   * `ensure_workspace_empty` returns exactly when a poll finds a total of 0,
   * keeps polling while the total is not 0 and the timeout has not passed,
   * and otherwise fails at its last poll: with the error of reading the
   * counts, or with a timeout once the elapsed time exceeds it.
   */
  lemma {:induction false} EnsureEmptyOutcome(server: Server, cfg: Config, link: Link, start: nat, lastClear: int)
    ensures var r := EnsureEmptyFrom(server, cfg, link, start, lastClear);
            WaitOutcome(NewCalls(link, r.1), r.0, cfg, start)
    decreases Remaining(start + cfg.workspaceTimeout * MillisPerSecond, link.clock)
  {
    var (counts, polled) := GetStatusCounts(server, link);
    var r := EnsureEmptyFrom(server, cfg, link, start, lastClear);
    if counts.Err? || SumCounts(counts.value) == 0 {
      LastRoundOutcome(NewCalls(link, polled), r.0, cfg, start);
    } else {
      var now := polled.clock;
      var clear := ProcessingCount(counts.value) == 0 && now - lastClear >= RetryDelay(cfg);
      var cleared := if clear then ClearDocuments(server, cfg, polled) else polled;
      RoundTraffic(server, cfg, link, clear);
      var head := NewCalls(link, cleared);
      if now - start > cfg.workspaceTimeout * MillisPerSecond {
        assert !FoundEmpty(head[0]);
        LastRoundOutcome(head, r.0, cfg, start);
      } else {
        var slept := Sleep(cleared, cfg.pollInterval * MillisPerSecond);
        var next := if clear then now else lastClear;
        var rest := EnsureEmptyFrom(server, cfg, slept, start, next);
        EnsureEmptyOutcome(server, cfg, slept, start, next);
        ExtendsTrans(link, cleared, slept);
        ExtendsTrans(link, slept, rest.1);
        assert NewCalls(link, r.1) == head + NewCalls(slept, rest.1);
        KeptWaitingOutcome(head, NewCalls(slept, rest.1), r.0, cfg, start);
      }
    }
  }

  /** The poll at `i` was followed by a DELETE: it started an automatic clear. */
  predicate ClearedAfter(calls: seq<Call>, i: int) {
    0 <= i && i + 1 < |calls| && IsPoll(calls[i]) && IsDelete(calls[i + 1])
  }

  /** Automatic clears start at least `delay` after the previous one (or after `lastClear`). */
  predicate ClearsSpaced(calls: seq<Call>, lastClear: int, delay: nat) {
    (forall i :: 0 <= i < |calls| && ClearedAfter(calls, i) ==> calls[i].received - lastClear >= delay)
    && (forall i, j :: 0 <= i < j < |calls| && ClearedAfter(calls, i) && ClearedAfter(calls, j) ==>
          calls[j].received - calls[i].received >= delay)
  }

  /** At poll `i`, `delay` has passed since the last automatic clear (or since `lastClear`). */
  predicate ClearDue(calls: seq<Call>, i: int, lastClear: int, delay: nat)
    requires 0 <= i < |calls|
  {
    calls[i].received - lastClear >= delay
    && forall h :: 0 <= h < i && ClearedAfter(calls, h) ==> calls[i].received - calls[h].received >= delay
  }

  /** Every poll that finds an idle, non-empty workspace when a clear is due starts one. */
  predicate ClearsWhenDue(calls: seq<Call>, lastClear: int, delay: nat) {
    forall i :: 0 <= i < |calls| && IsPoll(calls[i]) && IdleButNotEmpty(calls[i]) && ClearDue(calls, i, lastClear, delay)
                ==> ClearedAfter(calls, i)
  }

  /** A round of one poll and the DELETEs of a clear, before the rest of the loop's calls. */
  predicate RoundBefore(head: seq<Call>, tail: seq<Call>, lastClear: int, next: int, delay: nat) {
    |head| >= 1 && IsPoll(head[0]) && (forall i :: 0 < i < |head| ==> IsDelete(head[i]))
    && (|head| > 1 ==> head[0].received - lastClear >= delay && next == head[0].received)
    && (|head| == 1 ==> next == lastClear && !(IdleButNotEmpty(head[0]) && head[0].received - lastClear >= delay))
    && (tail == [] || IsPoll(tail[0]))
  }

  /** Where the clears of `head + tail` start: after the round's poll if it cleared, then where the tail's do. */
  lemma ClearedAfterJoin(head: seq<Call>, tail: seq<Call>, lastClear: int, next: int, delay: nat)
    requires RoundBefore(head, tail, lastClear, next, delay)
    ensures ClearedAfter(head + tail, 0) <==> |head| > 1
    ensures forall i :: 0 < i < |head| ==> !ClearedAfter(head + tail, i)
    ensures forall i :: |head| <= i ==> (ClearedAfter(head + tail, i) <==> ClearedAfter(tail, i - |head|))
    ensures forall i :: |head| <= i < |head + tail| ==> (head + tail)[i] == tail[i - |head|]
  {
    var calls := head + tail;
    assert forall i :: |head| <= i < |calls| ==> calls[i] == tail[i - |head|];
    assert forall i :: 0 <= i < |head| ==> calls[i] == head[i];
  }

  lemma RoundThenRestSpaced(head: seq<Call>, tail: seq<Call>, lastClear: int, next: int, delay: nat)
    requires RoundBefore(head, tail, lastClear, next, delay)
    requires ClearsSpaced(tail, next, delay)
    ensures ClearsSpaced(head + tail, lastClear, delay)
  {
    ClearedAfterJoin(head, tail, lastClear, next, delay);
  }

  /** A clear due at a poll of the tail is due in the tail's own terms. */
  lemma DueInTail(head: seq<Call>, tail: seq<Call>, lastClear: int, next: int, delay: nat, i: nat)
    requires RoundBefore(head, tail, lastClear, next, delay)
    requires |head| <= i < |head + tail| && ClearDue(head + tail, i, lastClear, delay)
    ensures ClearDue(tail, i - |head|, next, delay)
  {
    var calls := head + tail;
    var k := i - |head|;
    ClearedAfterJoin(head, tail, lastClear, next, delay);
    assert calls[i] == tail[k];
    forall h | 0 <= h < k && ClearedAfter(tail, h) ensures tail[k].received - tail[h].received >= delay {
      assert ClearedAfter(calls, h + |head|) && calls[h + |head|] == tail[h];
    }
    if |head| > 1 {
      assert ClearedAfter(calls, 0) && calls[0] == head[0];
    }
  }

  lemma RoundThenRestDue(head: seq<Call>, tail: seq<Call>, lastClear: int, next: int, delay: nat)
    requires RoundBefore(head, tail, lastClear, next, delay)
    requires ClearsWhenDue(tail, next, delay)
    ensures ClearsWhenDue(head + tail, lastClear, delay)
  {
    var calls := head + tail;
    ClearedAfterJoin(head, tail, lastClear, next, delay);
    forall i | 0 <= i < |calls| && IsPoll(calls[i]) && IdleButNotEmpty(calls[i]) && ClearDue(calls, i, lastClear, delay)
      ensures ClearedAfter(calls, i)
    {
      if i >= |head| {
        DueInTail(head, tail, lastClear, next, delay, i);
        assert calls[i] == tail[i - |head|];
      } else {
        assert calls[i] == head[i];
      }
    }
  }

  lemma RoundThenRestClears(head: seq<Call>, tail: seq<Call>, lastClear: int, next: int, delay: nat)
    requires RoundBefore(head, tail, lastClear, next, delay)
    requires ClearsSpaced(tail, next, delay) && ClearsWhenDue(tail, next, delay)
    ensures ClearsSpaced(head + tail, lastClear, delay) && ClearsWhenDue(head + tail, lastClear, delay)
  {
    RoundThenRestSpaced(head, tail, lastClear, next, delay);
    RoundThenRestDue(head, tail, lastClear, next, delay);
  }

  /**
   * While waiting, the client clears the workspace exactly when a poll finds
   * documents none of which are processing and at least `clear_interval`
   * has passed since its previous clear.
   */
  lemma {:induction false} EnsureEmptyClears(server: Server, cfg: Config, link: Link, start: nat, lastClear: int)
    ensures var r := EnsureEmptyFrom(server, cfg, link, start, lastClear);
            var calls := NewCalls(link, r.1);
            ClearsSpaced(calls, lastClear, RetryDelay(cfg)) && ClearsWhenDue(calls, lastClear, RetryDelay(cfg))
    decreases Remaining(start + cfg.workspaceTimeout * MillisPerSecond, link.clock)
  {
    var (counts, polled) := GetStatusCounts(server, link);
    if counts.Err? || SumCounts(counts.value) == 0 || polled.clock - start > cfg.workspaceTimeout * MillisPerSecond {
      EnsureEmptyClearsLast(server, cfg, link, start, lastClear);
    } else {
      var r := EnsureEmptyFrom(server, cfg, link, start, lastClear);
      var calls := NewCalls(link, r.1);
      var now := polled.clock;
      var clear := ProcessingCount(counts.value) == 0 && now - lastClear >= RetryDelay(cfg);
      var cleared := if clear then ClearDocuments(server, cfg, polled) else polled;
      var head := NewCalls(link, cleared);
      var next := if clear then now else lastClear;
      var slept := Sleep(cleared, cfg.pollInterval * MillisPerSecond);
      var rest := EnsureEmptyFrom(server, cfg, slept, start, next);
      var tail := NewCalls(slept, rest.1);
      EnsureEmptyClears(server, cfg, slept, start, next);
      EnsureEmptyTraffic(server, cfg, slept, start, next);
      RoundClears(server, cfg, link, lastClear, tail);
      ExtendsTrans(link, cleared, slept);
      ExtendsTrans(link, slept, rest.1);
      assert calls == head + tail;
      RoundThenRestClears(head, tail, lastClear, next, RetryDelay(cfg));
    }
  }

  /** The last round of the loop, which finds the workspace empty, fails to poll, or times out. */
  lemma EnsureEmptyClearsLast(server: Server, cfg: Config, link: Link, start: nat, lastClear: int)
    requires var (counts, polled) := GetStatusCounts(server, link);
             counts.Err? || SumCounts(counts.value) == 0 || polled.clock - start > cfg.workspaceTimeout * MillisPerSecond
    ensures var r := EnsureEmptyFrom(server, cfg, link, start, lastClear);
            var calls := NewCalls(link, r.1);
            ClearsSpaced(calls, lastClear, RetryDelay(cfg)) && ClearsWhenDue(calls, lastClear, RetryDelay(cfg))
  {
    var (counts, polled) := GetStatusCounts(server, link);
    var delay := RetryDelay(cfg);
    if counts.Err? || SumCounts(counts.value) == 0 {
      var calls := NewCalls(link, polled);
      assert calls == calls + [];
      RoundThenRestClears(calls, [], lastClear, lastClear, delay);
    } else {
      var clear := ProcessingCount(counts.value) == 0 && polled.clock - lastClear >= delay;
      var cleared := if clear then ClearDocuments(server, cfg, polled) else polled;
      var head := NewCalls(link, cleared);
      RoundClears(server, cfg, link, lastClear, []);
      assert head == head + [];
      RoundThenRestClears(head, [], lastClear, if clear then polled.clock else lastClear, delay);
    }
  }

  /** A round that found documents: a poll, then a clear exactly when none were processing and one was due. */
  lemma RoundClears(server: Server, cfg: Config, link: Link, lastClear: int, tail: seq<Call>)
    requires var (counts, _) := GetStatusCounts(server, link); counts.Ok? && SumCounts(counts.value) != 0
    requires tail == [] || IsPoll(tail[0])
    ensures var (counts, polled) := GetStatusCounts(server, link);
            var clear := ProcessingCount(counts.value) == 0 && polled.clock - lastClear >= RetryDelay(cfg);
            var cleared := if clear then ClearDocuments(server, cfg, polled) else polled;
            RoundBefore(NewCalls(link, cleared), tail, lastClear, if clear then polled.clock else lastClear, RetryDelay(cfg))
  {
    var (counts, polled) := GetStatusCounts(server, link);
    var clear := ProcessingCount(counts.value) == 0 && polled.clock - lastClear >= RetryDelay(cfg);
    var cleared := if clear then ClearDocuments(server, cfg, polled) else polled;
    RoundTraffic(server, cfg, link, clear);
    if clear {
      ClearDocumentsRun(server, cfg, polled);
      ExtendsTrans(link, polled, cleared);
    }
  }

  // ---------------------------------------------------------------------
  // insert_text

  /**
   * The track id in the reply to POST /documents/text: `track_id`, else
   * `data.track_id`; a reply without a truthy one is an error.
   */
  function DecodeTrackId(reply: Reply): (r: Result<Value, Failure>)
    ensures r.Ok? ==> PyTruthy(r.value)
    ensures reply.Json? && reply.body.Dict? && PyTruthy(Get(reply.body.entries, "track_id")) ==>
              r == Ok(Get(reply.body.entries, "track_id"))
    ensures (reply.Json? && !reply.body.Dict?) ==> r == Err(Crash)
    ensures !reply.Json? ==> r.Err? && r.error.GraphError?
  {
    match reply
    case Json(data) =>
      if !data.Dict? then Err(Crash)
      else
        var direct := Get(data.entries, "track_id");
        if PyTruthy(direct) then Ok(direct)
        else
          var inner := GetOr(data.entries, "data", Dict([]));
          if !inner.Dict? then Err(Crash)
          else
            var nested := Get(inner.entries, "track_id");
            if PyTruthy(nested) then Ok(nested) else Err(GraphError(MissingTrackId))
    case _ => Err(TransportFailure(reply))
  }

  /** `insert_text(text, file_source)`: the file source is sent only when non-empty. */
  function InsertText(server: Server, link: Link, text: string, fileSource: string): (r: (Result<Value, Failure>, Link))
    ensures Extends(link, r.1)
    ensures var req := PostText(text, if fileSource != "" then Some(fileSource) else None);
            NewCalls(link, r.1) == [Call(req, link.clock, r.1.clock, server.answer(|link.calls|, req).reply)]
            && r.0 == DecodeTrackId(server.answer(|link.calls|, req).reply)
  {
    var (reply, after) := Send(server, link, PostText(text, if fileSource != "" then Some(fileSource) else None));
    (DecodeTrackId(reply), after)
  }

  // ---------------------------------------------------------------------
  // wait_for_track_completion

  const CompletedStates: set<string> := {"PROCESSED", "PREPROCESSED"}
  const FailedStates: set<string> := {"FAILED", "ERROR"}

  /** The upper-cased status of a document, when it has a truthy one. */
  function StatusOf(doc: Value): Option<string> {
    if doc.Dict? && Get(doc.entries, "status").Str? && Get(doc.entries, "status").s != ""
    then Some(Upper(Get(doc.entries, "status").s)) else None
  }

  /** A document Python can read a status from without raising. */
  predicate Readable(doc: Value) {
    doc.Dict? && (PyTruthy(Get(doc.entries, "status")) ==> Get(doc.entries, "status").Str?)
  }

  /** The set of upper-cased truthy statuses of the documents, or None where Python raises. */
  function DocumentStatuses(docs: seq<Value>): (r: Option<set<string>>)
    ensures r.Some? <==> forall k :: 0 <= k < |docs| ==> Readable(docs[k])
    ensures r.Some? ==> forall st :: st in r.value <==> exists k :: 0 <= k < |docs| && StatusOf(docs[k]) == Some(st)
  {
    if docs == [] then Some({})
    else
      var rest := DocumentStatuses(docs[1..]);
      assert forall k :: 1 <= k < |docs| ==> docs[1..][k - 1] == docs[k];
      if !Readable(docs[0]) || rest.None? then None
      else Some((if StatusOf(docs[0]).Some? then {StatusOf(docs[0]).value} else {}) + rest.value)
  }

  datatype TrackPoll = Completed(documents: seq<Value>) | DocumentFailed(documents: seq<Value>) | StillRunning | PollFailed(failure: Failure)

  /**
   * One poll of the track status: done when every reported status is
   * PROCESSED or PREPROCESSED (and there is at least one), failed when one of
   * them is FAILED or ERROR, otherwise still running.
   */
  function DecodeTrack(reply: Reply): (r: TrackPoll)
    ensures r.Completed? ==>
              r.documents != []
              && (forall k :: 0 <= k < |r.documents| ==>
                    Readable(r.documents[k]) && (StatusOf(r.documents[k]).Some? ==> StatusOf(r.documents[k]).value in CompletedStates))
              && exists k :: 0 <= k < |r.documents| && StatusOf(r.documents[k]).Some?
    ensures r.DocumentFailed? ==>
              exists k :: 0 <= k < |r.documents| && StatusOf(r.documents[k]).Some? && StatusOf(r.documents[k]).value in FailedStates
    ensures !reply.Json? ==> r.PollFailed? && r.failure.GraphError?
  {
    match reply
    case Json(data) =>
      if !data.Dict? then PollFailed(Crash)
      else
        var direct := Get(data.entries, "documents");
        var inner := GetOr(data.entries, "data", Dict([]));
        if !PyTruthy(direct) && !inner.Dict? then PollFailed(Crash)
        else
          var documents := if PyTruthy(direct) then direct else PyOr(Get(inner.entries, "documents"), List([]));
          if !PyTruthy(documents) then StillRunning
          else if !documents.List? then PollFailed(Crash)
          else
            var statuses := DocumentStatuses(documents.items);
            if statuses.None? then PollFailed(Crash)
            else if statuses.value != {} && statuses.value <= CompletedStates then
              var st :| st in statuses.value;
              Completed(documents.items)
            else if statuses.value * FailedStates != {} then
              var st :| st in statuses.value * FailedStates;
              DocumentFailed(documents.items)
            else StillRunning
    case _ => PollFailed(TransportFailure(reply))
  }

  /** What a final track poll makes of the wait. */
  function TrackVerdict(poll: TrackPoll): Result<seq<Value>, Failure> {
    match poll
    case Completed(docs) => Ok(docs)
    case DocumentFailed(_) => Err(GraphError(TrackFailed))
    case PollFailed(f) => Err(f)
    case StillRunning => Err(GraphError(TrackTimeout))
  }

  /** The polling loop of `wait_for_track_completion` for `GET /documents/track_status/{path}`. */
  function TrackFrom(server: Server, cfg: Config, link: Link, path: string, start: nat): (r: (Result<seq<Value>, Failure>, Link))
    ensures Extends(link, r.1)
    ensures r.0.Ok? ==> r.0.value != [] && forall k :: 0 <= k < |r.0.value| ==> r.0.value[k].Dict?
    decreases Remaining(start + cfg.trackTimeout * MillisPerSecond, link.clock)
  {
    var (reply, polled) := Send(server, link, TrackStatus(path));
    var poll := DecodeTrack(reply);
    if !poll.StillRunning? || polled.clock - start > cfg.trackTimeout * MillisPerSecond then (TrackVerdict(poll), polled)
    else
      var slept := Sleep(polled, cfg.pollInterval * MillisPerSecond);
      var r := TrackFrom(server, cfg, slept, path, start);
      ExtendsTrans(link, polled, slept);
      ExtendsTrans(link, slept, r.1);
      r
  }

  /** `wait_for_track_completion(track_id)`: the id goes into the path as `str(track_id)`. */
  function WaitForTrackCompletion(server: Server, cfg: Config, link: Link, trackId: Value): (r: (Result<seq<Value>, Failure>, Link))
    ensures Extends(link, r.1)
    ensures r.0.Ok? ==> r.0.value != [] && forall k :: 0 <= k < |r.0.value| ==> r.0.value[k].Dict?
  {
    TrackFrom(server, cfg, link, Render(trackId), link.clock)
  }

  /**
   * The track wait polls the same path over and over; every poll but the
   * last found the documents still running within the timeout, and the last
   * poll decides: completed documents, a failed document, an error, or a
   * timeout once the elapsed time exceeds `track_timeout`.
   */
  lemma {:induction false} TrackOutcome(server: Server, cfg: Config, link: Link, path: string, start: nat)
    ensures var r := TrackFrom(server, cfg, link, path, start);
            var calls := NewCalls(link, r.1);
            var last := calls[|calls| - 1];
            |calls| >= 1
            && (forall k :: 0 <= k < |calls| ==> calls[k].request == TrackStatus(path))
            && (forall k :: 0 <= k < |calls| - 1 ==>
                  DecodeTrack(calls[k].reply).StillRunning? && calls[k].received - start <= cfg.trackTimeout * MillisPerSecond)
            && r.0 == TrackVerdict(DecodeTrack(last.reply))
            && (DecodeTrack(last.reply).StillRunning? ==> last.received - start > cfg.trackTimeout * MillisPerSecond)
    decreases Remaining(start + cfg.trackTimeout * MillisPerSecond, link.clock)
  {
    var (reply, polled) := Send(server, link, TrackStatus(path));
    var poll := DecodeTrack(reply);
    if poll.StillRunning? && polled.clock - start <= cfg.trackTimeout * MillisPerSecond {
      var slept := Sleep(polled, cfg.pollInterval * MillisPerSecond);
      var r := TrackFrom(server, cfg, slept, path, start);
      TrackOutcome(server, cfg, slept, path, start);
      ExtendsTrans(link, polled, slept);
      ExtendsTrans(link, slept, r.1);
      var tail := NewCalls(slept, r.1);
      assert NewCalls(link, r.1) == NewCalls(link, polled) + tail;
      assert forall k :: 1 <= k < |tail| + 1 ==> NewCalls(link, r.1)[k] == tail[k - 1];
    }
  }

  // ---------------------------------------------------------------------
  // fetch_graph_data

  /** The truthy elements, in order. */
  function TruthyOnly(xs: seq<Value>): (r: seq<Value>)
    ensures forall x :: x in r <==> x in xs && PyTruthy(x)
    ensures |r| <= |xs|
  {
    if xs == [] then []
    else (if PyTruthy(xs[0]) then [xs[0]] else []) + TruthyOnly(xs[1..])
  }

  /** What `list.extend` iterates over: None where Python raises TypeError. */
  function Iterate(v: Value): (r: Option<seq<Value>>)
    ensures v.List? ==> r == Some(v.items)
    ensures v.Int? || v.Bool? || v.Null? ==> r.None?
  {
    match v
    case List(items) => Some(items)
    case Str(s) => Some(seq(|s|, k requires 0 <= k < |s| => Str([s[k]])))
    case Dict(entries) => Some(seq(|entries|, k requires 0 <= k < |entries| => Str(entries[k].0)))
    case _ => None
  }

  /** The labels the label list reply adds; request errors are swallowed. */
  function DecodeLabels(reply: Reply): (r: Option<seq<Value>>)
    ensures !reply.Json? ==> r == Some([])
  {
    match reply
    case Json(data) =>
      (match data
       case Dict(entries) => Iterate(PyOr(Get(entries, "labels"), List([])))
       case List(items) => Some(items)
       case _ => Some([]))
    case _ => Some([])
  }

  /**
   * `_resolve_graph_labels(doc_id)`: "*" first, then the labels the server
   * lists for the document (asked only when there is a document id), keeping
   * the truthy ones.
   */
  function ResolveGraphLabels(server: Server, link: Link, docId: Value): (r: (Result<seq<Value>, Failure>, Link))
    ensures Extends(link, r.1)
    ensures r.0.Ok? ==> |r.0.value| >= 1 && r.0.value[0] == Str("*") && forall x :: x in r.0.value ==> PyTruthy(x)
    ensures !PyTruthy(docId) ==> r == (Ok([Str("*")]), link)
    ensures r.0.Err? ==> r.0.error == Crash
  {
    if !PyTruthy(docId) then (Ok([Str("*")]), link)
    else
      var (reply, after) := Send(server, link, LabelList(docId));
      var extra := DecodeLabels(reply);
      if extra.None? then (Err(Crash), after)
      else
        var labels := TruthyOnly([Str("*")] + extra.value);
        assert labels == [Str("*")] + TruthyOnly(extra.value);
        (Ok(labels), after)
  }

  /** The graph in a `GET /graphs` reply: its `graph` object when there is one, otherwise the whole body. */
  function DecodeGraph(reply: Reply): (r: Result<Value, Failure>)
    ensures !reply.Json? ==> r.Err? && r.error.GraphError?
    ensures reply.Json? && reply.body.Dict? ==> r.Ok?
    ensures reply.Json? && reply.body.Dict? ==>
              var g := Lookup(reply.body.entries, "graph");
              r == Ok(if g.Some? && g.value.Dict? then g.value else reply.body)
  {
    match reply
    case Json(data) =>
      (match data
       case Dict(entries) =>
         var g := Lookup(entries, "graph");
         if g.Some? && g.value.Dict? then Ok(g.value) else Ok(data)
       case List(items) => if Str("graph") in items then Err(Crash) else Ok(data)
       case Str(s) => if Contains(s, "graph") then Err(Crash) else Ok(data)
       case _ => Err(Crash))
    case _ => Err(TransportFailure(reply))
  }

  /** The document id parameter of `GET /graphs`, sent only when truthy. */
  function DocParam(docId: Value): Option<Value> {
    if PyTruthy(docId) then Some(docId) else None
  }

  /** The label loop of `fetch_graph_data` from label `i` on, with the labels `tried` so far. */
  function FetchFrom(server: Server, link: Link, docId: Value, labels: seq<Value>, i: nat, tried: seq<Value>): (r: (Result<Value, Failure>, Link))
    requires i <= |labels|
    ensures Extends(link, r.1)
    decreases |labels| - i
  {
    if i == |labels| then (Err(GraphError(if tried != [] then NoGraph(tried) else NoValidLabel)), link)
    else if !PyTruthy(labels[i]) then FetchFrom(server, link, docId, labels, i + 1, tried)
    else
      var (reply, after) := Send(server, link, FetchGraph(labels[i], DocParam(docId)));
      var graph := DecodeGraph(reply);
      if graph.Ok? || graph.error == Crash then (graph, after)
      else
        var r := FetchFrom(server, after, docId, labels, i + 1, tried + [labels[i]]);
        ExtendsTrans(link, after, r.1);
        r
  }

  /** `fetch_graph_data(doc_id, label_candidates)`. */
  function FetchGraphData(server: Server, link: Link, docId: Value, candidates: seq<string>): (r: (Result<Value, Failure>, Link))
    ensures Extends(link, r.1)
  {
    var (resolved, after) := ResolveGraphLabels(server, link, docId);
    if resolved.Err? then (Err(resolved.error), after)
    else
      var labels := resolved.value + seq(|candidates|, k requires 0 <= k < |candidates| => Str(candidates[k]));
      var r := FetchFrom(server, after, docId, labels, 0, []);
      ExtendsTrans(link, after, r.1);
      r
  }

  lemma TruthyOnlyStep(xs: seq<Value>, i: nat)
    requires i < |xs|
    ensures TruthyOnly(xs[i..]) == (if PyTruthy(xs[i]) then [xs[i]] else []) + TruthyOnly(xs[i + 1..])
  {
    assert xs[i..][1..] == xs[i + 1..];
  }

  /** The `GET /graphs` calls ask for the labels `wanted` in order. */
  predicate LabelsAsked(calls: seq<Call>, wanted: seq<Value>, docId: Value) {
    |calls| <= |wanted| && forall k :: 0 <= k < |calls| ==> calls[k].request == FetchGraph(wanted[k], DocParam(docId))
  }

  predicate FetchFailed(c: Call) {
    var g := DecodeGraph(c.reply);
    g.Err? && g.error.GraphError?
  }

  /** How the label loop ended: with the last reply's graph or crash, or with every wanted label tried and failed. */
  predicate FetchVerdict(calls: seq<Call>, wanted: seq<Value>, tried: seq<Value>, r: Result<Value, Failure>) {
    (forall k :: 0 <= k < |calls| - 1 ==> FetchFailed(calls[k]))
    && (r.Ok? || r == Err(Crash) ==> |calls| >= 1 && r == DecodeGraph(calls[|calls| - 1].reply))
    && (r.Err? && r.error.GraphError? ==>
          |calls| == |wanted| && (forall k :: 0 <= k < |calls| ==> FetchFailed(calls[k]))
          && r.error.reason == (if tried + wanted != [] then NoGraph(tried + wanted) else NoValidLabel))
  }

  lemma PrependFailedLabel(c: Call, tail: seq<Call>, name: Value, rest: seq<Value>, tried: seq<Value>, docId: Value, r: Result<Value, Failure>)
    requires FetchFailed(c) && c.request == FetchGraph(name, DocParam(docId))
    requires LabelsAsked(tail, rest, docId) && FetchVerdict(tail, rest, tried + [name], r)
    ensures LabelsAsked([c] + tail, [name] + rest, docId) && FetchVerdict([c] + tail, [name] + rest, tried, r)
  {
    var calls := [c] + tail;
    assert forall k :: 1 <= k < |calls| ==> calls[k] == tail[k - 1];
    assert tried + [name] + rest == tried + ([name] + rest);
  }

  /**
   * The label loop asks for the truthy labels one by one in priority order,
   * moves on only after an `EventGraphGenerationError`, returns the first
   * graph it gets, and when every label fails reports all the labels it tried.
   */
  lemma {:induction false} FetchOutcome(server: Server, link: Link, docId: Value, labels: seq<Value>, i: nat, tried: seq<Value>)
    requires i <= |labels|
    ensures FetchProgress(server, link, docId, labels, i, tried)
    decreases |labels| - i
  {
    if i == |labels| {
      FetchEnds(server, link, docId, labels, tried);
    } else {
      TruthyOnlyStep(labels, i);
      if !PyTruthy(labels[i]) {
        FetchOutcome(server, link, docId, labels, i + 1, tried);
        FetchSkips(server, link, docId, labels, i, tried);
      } else {
        var sent := Send(server, link, FetchGraph(labels[i], DocParam(docId)));
        var graph := DecodeGraph(sent.0);
        if graph.Ok? || graph.error == Crash {
          FetchStops(server, link, docId, labels, i, tried);
        } else {
          FetchOutcome(server, sent.1, docId, labels, i + 1, tried + [labels[i]]);
          FetchGoesOn(server, link, docId, labels, i, tried);
        }
      }
    }
  }

  /** The label loop from label `i` on asks for the truthy labels in order and ends as `FetchVerdict` says. */
  predicate FetchProgress(server: Server, link: Link, docId: Value, labels: seq<Value>, i: nat, tried: seq<Value>)
    requires i <= |labels|
  {
    var r := FetchFrom(server, link, docId, labels, i, tried);
    var calls := NewCalls(link, r.1);
    LabelsAsked(calls, TruthyOnly(labels[i..]), docId) && FetchVerdict(calls, TruthyOnly(labels[i..]), tried, r.0)
  }

  lemma FetchSkips(server: Server, link: Link, docId: Value, labels: seq<Value>, i: nat, tried: seq<Value>)
    requires i < |labels| && !PyTruthy(labels[i])
    requires TruthyOnly(labels[i..]) == TruthyOnly(labels[i + 1..])
    requires FetchProgress(server, link, docId, labels, i + 1, tried)
    ensures FetchProgress(server, link, docId, labels, i, tried)
  {
  }

  lemma FetchEnds(server: Server, link: Link, docId: Value, labels: seq<Value>, tried: seq<Value>)
    ensures FetchProgress(server, link, docId, labels, |labels|, tried)
  {
    assert labels[|labels|..] == [];
    assert tried + [] == tried;
  }

  lemma FetchStops(server: Server, link: Link, docId: Value, labels: seq<Value>, i: nat, tried: seq<Value>)
    requires i < |labels| && PyTruthy(labels[i])
    requires var (reply, _) := Send(server, link, FetchGraph(labels[i], DocParam(docId)));
             DecodeGraph(reply).Ok? || DecodeGraph(reply).error == Crash
    requires TruthyOnly(labels[i..]) == [labels[i]] + TruthyOnly(labels[i + 1..])
    ensures FetchProgress(server, link, docId, labels, i, tried)
  {
  }

  lemma FetchGoesOn(server: Server, link: Link, docId: Value, labels: seq<Value>, i: nat, tried: seq<Value>)
    requires i < |labels| && PyTruthy(labels[i])
    requires var (reply, _) := Send(server, link, FetchGraph(labels[i], DocParam(docId)));
             DecodeGraph(reply).Err? && DecodeGraph(reply).error.GraphError?
    requires TruthyOnly(labels[i..]) == [labels[i]] + TruthyOnly(labels[i + 1..])
    requires FetchProgress(server, Send(server, link, FetchGraph(labels[i], DocParam(docId))).1, docId, labels, i + 1, tried + [labels[i]])
    ensures FetchProgress(server, link, docId, labels, i, tried)
  {
    var (reply, after) := Send(server, link, FetchGraph(labels[i], DocParam(docId)));
    var r := FetchFrom(server, after, docId, labels, i + 1, tried + [labels[i]]);
    ExtendsTrans(link, after, r.1);
    var c := NewCalls(link, after)[0];
    assert FetchFrom(server, link, docId, labels, i, tried) == r;
    assert NewCalls(link, r.1) == [c] + NewCalls(after, r.1);
    PrependFailedLabel(c, NewCalls(after, r.1), labels[i], TruthyOnly(labels[i + 1..]), tried, docId, r.0);
  }

  // ---------------------------------------------------------------------
  // query_summary

  /** The summary in a `/query` reply: `response`, else `data`. */
  function DecodeSummary(reply: Reply): (r: Result<Value, Failure>)
    ensures !reply.Json? ==> r.Err? && r.error.GraphError?
    ensures reply.Json? && reply.body.Dict? && PyTruthy(Get(reply.body.entries, "response")) ==>
              r == Ok(Get(reply.body.entries, "response"))
    ensures reply.Json? && !reply.body.Dict? ==> r == Err(Crash)
  {
    match reply
    case Json(data) =>
      if data.Dict? then Ok(PyOr(Get(data.entries, "response"), Get(data.entries, "data"))) else Err(Crash)
    case _ => Err(TransportFailure(reply))
  }

  /** `query_summary(prompt)`. */
  function QuerySummary(server: Server, link: Link, prompt: string): (r: (Result<Value, Failure>, Link))
    ensures Extends(link, r.1)
    ensures NewCalls(link, r.1) == [Call(Query(prompt), link.clock, r.1.clock, server.answer(|link.calls|, Query(prompt)).reply)]
    ensures r.0 == DecodeSummary(server.answer(|link.calls|, Query(prompt)).reply)
  {
    var (reply, after) := Send(server, link, Query(prompt));
    (DecodeSummary(reply), after)
  }
}
