/**
 * `EventGraphService` of `api/controllers/event_graph_service.py`: the
 * document, label candidates, file source and prompt built from an incident,
 * and the attempt loop of `generate_graph_bundle` over the LightRAG client.
 */
module EventGraph {
  import opened Wrappers
  import opened Text
  import opened Values
  import opened JsonStrings
  import opened Seqs
  import opened LightRag
  import opened GraphClient

  /** `_max_alerts`: the insert payload describes at most this many alerts. */
  const MaxAlerts := 10

  /**
   * `_stringify_value`: a value other than None or a string becomes its
   * `json.dumps(ensure_ascii=False)` text, in which control characters are
   * escaped and other characters are kept.
   */
  function StringifyValue(v: Value): (r: string)
    ensures v.Null? ==> r == ""
    ensures v.Str? ==> r == v.s
    ensures !v.Null? && !v.Str? ==> r == JsonDumps(v, false)
    ensures !v.Null? && !v.Str? ==> NoControl(r)
  {
    match v
    case Null => ""
    case Str(s) => s
    case _ =>
      JsonDumpsWritten(v, false);
      JsonDumps(v, false)
  }

  /** In a list, a backspace is escaped and a non-ASCII letter kept. */
  lemma StringifyValueEscapes()
    ensures StringifyValue(List([Str("\U{8}")])) == "[\"\\b\"]"
    ensures StringifyValue(List([Str("\U{E9}")])) == "[\"\U{E9}\"]"
  {
    EscapeBackspace(false);
    JsonDumpsSingleton(Str("\U{8}"), false);
    EscapeLatinSmallEAcute();
    JsonDumpsSingleton(Str("\U{E9}"), false);
  }

  // ---------------------------------------------------------------------
  // _build_file_source

  function BuildFileSource(incident: Entries): (r: string)
    ensures |r| >= 10 && r[..10] == "incident::"
    ensures PyTruthy(Get(incident, "id")) ==> r[10..] == Render(Get(incident, "id"))
    ensures !PyTruthy(Get(incident, "id")) && PyTruthy(Get(incident, "incident_id")) ==>
              r[10..] == Render(Get(incident, "incident_id"))
    ensures !PyTruthy(Get(incident, "id")) && !PyTruthy(Get(incident, "incident_id")) ==> r == "incident::unknown"
  {
    "incident::" + Render(PyOr(PyOr(Get(incident, "id"), Get(incident, "incident_id")), Str("unknown")))
  }

  // ---------------------------------------------------------------------
  // _build_graph_label_candidates

  /** Every entry is a non-empty string with no whitespace at either end. */
  predicate CleanLabels(s: seq<string>) {
    forall k :: 0 <= k < |s| ==> s[k] != "" && IsStripped(s[k])
  }

  lemma CleanLabelsAppend(a: seq<string>, b: seq<string>)
    requires CleanLabels(a) && CleanLabels(b)
    ensures CleanLabels(a + b)
  {
    assert forall k :: |a| <= k < |a + b| ==> (a + b)[k] == b[k - |a|];
  }

  /** What `add(value)` appends: the stripped `str(value)` of a truthy value, when non-empty. */
  function Candidate(v: Value): (r: seq<string>)
    ensures |r| <= 1 && CleanLabels(r)
    ensures r != [] <==> PyTruthy(v) && Strip(Render(v)) != ""
  {
    if PyTruthy(v) && Strip(Render(v)) != "" then [Strip(Render(v))] else []
  }

  /** The candidates taken from the incident's own fields. */
  function IncidentCandidates(incident: Entries): (r: seq<string>)
    ensures CleanLabels(r)
  {
    var a := Candidate(Get(incident, "title"));
    var b := Candidate(Get(incident, "name"));
    var c := Candidate(Get(incident, "id"));
    var d := Candidate(Get(incident, "incident_id"));
    CleanLabelsAppend(a, b);
    CleanLabelsAppend(a + b, c);
    CleanLabelsAppend(a + b + c, d);
    a + b + c + d
  }

  /** The candidates one alert adds: its title, then its id. */
  function AlertPair(alert: Entries): (r: seq<string>)
    ensures CleanLabels(r)
  {
    var t := Candidate(Get(alert, "title"));
    var i := Candidate(Get(alert, "id"));
    CleanLabelsAppend(t, i);
    t + i
  }

  /** The candidates taken from the alerts' titles and ids, alert by alert. */
  function AlertCandidates(alerts: seq<Entries>): (r: seq<string>)
    ensures CleanLabels(r)
  {
    if alerts == [] then []
    else
      var init := AlertCandidates(alerts[..|alerts| - 1]);
      var pair := AlertPair(alerts[|alerts| - 1]);
      CleanLabelsAppend(init, pair);
      init + pair
  }

  const FallbackLabels: seq<string> := ["incident", "event", "alert"]

  /** The candidate list before de-duplication. */
  function RawCandidates(incident: Entries, alerts: seq<Entries>): seq<string> {
    IncidentCandidates(incident) + AlertCandidates(alerts) + FallbackLabels
  }

  /** The candidates `_build_graph_label_candidates` returns. */
  function LabelCandidates(incident: Entries, alerts: seq<Entries>): seq<string> {
    Dedup(RawCandidates(incident, alerts))
  }

  lemma FallbackClean(prefix: seq<string>)
    requires CleanLabels(prefix)
    ensures var raw := prefix + FallbackLabels;
            CleanLabels(raw) && |raw| >= 3
            && raw[|raw| - 3] == "incident" && raw[|raw| - 2] == "event" && raw[|raw| - 1] == "alert"
  {
    assert IsStripped("incident") && IsStripped("event") && IsStripped("alert");
    assert CleanLabels(FallbackLabels);
    CleanLabelsAppend(prefix, FallbackLabels);
  }

  lemma RawCandidatesClean(incident: Entries, alerts: seq<Entries>)
    ensures var raw := RawCandidates(incident, alerts);
            CleanLabels(raw) && |raw| >= 3
            && raw[|raw| - 3] == "incident" && raw[|raw| - 2] == "event" && raw[|raw| - 1] == "alert"
  {
    var a := IncidentCandidates(incident);
    var b := AlertCandidates(alerts);
    CleanLabelsAppend(a, b);
    FallbackClean(a + b);
  }

  lemma DedupClean(raw: seq<string>)
    requires CleanLabels(raw)
    ensures CleanLabels(Dedup(raw))
  {
    DedupElements(raw);
    var r := Dedup(raw);
    forall k | 0 <= k < |r| ensures r[k] != "" && IsStripped(r[k]) {
      assert r[k] in r;
    }
  }

  /**
   * The label candidates are the values collected, each once, in the order of
   * their first occurrence; they are non-empty stripped strings and always
   * include the three fall-back labels.
   */
  lemma LabelCandidatesShape(incident: Entries, alerts: seq<Entries>)
    ensures var raw := RawCandidates(incident, alerts);
            var r := LabelCandidates(incident, alerts);
            NoDup(r)
            && (forall x :: x in r <==> x in raw)
            && FirstOccurrenceOrder(r, raw)
            && CleanLabels(r)
            && "incident" in r && "event" in r && "alert" in r
  {
    var raw := RawCandidates(incident, alerts);
    RawCandidatesClean(incident, alerts);
    DedupClean(raw);
    DedupNoDup(raw);
    DedupElements(raw);
    DedupOrder(raw);
    assert "incident" in raw && "event" in raw && "alert" in raw;
  }

  lemma AlertCandidatesSnoc(alerts: seq<Entries>, k: nat)
    requires k < |alerts|
    ensures AlertCandidates(alerts[..k + 1]) == AlertCandidates(alerts[..k]) + AlertPair(alerts[k])
  {
    assert alerts[..k + 1][..k] == alerts[..k];
  }

  /** `_build_graph_label_candidates`: the candidates are appended, then filtered through a `seen` set. */
  method BuildGraphLabelCandidates(incident: Entries, alerts: seq<Entries>) returns (deduped: seq<string>)
    ensures deduped == LabelCandidates(incident, alerts)
  {
    var fromAlerts := [];
    for k := 0 to |alerts|
      invariant fromAlerts == AlertCandidates(alerts[..k])
    {
      AlertCandidatesSnoc(alerts, k);
      fromAlerts := fromAlerts + AlertPair(alerts[k]);
    }
    assert alerts[..|alerts|] == alerts;
    var candidates := IncidentCandidates(incident) + fromAlerts;
    candidates := candidates + FallbackLabels;
    deduped := DedupSeen(candidates);
  }

  /** The `seen`-set loop that ends `_build_graph_label_candidates`. */
  method DedupSeen(candidates: seq<string>) returns (deduped: seq<string>)
    ensures deduped == Dedup(candidates)
  {
    deduped := [];
    var seen: set<string> := {};
    for i := 0 to |candidates|
      invariant deduped == Dedup(candidates[..i])
      invariant forall x :: x in seen <==> x in candidates[..i]
    {
      assert candidates[..i + 1] == candidates[..i] + [candidates[i]];
      DedupSnoc(candidates[..i], candidates[i]);
      if candidates[i] !in seen {
        deduped := deduped + [candidates[i]];
        seen := seen + {candidates[i]};
      }
    }
    assert candidates[..|candidates|] == candidates;
  }

  // ---------------------------------------------------------------------
  // _build_insert_payload

  /** `", ".join(labels)` for a list, `labels or "-"` otherwise; None where `join` meets a non-string. */
  function LabelsText(labels: Value): Option<string> {
    if labels.List? then
      if forall k :: 0 <= k < |labels.items| ==> labels.items[k].Str? then
        Some(Join(", ", seq(|labels.items|, k requires 0 <= k < |labels.items| && labels.items[k].Str? => labels.items[k].s)))
      else None
    else Some(Render(PyOr(labels, Str("-"))))
  }

  /** A line added only when the field is truthy. */
  function OptionalLine(incident: Entries, key: string, caption: string): seq<string> {
    if PyTruthy(Get(incident, key)) then [caption + Render(Get(incident, key))] else []
  }

  /** The incident's fields as the payload renders them, and the optional owner lines. */
  datatype IncidentText = IncidentText(id: string, title: string, severity: string, status: string,
                                       labels: string, description: string, extras: seq<string>)

  /** The incident's rendered fields, or None where Python raises. */
  function RenderIncident(incident: Entries): (r: Option<IncidentText>)
    ensures r.Some? ==> NoAlertTitle(r.value.extras)
  {
    var labels := LabelsText(Get(incident, "labels"));
    if labels.None? then None
    else
      var a := OptionalLine(incident, "owner", "Owner: ");
      var b := OptionalLine(incident, "responsible_person", "Responsible Person: ");
      var c := OptionalLine(incident, "responsible_dept", "Responsible Department: ");
      OptionalLineNoTitle(incident, "owner", "Owner: ");
      OptionalLineNoTitle(incident, "responsible_person", "Responsible Person: ");
      OptionalLineNoTitle(incident, "responsible_dept", "Responsible Department: ");
      NoAlertTitleAppend(a, b);
      NoAlertTitleAppend(a + b, c);
      Some(IncidentText(Render(Get(incident, "id")),
                        Render(PyOr(PyOr(Get(incident, "title"), Get(incident, "name")), Str(""))),
                        Render(PyOr(Get(incident, "severity"), Str("-"))),
                        Render(PyOr(PyOr(Get(incident, "handle_status"), Get(incident, "status")), Str("-"))),
                        labels.value,
                        StringifyValue(Get(incident, "description")),
                        a + b + c))
  }

  /** The incident part of the payload. */
  function HeadLines(t: IncidentText): seq<string> {
    ["Incident ID: " + t.id, "Incident Title: " + t.title, "Incident Severity: " + t.severity,
     "Incident Status: " + t.status, "Incident Labels: " + t.labels, "Incident Description: " + t.description]
    + t.extras
  }

  /** The incident part of the payload, or None where Python raises. */
  function IncidentLines(incident: Entries): Option<seq<string>> {
    var t := RenderIncident(incident);
    if t.None? then None else Some(HeadLines(t.value))
  }

  /** The line that opens the description of the `idx`-th alert. */
  function TitleLine(idx: nat, title: string): string {
    "  Alert " + NatToString(idx) + " Title: " + title
  }

  /** An alert's fields as the payload renders them; `source` only when the field is truthy. */
  datatype AlertText = AlertText(title: string, severity: string, status: string, description: string,
                                 source: Option<string>)

  function RenderAlert(alert: Entries): AlertText {
    var source := Get(alert, "data_source_product_name");
    AlertText(Render(GetOr(alert, "title", Str("-"))), Render(GetOr(alert, "severity", Str("-"))),
              Render(GetOr(alert, "handle_status", Str("-"))), StringifyValue(Get(alert, "description")),
              if PyTruthy(source) then Some(Render(source)) else None)
  }

  /** The lines describing the `idx`-th alert. */
  function BlockLines(idx: nat, a: AlertText): seq<string> {
    [TitleLine(idx, a.title), "  Alert Severity: " + a.severity + ", Status: " + a.status]
    + (if a.description != "" then ["  Alert Description: " + a.description] else [])
    + (if a.source.Some? then ["  Data Source: " + a.source.value] else [])
    + [""]
  }

  function AlertBlock(alert: Entries, idx: nat): seq<string> {
    BlockLines(idx, RenderAlert(alert))
  }

  /** The blocks of `alerts`, numbered from `first`. */
  function AlertBlocks(alerts: seq<Entries>, first: nat): seq<string> {
    FlatMapFrom(AlertBlock, alerts, first)
  }

  /** The payload lines, or None where Python raises. */
  function PayloadLines(incident: Entries, alerts: seq<Entries>): Option<seq<string>> {
    var head := IncidentLines(incident);
    if head.None? then None
    else if alerts == [] then head
    else Some(head.value + ["Associated Alerts:"] + AlertBlocks(Take(alerts, MaxAlerts), 1))
  }

  /** The text `_build_insert_payload` returns, or None where Python raises. */
  function InsertPayload(incident: Entries, alerts: seq<Entries>): Option<string> {
    var lines := PayloadLines(incident, alerts);
    if lines.None? then None else Some(Strip(Join("\n", lines.value)))
  }

  /** A line that opens an alert's description: two spaces, "Alert ", then a digit. */
  predicate IsAlertTitle(line: string) {
    |line| > 8 && line[..8] == "  Alert " && IsDigit(line[8])
  }

  /** The alert-opening lines, in order. */
  function AlertTitles(lines: seq<string>): seq<string> {
    if lines == [] then []
    else AlertTitles(lines[..|lines| - 1]) + (if IsAlertTitle(lines[|lines| - 1]) then [lines[|lines| - 1]] else [])
  }

  lemma {:induction false} AlertTitlesAppend(a: seq<string>, b: seq<string>)
    ensures AlertTitles(a + b) == AlertTitles(a) + AlertTitles(b)
    decreases |b|
  {
    if b == [] {
      assert a + b == a;
    } else {
      AlertTitlesAppend(a, b[..|b| - 1]);
      assert (a + b)[..|a + b| - 1] == a + b[..|b| - 1];
    }
  }

  predicate NoAlertTitle(lines: seq<string>) {
    forall k :: 0 <= k < |lines| ==> !IsAlertTitle(lines[k])
  }

  lemma {:induction false} NoTitles(lines: seq<string>)
    requires NoAlertTitle(lines)
    ensures AlertTitles(lines) == []
    decreases |lines|
  {
    if lines != [] {
      NoTitles(lines[..|lines| - 1]);
    }
  }

  lemma NoAlertTitleAppend(a: seq<string>, b: seq<string>)
    requires NoAlertTitle(a) && NoAlertTitle(b)
    ensures NoAlertTitle(a + b)
  {
    assert forall k :: |a| <= k < |a + b| ==> (a + b)[k] == b[k - |a|];
  }

  /** A line whose caption does not begin like an alert title is not one. */
  lemma CaptionLine(caption: string, rest: string)
    requires (|caption| > 0 && caption[0] != ' ') || (|caption| > 8 && !IsDigit(caption[8]))
    ensures !IsAlertTitle(caption + rest)
  {
    var line := caption + rest;
    if |line| > 8 && line[..8] == "  Alert " {
      assert line[0] == ' ';
      assert |caption| > 8 ==> line[8] == caption[8];
    }
  }

  lemma TitleLineIsTitle(idx: nat, title: string)
    ensures IsAlertTitle(TitleLine(idx, title))
  {
    var ds := NatToString(idx);
    var line := TitleLine(idx, title);
    assert line == "  Alert " + (ds + " Title: " + title);
    assert line[..8] == "  Alert ";
    assert line[8] == ds[0];
  }

  lemma OptionalLineNoTitle(incident: Entries, key: string, caption: string)
    requires |caption| > 0 && caption[0] != ' '
    ensures NoAlertTitle(OptionalLine(incident, key, caption))
  {
    if PyTruthy(Get(incident, key)) {
      CaptionLine(caption, Render(Get(incident, key)));
    }
  }

  lemma HeadLinesNoTitle(t: IncidentText)
    requires NoAlertTitle(t.extras)
    ensures NoAlertTitle(HeadLines(t) + ["Associated Alerts:"])
  {
    CaptionLine("Incident ID: ", t.id);
    CaptionLine("Incident Title: ", t.title);
    CaptionLine("Incident Severity: ", t.severity);
    CaptionLine("Incident Status: ", t.status);
    CaptionLine("Incident Labels: ", t.labels);
    CaptionLine("Incident Description: ", t.description);
    var six := ["Incident ID: " + t.id, "Incident Title: " + t.title, "Incident Severity: " + t.severity,
                "Incident Status: " + t.status, "Incident Labels: " + t.labels, "Incident Description: " + t.description];
    assert NoAlertTitle(six);
    CaptionLine("Associated Alerts:", "");
    assert "Associated Alerts:" + "" == "Associated Alerts:";
    assert NoAlertTitle(["Associated Alerts:"]);
    NoAlertTitleAppend(six, t.extras);
    NoAlertTitleAppend(six + t.extras, ["Associated Alerts:"]);
  }

  /** Only the first line of an alert's block opens an alert. */
  lemma BlockLinesTitles(idx: nat, a: AlertText)
    ensures AlertTitles(BlockLines(idx, a)) == [TitleLine(idx, a.title)]
  {
    var head := [TitleLine(idx, a.title)];
    var second := ["  Alert Severity: " + a.severity + ", Status: " + a.status];
    var third: seq<string> := if a.description != "" then ["  Alert Description: " + a.description] else [];
    var fourth: seq<string> := if a.source.Some? then ["  Data Source: " + a.source.value] else [];
    var rest := second + third + fourth + [""];
    assert BlockLines(idx, a) == head + rest;
    CaptionLine("  Alert Severity: ", a.severity + ", Status: " + a.status);
    assert "  Alert Severity: " + a.severity + ", Status: " + a.status == "  Alert Severity: " + (a.severity + ", Status: " + a.status);
    assert NoAlertTitle(second);
    if a.description != "" {
      CaptionLine("  Alert Description: ", a.description);
    }
    assert NoAlertTitle(third);
    if a.source.Some? {
      CaptionLine("  Data Source: ", a.source.value);
    }
    assert NoAlertTitle(fourth);
    assert NoAlertTitle([""]);
    NoAlertTitleAppend(second, third);
    NoAlertTitleAppend(second + third, fourth);
    NoAlertTitleAppend(second + third + fourth, [""]);
    NoTitles(rest);
    TitleLineIsTitle(idx, a.title);
    assert AlertTitles(head) == head by { assert head[..0] == []; }
    AlertTitlesAppend(head, rest);
  }

  /** The title lines of `alerts`, numbered from `first`. */
  function NumberedTitles(alerts: seq<Entries>, first: nat): (r: seq<string>)
    ensures |r| == |alerts|
  {
    if alerts == [] then []
    else NumberedTitles(alerts[..|alerts| - 1], first) + [TitleLine(first + |alerts| - 1, RenderAlert(alerts[|alerts| - 1]).title)]
  }

  /** The `k`-th title line names alert `k` with the number `first + k`. */
  lemma {:induction false} NumberedTitlesAt(alerts: seq<Entries>, first: nat, k: nat)
    requires k < |alerts|
    ensures NumberedTitles(alerts, first)[k] == TitleLine(first + k, RenderAlert(alerts[k]).title)
    decreases |alerts|
  {
    if k < |alerts| - 1 {
      NumberedTitlesAt(alerts[..|alerts| - 1], first, k);
    }
  }

  /** The blocks of `alerts` open with one title line each, numbered consecutively from `first`. */
  lemma {:induction false} AlertBlocksTitles(alerts: seq<Entries>, first: nat)
    ensures AlertTitles(AlertBlocks(alerts, first)) == NumberedTitles(alerts, first)
    decreases |alerts|
  {
    if alerts != [] {
      var n := |alerts| - 1;
      AlertBlocksTitles(alerts[..n], first);
      FlatMapFromPrefix(AlertBlock, alerts, n, first);
      assert alerts[..n + 1] == alerts;
      AlertTitlesAppend(AlertBlocks(alerts[..n], first), AlertBlock(alerts[n], first + n));
      BlockLinesTitles(first + n, RenderAlert(alerts[n]));
    }
  }

  lemma SectionTitles(t: IncidentText, shown: seq<Entries>)
    requires NoAlertTitle(t.extras)
    ensures AlertTitles(HeadLines(t)) == []
    ensures AlertTitles(HeadLines(t) + ["Associated Alerts:"] + AlertBlocks(shown, 1)) == NumberedTitles(shown, 1)
  {
    var head := HeadLines(t);
    HeadLinesNoTitle(t);
    NoTitles(head + ["Associated Alerts:"]);
    assert NoAlertTitle(head) by {
      assert forall k :: 0 <= k < |head| ==> head[k] == (head + ["Associated Alerts:"])[k];
    }
    NoTitles(head);
    AlertTitlesAppend(head + ["Associated Alerts:"], AlertBlocks(shown, 1));
    AlertBlocksTitles(shown, 1);
  }

  /**
   * The insert payload introduces at most `_max_alerts` alerts: one title line
   * for each of the first ten, numbered from 1 in list order, and no other.
   */
  lemma PayloadAlertTitles(incident: Entries, alerts: seq<Entries>)
    requires PayloadLines(incident, alerts).Some?
    ensures var shown := Take(alerts, MaxAlerts);
            |shown| <= MaxAlerts
            && AlertTitles(PayloadLines(incident, alerts).value) == NumberedTitles(shown, 1)
  {
    SectionTitles(RenderIncident(incident).value, Take(alerts, MaxAlerts));
  }

  /** `_build_insert_payload`: the parts are appended line by line. */
  method BuildInsertPayload(incident: Entries, alerts: seq<Entries>) returns (r: Result<string, Failure>)
    ensures InsertPayload(incident, alerts).Some? ==> r == Ok(InsertPayload(incident, alerts).value)
    ensures InsertPayload(incident, alerts).None? ==> r == Err(Crash)
  {
    var head := IncidentLines(incident);
    if head.None? {
      return Err(Crash);
    }
    var parts := head.value;
    if alerts != [] {
      parts := parts + ["Associated Alerts:"];
      var shown := Take(alerts, MaxAlerts);
      var blocks := [];
      for k := 0 to |shown|
        invariant blocks == AlertBlocks(shown[..k], 1)
      {
        FlatMapFromPrefix(AlertBlock, shown, k, 1);
        blocks := blocks + AlertBlock(shown[k], k + 1);
      }
      assert shown[..|shown|] == shown;
      parts := parts + blocks;
    }
    return Ok(Strip(Join("\n", parts)));
  }

  // ---------------------------------------------------------------------
  // _build_summary_prompt

  /**
   * Where the prompt comes from: the prompt file's entry for the site (None
   * when absent), the configured prompt, and the built-in default.
   */
  datatype PromptSources = PromptSources(fromFile: Value, configured: Value, fallback: string)

  function BasePrompt(src: PromptSources): string {
    Strip(Render(PyOr(PyOr(src.fromFile, src.configured), Str(src.fallback))))
  }

  /** `_build_summary_prompt`: a context header is appended, but never the context text itself. */
  function BuildSummaryPrompt(incident: Entries, context: string, src: PromptSources): (r: string)
    ensures Strip(context) == "" ==> r == BasePrompt(src)
    ensures Strip(context) != "" ==>
              r == BasePrompt(src) + "\n\nIncident Context (ID="
                   + Render(PyOr(PyOr(Get(incident, "id"), Get(incident, "incident_id")), Str("-"))) + "):\n"
  {
    var prompt := BasePrompt(src);
    var incidentId := PyOr(PyOr(Get(incident, "id"), Get(incident, "incident_id")), Str("-"));
    if Strip(context) != "" then prompt + "\n\nIncident Context (ID=" + Render(incidentId) + "):\n" else prompt
  }

  /** Two non-blank contexts give the same prompt: the context text does not reach the query. */
  lemma SummaryPromptIgnoresContext(incident: Entries, c1: string, c2: string, src: PromptSources)
    requires Strip(c1) != "" && Strip(c2) != ""
    ensures BuildSummaryPrompt(incident, c1, src) == BuildSummaryPrompt(incident, c2, src)
  {
  }

  // ---------------------------------------------------------------------
  // generate_graph_bundle

  datatype Bundle = Bundle(graph: Value, summary: Value)

  /** What one attempt sends: the built payload, label candidates, file source and prompt. */
  datatype Job = Job(payload: string, candidates: seq<string>, fileSource: string, prompt: string)

  /** How an attempt ended; a failed one records whether `insert_text` had succeeded (`has_documents`). */
  datatype AttemptResult = Succeeded(bundle: Bundle) | Failed(failure: Failure, hasDocuments: bool)

  /** The body of one attempt of `generate_graph_bundle`, up to its final `clear_documents`. */
  function Attempt(server: Server, cfg: Config, link: Link, job: Job): (r: (AttemptResult, Link))
    ensures Extends(link, r.1)
  {
    var (ready, l1) := EnsureWorkspaceEmpty(server, cfg, link);
    if ready.Err? then (Failed(ready.error, false), l1)
    else
      var r := FromInsert(server, cfg, l1, job);
      ExtendsTrans(link, l1, r.1);
      r
  }

  /** The rest of an attempt once the workspace is empty: `insert_text` onwards. */
  function FromInsert(server: Server, cfg: Config, link: Link, job: Job): (r: (AttemptResult, Link))
    ensures Extends(link, r.1)
  {
    var (track, l1) := InsertText(server, link, job.payload, job.fileSource);
    if track.Err? then (Failed(track.error, false), l1)
    else
      var r := FromTrack(server, cfg, l1, job, track.value);
      ExtendsTrans(link, l1, r.1);
      r
  }

  /** Python `len(v)` is defined on strings, lists and dicts and raises `TypeError` on anything else. */
  predicate HasLen(v: Value) {
    v.Str? || v.List? || v.Dict?
  }

  /**
   * The success log line takes `len(graph_data.get("nodes", []))` and the same
   * for "edges" when the graph is a dict; it raises when either has no length.
   */
  predicate LogLineRaises(graph: Value) {
    graph.Dict?
    && (!HasLen(GetOr(graph.entries, "nodes", List([]))) || !HasLen(GetOr(graph.entries, "edges", List([]))))
  }

  /**
   * The rest of an attempt once the document is in: from `wait_for_track_completion`
   * to the final clear. A raise on the success log line is not an
   * `EventGraphGenerationError`: it crashes before the clear.
   */
  function FromTrack(server: Server, cfg: Config, link: Link, job: Job, trackId: Value): (r: (AttemptResult, Link))
    ensures Extends(link, r.1)
    ensures r.0.Failed? ==> r.0.hasDocuments
    ensures r.0.Succeeded? ==> !LogLineRaises(r.0.bundle.graph)
  {
    var (docs, l1) := WaitForTrackCompletion(server, cfg, link, trackId);
    if docs.Err? then (Failed(docs.error, true), l1)
    else
      var docId := Get(docs.value[0].entries, "id");
      var (graph, l2) := FetchGraphData(server, l1, docId, job.candidates);
      ExtendsTrans(link, l1, l2);
      if graph.Err? then (Failed(graph.error, true), l2)
      else
        var (summary, l3) := QuerySummary(server, l2, job.prompt);
        ExtendsTrans(link, l2, l3);
        if summary.Err? then (Failed(summary.error, true), l3)
        else if LogLineRaises(graph.value) then (Failed(Crash, true), l3)
        else
          var l4 := ClearDocuments(server, cfg, l3);
          ExtendsTrans(link, l3, l4);
          (Succeeded(Bundle(graph.value, summary.value)), l4)
  }

  /** The clean-up after a failed attempt: the workspace is cleared only if the document went in. */
  function Cleanup(server: Server, cfg: Config, link: Link, hasDocuments: bool): (r: Link)
    ensures Extends(link, r)
  {
    if hasDocuments then ClearDocuments(server, cfg, link) else link
  }

  /** `max(1, max_retry_attempts)`, default 1. */
  function GenerateAttempts(cfg: Config): (n: nat)
    ensures n >= 1
  {
    var v := cfg.maxRetryAttempts.GetOr(1);
    if v < 1 then 1 else v
  }

  /**
   * Attempts `attempt..attempts`: the outcome, the transcript, and the number
   * of the last attempt made. Only `EventGraphGenerationError` is caught;
   * any other exception ends the loop at once, without clean-up.
   */
  function GenerateFrom(server: Server, cfg: Config, link: Link, job: Job, attempt: nat, attempts: nat): (r: (Result<Bundle, Failure>, Link, nat))
    requires 1 <= attempt <= attempts
    ensures Extends(link, r.1)
    ensures attempt <= r.2 <= attempts
    ensures r.0.Err? && r.0.error.GraphError? ==> r.2 == attempts
    decreases attempts - attempt
  {
    var (res, l1) := Attempt(server, cfg, link, job);
    if res.Succeeded? then (Ok(res.bundle), l1, attempt)
    else if res.failure == Crash then (Err(Crash), l1, attempt)
    else
      var l2 := Cleanup(server, cfg, l1, res.hasDocuments);
      ExtendsTrans(link, l1, l2);
      if attempt >= attempts then (Err(res.failure), l2, attempt)
      else
        var slept := Sleep(l2, cfg.pollInterval * MillisPerSecond);
        var r := GenerateFrom(server, cfg, slept, job, attempt + 1, attempts);
        ExtendsTrans(link, l2, slept);
        ExtendsTrans(link, slept, r.1);
        r
  }

  /** The job `generate_graph_bundle` builds, or a crash where building raises. */
  function BuildJob(incident: Entries, alerts: seq<Entries>, src: PromptSources): Option<Job> {
    var payload := InsertPayload(incident, alerts);
    if payload.None? then None
    else Some(Job(payload.value, LabelCandidates(incident, alerts), BuildFileSource(incident),
                  BuildSummaryPrompt(incident, payload.value, src)))
  }

  /** `generate_graph_bundle(incident_payload, associated_alerts)`. */
  function GenerateGraphBundle(server: Server, cfg: Config, link: Link, incident: Entries, alerts: seq<Entries>, src: PromptSources): (r: (Result<Bundle, Failure>, Link, nat))
    ensures Extends(link, r.1)
    ensures r.2 <= GenerateAttempts(cfg)
    ensures cfg.baseUrl == "" ==> r == (Err(GraphError(NotConfigured)), link, 0)
    ensures cfg.baseUrl != "" && BuildJob(incident, alerts, src).Some? ==> r.2 >= 1
  {
    if cfg.baseUrl == "" then (Err(GraphError(NotConfigured)), link, 0)
    else
      var job := BuildJob(incident, alerts, src);
      if job.None? then (Err(Crash), link, 0)
      else GenerateFrom(server, cfg, link, job.value, 1, GenerateAttempts(cfg))
  }

  /**
   * `insert_text` succeeded in this stretch of traffic: after the wait for an
   * empty workspace, the first other request was the POST of the document and
   * its reply carried a track id.
   */
  predicate InsertAccepted(calls: seq<Call>) {
    exists i :: 0 <= i < |calls| && WorkspaceTraffic(calls[..i])
                && calls[i].request.PostText? && DecodeTrackId(calls[i].reply).Ok?
  }

  /** In traffic that starts with the wait for an empty workspace, the first other call sits right after it. */
  lemma FirstAfterTraffic(t: seq<Call>, c: Call, rest: seq<Call>, i: nat)
    requires WorkspaceTraffic(t) && !IsPoll(c) && !IsDelete(c)
    requires i < |t + [c] + rest| && WorkspaceTraffic((t + [c] + rest)[..i])
    requires !IsPoll((t + [c] + rest)[i]) && !IsDelete((t + [c] + rest)[i])
    ensures i == |t|
  {
    var all := t + [c] + rest;
    assert all[|t|] == c;
    assert forall j :: 0 <= j < |t| ==> all[j] == t[j];
    assert forall j :: 0 <= j < i ==> all[..i][j] == all[j];
  }

  lemma NotAcceptedYet(t: seq<Call>)
    requires WorkspaceTraffic(t)
    ensures !InsertAccepted(t)
  {
  }

  lemma AcceptedAt(t: seq<Call>, c: Call, rest: seq<Call>)
    requires WorkspaceTraffic(t) && c.request.PostText?
    ensures InsertAccepted(t + [c] + rest) <==> DecodeTrackId(c.reply).Ok?
  {
    var all := t + [c] + rest;
    assert all[..|t|] == t && all[|t|] == c;
    if InsertAccepted(all) {
      var i :| 0 <= i < |all| && WorkspaceTraffic(all[..i]) && all[i].request.PostText? && DecodeTrackId(all[i].reply).Ok?;
      FirstAfterTraffic(t, c, rest, i);
    }
  }

  lemma FromInsertFlag(server: Server, cfg: Config, link: Link, job: Job)
    ensures var (res, after) := FromInsert(server, cfg, link, job);
            var calls := NewCalls(link, after);
            |calls| >= 1 && calls[0].request.PostText?
            && ((res.Succeeded? || res.hasDocuments) <==> DecodeTrackId(calls[0].reply).Ok?)
  {
    var (track, l1) := InsertText(server, link, job.payload, job.fileSource);
    if track.Ok? {
      var r := FromTrack(server, cfg, l1, job, track.value);
      ExtendsTrans(link, l1, r.1);
    }
  }

  /**
   * The `has_documents` flag of an attempt is exactly whether `insert_text`
   * succeeded in it; a successful attempt always inserted its document.
   */
  lemma AttemptInsertFlag(server: Server, cfg: Config, link: Link, job: Job)
    ensures var (res, after) := Attempt(server, cfg, link, job);
            InsertAccepted(NewCalls(link, after)) <==> (res.Succeeded? || res.hasDocuments)
  {
    var (ready, l1) := EnsureWorkspaceEmpty(server, cfg, link);
    EnsureEmptyTraffic(server, cfg, link, link.clock, 0);
    if ready.Err? {
      NotAcceptedYet(NewCalls(link, l1));
    } else {
      InsertFlagAfterEmpty(server, cfg, link, l1, job);
    }
  }

  /** Once the traffic so far is the wait for an empty workspace, the insert decides the flag. */
  lemma InsertFlagAfterEmpty(server: Server, cfg: Config, link: Link, l1: Link, job: Job)
    requires Extends(link, l1) && WorkspaceTraffic(NewCalls(link, l1))
    ensures var (res, after) := FromInsert(server, cfg, l1, job);
            Extends(link, after)
            && (InsertAccepted(NewCalls(link, after)) <==> (res.Succeeded? || res.hasDocuments))
  {
    var r := FromInsert(server, cfg, l1, job);
    FromInsertFlag(server, cfg, l1, job);
    ExtendsTrans(link, l1, r.1);
    AcceptedThrough(NewCalls(link, l1), NewCalls(l1, r.1));
  }

  lemma AcceptedThrough(t: seq<Call>, rest: seq<Call>)
    requires WorkspaceTraffic(t) && |rest| >= 1 && rest[0].request.PostText?
    ensures InsertAccepted(t + rest) <==> DecodeTrackId(rest[0].reply).Ok?
  {
    assert t + rest == t + [rest[0]] + rest[1..];
    AcceptedAt(t, rest[0], rest[1..]);
  }

  /** The last requests: the summary query, then exactly one `clear_documents`. */
  predicate QueryThenClear(calls: seq<Call>, prompt: string, attempts: nat) {
    exists k :: 0 <= k < |calls| && calls[k].request == Query(prompt) && ClearRun(calls[k + 1..], attempts)
  }

  lemma QueryThenClearAfter(pre: seq<Call>, calls: seq<Call>, prompt: string, attempts: nat)
    requires QueryThenClear(calls, prompt, attempts)
    ensures QueryThenClear(pre + calls, prompt, attempts)
  {
    var k :| 0 <= k < |calls| && calls[k].request == Query(prompt) && ClearRun(calls[k + 1..], attempts);
    assert (pre + calls)[|pre| + k] == calls[k];
    assert (pre + calls)[|pre| + k + 1..] == calls[k + 1..];
  }

  lemma FromTrackClears(server: Server, cfg: Config, link: Link, job: Job, trackId: Value)
    ensures var (res, after) := FromTrack(server, cfg, link, job, trackId);
            res.Succeeded? ==> QueryThenClear(NewCalls(link, after), job.prompt, ClearAttempts(cfg))
  {
    var (res, after) := FromTrack(server, cfg, link, job, trackId);
    if res.Succeeded? {
      var (docs, l1) := WaitForTrackCompletion(server, cfg, link, trackId);
      var (graph, l2) := FetchGraphData(server, l1, Get(docs.value[0].entries, "id"), job.candidates);
      var (summary, l3) := QuerySummary(server, l2, job.prompt);
      ExtendsTrans(link, l1, l2);
      ExtendsTrans(link, l2, l3);
      ExtendsTrans(link, l3, after);
      ClearDocumentsRun(server, cfg, l3);
      var tail := NewCalls(l2, after);
      ExtendsTrans(l2, l3, after);
      assert tail[0].request == Query(job.prompt) && tail[1..] == NewCalls(l3, after);
      assert QueryThenClear(tail, job.prompt, ClearAttempts(cfg));
      QueryThenClearAfter(NewCalls(link, l2), tail, job.prompt, ClearAttempts(cfg));
    }
  }

  /** A successful attempt ends with the summary query followed by exactly one `clear_documents`. */
  lemma AttemptSuccessClears(server: Server, cfg: Config, link: Link, job: Job)
    ensures var (res, after) := Attempt(server, cfg, link, job);
            res.Succeeded? ==> QueryThenClear(NewCalls(link, after), job.prompt, ClearAttempts(cfg))
  {
    var (ready, l1) := EnsureWorkspaceEmpty(server, cfg, link);
    if ready.Ok? {
      var (track, l2) := InsertText(server, l1, job.payload, job.fileSource);
      if track.Ok? {
        var r := FromTrack(server, cfg, l2, job, track.value);
        FromTrackClears(server, cfg, l2, job, track.value);
        ExtendsTrans(link, l1, l2);
        ExtendsTrans(link, l2, r.1);
        if r.0.Succeeded? {
          QueryThenClearAfter(NewCalls(link, l2), NewCalls(l2, r.1), job.prompt, ClearAttempts(cfg));
        }
      }
    }
  }

  /**
   * After an attempt that failed with an `EventGraphGenerationError`, the
   * workspace is cleared exactly when `insert_text` had succeeded in it, and
   * nothing is sent otherwise.
   */
  lemma FailedAttemptCleanup(server: Server, cfg: Config, link: Link, job: Job)
    ensures var (res, after) := Attempt(server, cfg, link, job);
            res.Failed? ==>
              var cleaned := Cleanup(server, cfg, after, res.hasDocuments);
              (InsertAccepted(NewCalls(link, after)) ==> ClearRun(NewCalls(after, cleaned), ClearAttempts(cfg)))
              && (!InsertAccepted(NewCalls(link, after)) ==> NewCalls(after, cleaned) == [])
  {
    var (res, after) := Attempt(server, cfg, link, job);
    AttemptInsertFlag(server, cfg, link, job);
    ClearDocumentsRun(server, cfg, after);
  }

  /** One attempt on the client, step by step as `generate_graph_bundle`'s `try` block runs it. */
  method AttemptWith(client: LightRagClient, job: Job) returns (res: AttemptResult)
    modifies client
    ensures (res, client.State()) == Attempt(client.server, client.cfg, old(client.State()), job)
  {
    var ready := client.EnsureWorkspaceEmpty();
    if ready.Err? {
      return Failed(ready.error, false);
    }
    var track := client.InsertText(job.payload, job.fileSource);
    if track.Err? {
      return Failed(track.error, false);
    }
    var docs := client.WaitForTrackCompletion(track.value);
    if docs.Err? {
      return Failed(docs.error, true);
    }
    var docId := Get(docs.value[0].entries, "id");
    var graph := client.FetchGraphData(docId, job.candidates);
    if graph.Err? {
      return Failed(graph.error, true);
    }
    var summary := client.QuerySummary(job.prompt);
    if summary.Err? {
      return Failed(summary.error, true);
    }
    if LogLineRaises(graph.value) {
      return Failed(Crash, true);
    }
    client.ClearDocuments();
    return Succeeded(Bundle(graph.value, summary.value));
  }

  /**
   * `generate_graph_bundle` on a fresh client whose clock starts at `clock`:
   * the outcome and the transcript are those `GenerateGraphBundle` specifies.
   */
  method RunGenerateGraphBundle(server: Server, cfg: Config, clock: nat, incident: Entries, alerts: seq<Entries>,
                                src: PromptSources) returns (r: Result<Bundle, Failure>, transcript: Link)
    ensures var spec := GenerateGraphBundle(server, cfg, Link([], clock), incident, alerts, src);
            r == spec.0 && transcript == spec.1
  {
    var made := LightRagClient.Open(server, cfg, clock);
    if made.Err? {
      return Err(made.error), Link([], clock);
    }
    var client := made.value;
    var payload := BuildInsertPayload(incident, alerts);
    if payload.Err? {
      return Err(Crash), client.State();
    }
    var candidates := BuildGraphLabelCandidates(incident, alerts);
    var job := Job(payload.value, candidates, BuildFileSource(incident), BuildSummaryPrompt(incident, payload.value, src));
    assert BuildJob(incident, alerts, src) == Some(job);
    var attempts := GenerateAttempts(cfg);
    var attempt := 1;
    while true
      invariant 1 <= attempt <= attempts
      invariant client.server == server && client.cfg == cfg
      invariant var spec := GenerateGraphBundle(server, cfg, Link([], clock), incident, alerts, src);
                var rest := GenerateFrom(server, cfg, client.State(), job, attempt, attempts);
                rest.0 == spec.0 && rest.1 == spec.1
      decreases attempts - attempt
    {
      var res := AttemptWith(client, job);
      if res.Succeeded? {
        return Ok(res.bundle), client.State();
      }
      if res.failure == Crash {
        return Err(Crash), client.State();
      }
      if res.hasDocuments {
        client.ClearDocuments();
      }
      if attempt >= attempts {
        return Err(res.failure), client.State();
      }
      client.Wait(cfg.pollInterval * MillisPerSecond);
      attempt := attempt + 1;
    }
  }
}
