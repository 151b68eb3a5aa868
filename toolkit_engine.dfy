/**
 * The configuration-driven third-party API caller of the toolkits: how a
 * tool's configuration becomes a request URL, request headers and a JSON
 * request body, how a result is picked out of the response, and how a
 * tool's configuration is chosen from the configured list.
 *
 * A configuration section is a JSON object (`Entries`); a section that is
 * absent reads as empty, as `dict.get(..., {})` does.
 */
module ToolkitEngine {
  import opened Wrappers
  import opened Text
  import opened Values

  /** `section.get(key, {})` where the value is an object; anything else reads as empty. */
  function Section(entries: Entries, key: string): Entries {
    match Get(entries, key)
    case Dict(e) => e
    case _ => []
  }

  /**
   * `section.get(key, {})` whose result is then used as a dict: the object,
   * or None where the value is present but not an object (None included),
   * so the next `.get` or `.items()` raises AttributeError.
   */
  function DictAt(entries: Entries, key: string): (r: Option<Entries>)
    ensures !HasKey(entries, key) ==> r == Some([])
    ensures HasKey(entries, key) ==> (r.Some? <==> Lookup(entries, key).value.Dict?)
    ensures HasKey(entries, key) && r.Some? ==> Lookup(entries, key) == Some(Dict(r.value))
  {
    match Lookup(entries, key)
    case None => Some([])
    case Some(Dict(e)) => Some(e)
    case Some(_) => None
  }

  /** `section.get(key, default)` where the value is a string. */
  function StrOr(entries: Entries, key: string, default: string): string {
    match Lookup(entries, key)
    case Some(Str(s)) => s
    case _ => default
  }

  // ---------------------------------------------------------------- URL

  /** The placeholder `{key}` of a URL variable. */
  function Placeholder(key: string): (p: string)
    ensures |p| == |key| + 2 && p[0] == '{'
  {
    "{" + key + "}"
  }

  /** The endpoint after substituting every URL variable in order, each with `str(value)`. */
  function Substituted(endpoint: string, vars: Entries): string {
    if vars == [] then endpoint
    else
      var last := vars[|vars| - 1];
      Replace(Substituted(endpoint, vars[..|vars| - 1]), Placeholder(last.0), Render(last.1))
  }

  /** No occurrence of a pattern can start at a character other than its first one. */
  lemma {:induction false} ReplaceFree(s: string, pat: string, rep: string)
    requires |pat| > 0 && pat[0] !in s
    ensures Replace(s, pat, rep) == s
    decreases |s|
  {
    if |s| >= |pat| {
      assert s[..|pat|][0] == s[0];
      ReplaceFree(s[1..], pat, rep);
    }
  }

  /** A placeholder between text without braces is replaced by the variable's value. */
  lemma {:induction false} ReplacePlaceholder(pre: string, key: string, post: string, value: string)
    requires '{' !in pre && '{' !in post
    ensures Replace(pre + Placeholder(key) + post, Placeholder(key), value) == pre + value + post
    decreases |pre|
  {
    var p := Placeholder(key);
    if pre == [] {
      PlaceholderFirst(key, post, value);
      assert pre + p + post == p + post;
    } else {
      var s := pre + p + post;
      assert s[0] == pre[0] && s[..|p|][0] == pre[0];
      assert s[1..] == pre[1..] + p + post;
      ReplacePlaceholder(pre[1..], key, post, value);
      assert Replace(s, p, value) == [pre[0]] + Replace(s[1..], p, value);
      assert [pre[0]] + (pre[1..] + value + post) == pre + value + post;
    }
  }

  /** A placeholder at the start of text without braces. */
  lemma PlaceholderFirst(key: string, post: string, value: string)
    requires '{' !in post
    ensures Replace(Placeholder(key) + post, Placeholder(key), value) == value + post
  {
    var p := Placeholder(key);
    var s := p + post;
    assert s[..|p|] == p && s[|p|..] == post;
    ReplaceFree(post, p, value);
  }

  /**
   * `_build_url`: the URL, or None where it raises. Only a string base and
   * endpoint are joined; where only one part is truthy that configured value
   * itself is the URL, whatever its type.
   */
  method BuildUrl(api: Entries) returns (url: Option<Value>)
    ensures var base := GetOr(api, "base_url", Str(""));
            var raw := GetOr(api, "endpoint", Str(""));
            var vars := GetOr(api, "url_variables", Dict([]));
            if !vars.Dict? || (vars.entries != [] && !raw.Str?) then url.None?
            else
              var endpoint := if raw.Str? then Str(Substituted(raw.s, vars.entries)) else raw;
              (PyTruthy(base) && PyTruthy(endpoint) ==>
                 url == if base.Str? && endpoint.Str? then Some(Str(RStripChar(base.s, '/') + "/" + LStripChar(endpoint.s, '/')))
                        else None)
              && (PyTruthy(base) && !PyTruthy(endpoint) ==> url == Some(base))
              && (!PyTruthy(base) && PyTruthy(endpoint) ==> url == Some(endpoint))
              && (!PyTruthy(base) && !PyTruthy(endpoint) ==> url.None?)
  {
    var baseUrl := GetOr(api, "base_url", Str(""));
    var endpoint := GetOr(api, "endpoint", Str(""));
    var urlVars := GetOr(api, "url_variables", Dict([]));
    if !urlVars.Dict? {
      return None;
    }
    var vars := urlVars.entries;
    if vars != [] && !endpoint.Str? {
      return None;
    }
    if endpoint.Str? {
      var text := endpoint.s;
      for k := 0 to |vars|
        invariant text == Substituted(endpoint.s, vars[..k])
      {
        assert vars[..k + 1][..k] == vars[..k];
        text := Replace(text, Placeholder(vars[k].0), Render(vars[k].1));
      }
      assert vars[..|vars|] == vars;
      endpoint := Str(text);
    }
    if PyTruthy(baseUrl) && PyTruthy(endpoint) {
      if baseUrl.Str? && endpoint.Str? {
        url := Some(Str(RStripChar(baseUrl.s, '/') + "/" + LStripChar(endpoint.s, '/')));
      } else {
        url := None;
      }
    } else if PyTruthy(baseUrl) {
      url := Some(baseUrl);
    } else if PyTruthy(endpoint) {
      url := Some(endpoint);
    } else {
      url := None;
    }
  }

  /** With both parts configured the URL has exactly one slash between them. */
  lemma JoinedUrlOneSlash(base: string, endpoint: string)
    requires base != "" && endpoint != ""
    ensures var url := RStripChar(base, '/') + "/" + LStripChar(endpoint, '/');
            var left := RStripChar(base, '/');
            url[|left|] == '/' && (left == [] || url[|left| - 1] != '/')
            && (|url| == |left| + 1 || url[|left| + 1] != '/')
  {
  }

  // ------------------------------------------------------------ headers

  /** The headers every request carries: the JSON content type, then the custom headers over it. */
  function CommonHeaders(api: Entries): Entries {
    Update([("Content-Type", Str("application/json"))], Section(api, "headers"))
  }

  /** Content-Type is JSON unless a custom header of that name overrides it. */
  lemma ContentTypeDefault(api: Entries)
    ensures Lookup(CommonHeaders(api), "Content-Type") ==
      if HasKey(Section(api, "headers"), "Content-Type") then LookupLast(Section(api, "headers"), "Content-Type")
      else Some(Str("application/json"))
  {
    LookupUpdate([("Content-Type", Str("application/json"))], Section(api, "headers"), "Content-Type");
  }

  /** `_build_headers`. */
  method BuildHeaders(api: Entries) returns (headers: Entries)
    ensures var auth := Section(api, "auth");
            var kind := GetOr(auth, "type", Str("none"));
            (kind == Str("api_key") ==>
               var keyName := StrOr(auth, "key_name", "X-API-Key");
               var keyValue := GetOr(auth, "key_value", Str(""));
               if PyTruthy(keyValue) then headers == Set(CommonHeaders(api), keyName, keyValue) && Lookup(headers, keyName) == Some(keyValue)
               else headers == CommonHeaders(api))
            && (kind == Str("bearer_token") ==>
               var token := GetOr(auth, "token", Str(""));
               if PyTruthy(token) then Lookup(headers, "Authorization") == Some(Str("Bearer " + Render(token)))
                                       && headers == Set(CommonHeaders(api), "Authorization", Str("Bearer " + Render(token)))
               else headers == CommonHeaders(api))
            && (kind == Str("custom") ==> headers == Update(CommonHeaders(api), Section(auth, "headers")))
            && (kind != Str("api_key") && kind != Str("bearer_token") && kind != Str("custom") ==> headers == CommonHeaders(api))
  {
    headers := [];
    headers := Set(headers, "Content-Type", Str("application/json"));
    headers := Update(headers, Section(api, "headers"));
    var auth := Section(api, "auth");
    var kind := GetOr(auth, "type", Str("none"));
    if kind == Str("api_key") {
      var keyName := StrOr(auth, "key_name", "X-API-Key");
      var keyValue := GetOr(auth, "key_value", Str(""));
      if PyTruthy(keyValue) {
        LookupSet(headers, keyName, keyValue, keyName);
        headers := Set(headers, keyName, keyValue);
      }
    } else if kind == Str("bearer_token") {
      var token := GetOr(auth, "token", Str(""));
      if PyTruthy(token) {
        LookupSet(headers, "Authorization", Str("Bearer " + Render(token)), "Authorization");
        headers := Set(headers, "Authorization", Str("Bearer " + Render(token)));
      }
    } else if kind == Str("basic_auth") {
    } else if kind == Str("custom") {
      headers := Update(headers, Section(auth, "headers"));
    }
  }

  // ---------------------------------------------------- nested paths

  /** `_get_nested_value` / the walk of `_extract_result` over objects only. */
  function NestedGet(value: Value, keys: seq<string>): Value
    decreases |keys|
  {
    if keys == [] then value
    else match value
      case Dict(entries) =>
        var next := Get(entries, keys[0]);
        if next.Null? then Null else NestedGet(next, keys[1..])
      case _ => Null
  }

  /** `_get_nested_value(data, key)`. */
  method GetNestedValue(data: Entries, key: string) returns (r: Value)
    ensures r == NestedGet(Dict(data), Split(key, '.'))
  {
    var keys := Split(key, '.');
    var value := Dict(data);
    for k := 0 to |keys|
      invariant NestedGet(value, keys[k..]) == NestedGet(Dict(data), keys)
      invariant value != Null
    {
      if !value.Dict? {
        return Null;
      }
      value := Get(value.entries, keys[k]);
      if value.Null? {
        return Null;
      }
    }
    assert keys[|keys|..] == [];
    r := value;
  }

  /** Every intermediate key along the path is absent or holds an object. */
  predicate Settable(data: Entries, keys: seq<string>)
    decreases |keys|
  {
    |keys| <= 1
    || match Lookup(data, keys[0])
       case None => Settable([], keys[1..])
       case Some(Dict(inner)) => Settable(inner, keys[1..])
       case Some(_) => false
  }

  /**
   * `_set_nested_field(data, ".".join(keys), value)`: missing intermediate
   * objects are created; None where Python raises because an intermediate
   * value is not a dict.
   */
  function SetPath(data: Entries, keys: seq<string>, value: Value): (r: Option<Entries>)
    requires |keys| >= 1
    ensures r.Some? <==> Settable(data, keys)
    decreases |keys|
  {
    if |keys| == 1 then Some(Set(data, keys[0], value))
    else
      var inner := match Lookup(data, keys[0])
        case None => Some([])
        case Some(Dict(e)) => Some(e)
        case Some(_) => None;
      if inner.None? then None
      else
        var sub := SetPath(inner.value, keys[1..], value);
        if sub.None? then None else Some(Set(data, keys[0], Dict(sub.value)))
  }

  /** Reading a path back after setting it gives the value set. */
  lemma {:induction false} GetAfterSet(data: Entries, keys: seq<string>, value: Value)
    requires |keys| >= 1 && Settable(data, keys)
    ensures NestedGet(Dict(SetPath(data, keys, value).value), keys) == value
    decreases |keys|
  {
    var r := SetPath(data, keys, value).value;
    LookupSet(data, keys[0], value, keys[0]);
    if |keys| > 1 {
      var inner := match Lookup(data, keys[0]) case Some(Dict(e)) => e case _ => [];
      GetAfterSet(inner, keys[1..], value);
      var sub := SetPath(inner, keys[1..], value).value;
      LookupSet(data, keys[0], Dict(sub), keys[0]);
    }
  }

  /** Setting a path leaves every other top-level key as it was. */
  lemma SetPathOthers(data: Entries, keys: seq<string>, value: Value, k: string)
    requires |keys| >= 1 && Settable(data, keys) && k != keys[0]
    ensures Lookup(SetPath(data, keys, value).value, k) == Lookup(data, k)
  {
    if |keys| == 1 {
      LookupSet(data, keys[0], value, k);
    } else {
      var inner := match Lookup(data, keys[0]) case Some(Dict(e)) => e case _ => [];
      var sub := SetPath(inner, keys[1..], value).value;
      LookupSet(data, keys[0], Dict(sub), k);
    }
  }

  // ------------------------------------------------------- transforms

  /** `str` of every item when all are strings, as `",".join(v)` needs. */
  function AllStrings(items: seq<Value>): Option<seq<string>> {
    if items == [] then Some([])
    else
      var rest := AllStrings(items[1..]);
      if items[0].Str? && rest.Some? then Some([items[0].s] + rest.value) else None
  }

  /**
   * `_apply_transform(name, value, params)`: a known transform applied to
   * the value; an unknown one, or one that raises, keeps the value.
   */
  function ApplyTransform(name: string, value: Value): (r: Value)
    ensures name !in {"to_string", "to_int", "to_list", "join"} ==> r == value
    ensures name == "to_string" ==> r == Str(Render(value))
    ensures name == "to_int" ==> r.Int? || r == value
    ensures name == "to_int" && !PyTruthy(value) ==> r == Int(0)
    ensures name == "to_list" ==> r.List? && (value.List? ==> r == value) && (!value.List? ==> r.items == [value])
    ensures name == "join" ==> r.Str? || r == value
  {
    if name == "to_string" then Str(Render(value))
    else if name == "to_int" then
      if !PyTruthy(value) then Int(0)
      else (match PyInt(value) case Some(i) => Int(i) case None => value)
    else if name == "to_list" then (if value.List? then value else List([value]))
    else if name == "join" then
      if value.List? then (match AllStrings(value.items) case Some(parts) => Str(Join(",", parts)) case None => value)
      else Str(Render(value))
    else value
  }

  // ------------------------------------------------------------- body

  /**
   * The value one field mapping produces: a string names a parameter, an
   * object names a source with a default and an optional transform, and
   * anything else is a constant. None where `params.get` raises (a list or
   * object as the source is unhashable) or the transform lookup raises (a
   * list or object as the transform name).
   */
  function MappedValue(mapping: Value, params: Entries): (r: Option<Value>)
    ensures mapping.Str? ==> r == Some(Get(params, mapping.s))
    ensures !mapping.Str? && !mapping.Dict? ==> r == Some(mapping)
    ensures mapping.Dict? ==>
              var source := GetOr(mapping.entries, "source", Get(mapping.entries, "from"));
              (source.List? || source.Dict? ==> r.None?)
              && (!source.List? && !source.Dict? && !PyTruthy(Get(mapping.entries, "transform")) ==>
                    r == Some(if source.Str? && HasKey(params, source.s) then Get(params, source.s) else Get(mapping.entries, "default")))
  {
    match mapping
    case Str(source) => Some(Get(params, source))
    case Dict(config) =>
      var source := GetOr(config, "source", Get(config, "from"));
      var default := Get(config, "default");
      var transform := Get(config, "transform");
      if source.List? || source.Dict? then None
      else
        var value := if source.Str? then GetOr(params, source.s, default) else default;
        if !PyTruthy(transform) || value.Null? then Some(value)
        else if transform.List? || transform.Dict? then None
        else if transform.Str? then Some(ApplyTransform(transform.s, value))
        else Some(value)
    case _ => Some(mapping)
  }

  /** One iteration of `_build_json_body`'s loop: store the mapped value, nested on dotted targets. */
  function MapField(body: Entries, target: string, mapping: Value, params: Entries): Option<Entries> {
    var value := MappedValue(mapping, params);
    if value.None? then None
    else if mapping.Dict? && '.' in target then
      var keys := Split(target, '.');
      if Settable(body, keys) then SetPath(body, keys, value.value) else None
    else Some(Set(body, target, value.value))
  }

  /** The body after the mappings in order; None where one of them raises. */
  function MappedBody(mappings: Entries, params: Entries): Option<Entries> {
    if mappings == [] then Some([])
    else
      var init := MappedBody(mappings[..|mappings| - 1], params);
      if init.None? then None
      else MapField(init.value, mappings[|mappings| - 1].0, mappings[|mappings| - 1].1, params)
  }

  /** `_build_json_body(field_mapping, params)`: an empty mapping passes the parameters through. */
  method BuildJsonBody(fieldMapping: Entries, params: Entries) returns (body: Option<Entries>)
    ensures fieldMapping == [] ==> body == Some(params)
    ensures fieldMapping != [] ==> body == MappedBody(fieldMapping, params)
  {
    if fieldMapping == [] {
      return Some(params);
    }
    var current: Entries := [];
    for k := 0 to |fieldMapping|
      invariant MappedBody(fieldMapping[..k], params) == Some(current)
    {
      assert fieldMapping[..k + 1][..k] == fieldMapping[..k];
      var next := MapField(current, fieldMapping[k].0, fieldMapping[k].1, params);
      if next.None? {
        assert MappedBody(fieldMapping[..k + 1], params).None?;
        MappedBodyFails(fieldMapping, params, k + 1);
        return None;
      }
      current := next.value;
    }
    assert fieldMapping[..|fieldMapping|] == fieldMapping;
    body := Some(current);
  }

  /** Once a mapping raises, the whole body raises. */
  lemma {:induction false} MappedBodyFails(mappings: Entries, params: Entries, k: nat)
    requires k <= |mappings| && MappedBody(mappings[..k], params).None?
    ensures MappedBody(mappings, params).None?
    decreases |mappings| - k
  {
    if k < |mappings| {
      assert mappings[..k + 1][..k] == mappings[..k];
      MappedBodyFails(mappings, params, k + 1);
    } else {
      assert mappings[..k] == mappings;
    }
  }

  /** A mapping whose target is plain and whose value can be computed. */
  predicate FlatMapping(m: (string, Value), params: Entries) {
    '.' !in m.0 && MappedValue(m.1, params).Some?
  }

  /**
   * With plain, distinct targets, every target of the mapping receives the
   * value its mapping produces.
   */
  lemma {:induction false} MappedBodyFields(mappings: Entries, params: Entries, k: nat)
    requires UniqueKeys(mappings)
    requires forall j :: 0 <= j < |mappings| ==> FlatMapping(mappings[j], params)
    requires k < |mappings|
    ensures MappedBody(mappings, params).Some?
    ensures Lookup(MappedBody(mappings, params).value, mappings[k].0) == MappedValue(mappings[k].1, params)
    decreases |mappings|
  {
    var n := |mappings| - 1;
    var init := mappings[..n];
    var last := mappings[n];
    if n > 0 {
      MappedBodyFields(init, params, 0);
    }
    var before := if n == 0 then [] else MappedBody(init, params).value;
    LookupSet(before, last.0, MappedValue(last.1, params).value, mappings[k].0);
    if k < n {
      MappedBodyFields(init, params, k);
      assert init[k] == mappings[k] && mappings[k].0 != last.0;
    }
  }

  /**
   * `_build_request_body`'s parameters: the alert context, then the
   * caller's parameters over it.
   */
  function AllParams(params: Entries, alertContext: Entries): Entries {
    Update(Update([], alertContext), params)
  }

  /** A parameter wins over an alert-context entry of the same key. */
  lemma ParamsOverrideContext(params: Entries, alertContext: Entries, k: string)
    requires UniqueKeys(params)
    ensures Lookup(AllParams(params, alertContext), k) ==
      if HasKey(params, k) then Lookup(params, k) else LookupLast(alertContext, k)
  {
    MergeLookup(Update([], alertContext), params, k);
    LookupUpdate([], alertContext, k);
  }

  /**
   * `_build_request_body(params, alert_context)`: the JSON text, or None
   * where building raises. A request_body that is not an object raises at
   * its `.get`; a falsy field_mapping passes the parameters through, and a
   * truthy one that is not an object raises at `.items()`.
   */
  method BuildRequestBody(api: Entries, params: Entries, alertContext: Entries) returns (body: Option<string>)
    ensures var all := AllParams(params, alertContext);
            var section := DictAt(api, "request_body");
            (section.None? ==> body.None?)
            && (section.Some? ==>
                  var mapping := GetOr(section.value, "field_mapping", Dict([]));
                  (!PyTruthy(mapping) ==> body == Some(JsonDumps(Dict(all), false)))
                  && (PyTruthy(mapping) && !mapping.Dict? ==> body.None?)
                  && (PyTruthy(mapping) && mapping.Dict? ==>
                        body == if MappedBody(mapping.entries, all).None? then None
                                else Some(JsonDumps(Dict(MappedBody(mapping.entries, all).value), false))))
  {
    var section := DictAt(api, "request_body");
    if section.None? {
      return None;
    }
    var mapping := GetOr(section.value, "field_mapping", Dict([]));
    var all: Entries := [];
    if alertContext != [] {
      all := Update(all, alertContext);
    }
    all := Update(all, params);
    if !PyTruthy(mapping) {
      return Some(JsonDumps(Dict(all), false));
    }
    if !mapping.Dict? {
      return None;
    }
    var built := BuildJsonBody(mapping.entries, all);
    body := if built.None? then None else Some(JsonDumps(Dict(built.value), false));
  }

  // ------------------------------------------------------ extraction

  /** The walk of `_extract_result` over the path's keys. */
  function Extract(value: Value, keys: seq<string>): Value
    decreases |keys|
  {
    if keys == [] then value
    else
      var next := match value
        case Dict(entries) => Get(entries, keys[0])
        case List(items) =>
          if AllDigits(keys[0]) then (if DigitsValue(keys[0]) < |items| then items[DigitsValue(keys[0])] else Null)
          else Null
        case _ => Null;
      if next.Null? then Null else Extract(next, keys[1..])
  }

  /** `_extract_result(data, path)`. */
  method ExtractResult(data: Value, path: string) returns (r: Value)
    ensures path == "" ==> r == data
    ensures path != "" ==> r == Extract(data, Split(path, '.'))
  {
    if path == "" {
      return data;
    }
    var keys := Split(path, '.');
    var value := data;
    for k := 0 to |keys|
      invariant Extract(value, keys[k..]) == Extract(data, keys)
      invariant k > 0 ==> value != Null
    {
      var key := keys[k];
      if value.Dict? {
        value := Get(value.entries, key);
      } else if value.List? && AllDigits(key) {
        value := if DigitsValue(key) < |value.items| then value.items[DigitsValue(key)] else Null;
      } else {
        return Null;
      }
      if value.Null? {
        return Null;
      }
    }
    assert keys[|keys|..] == [];
    r := value;
  }

  /** Digit keys index lists; an index past the end, or a step through a scalar, gives None. */
  lemma ExtractSteps(items: seq<Value>, scalar: Value, key: string, rest: seq<string>)
    requires !scalar.Dict? && !scalar.List?
    ensures Extract(scalar, [key] + rest) == Null
    ensures AllDigits(key) && DigitsValue(key) >= |items| ==> Extract(List(items), [key] + rest) == Null
    ensures AllDigits(key) && DigitsValue(key) < |items| ==>
              Extract(List(items), [key] + rest) == Extract(items[DigitsValue(key)], rest)
    ensures !AllDigits(key) ==> Extract(List(items), [key] + rest) == Null
  {
    assert ([key] + rest)[1..] == rest;
    if AllDigits(key) && DigitsValue(key) < |items| && items[DigitsValue(key)].Null? {
      assert rest == [] || Extract(Null, rest) == Null;
    }
  }

  // ------------------------------------------------------------ config

  /** A tool entry matches the application id, and the type when one is given. */
  predicate ToolMatches(tool: Entries, appId: Value, appType: Option<Value>) {
    Get(tool, "app_id") == appId && (appType.None? || Get(tool, "app_type") == appType.value)
  }

  /** An entry the search passes over: an object that does not match. */
  predicate PassedOver(tool: Value, appId: Value, appType: Option<Value>) {
    tool.Dict? && !ToolMatches(tool.entries, appId, appType)
  }

  /** The matching rule of `load_toolkit_config` from entry `k` on. */
  function FirstToolFrom(tools: seq<Value>, appId: Value, appType: Option<Value>, k: nat): (r: Option<Entries>)
    requires k <= |tools|
    ensures r.Some? ==> Dict(r.value) in tools[k..]
    decreases |tools| - k
  {
    if k == |tools| then None
    else if !tools[k].Dict? then None
    else if ToolMatches(tools[k].entries, appId, appType) then Some(tools[k].entries)
    else FirstToolFrom(tools, appId, appType, k + 1)
  }

  /**
   * The search finds the first matching tool, having passed over only
   * objects that do not match; a non-object entry reached before any match
   * makes `tool.get` raise, which `load_toolkit_config` turns into None.
   */
  lemma {:induction false} FirstToolFound(tools: seq<Value>, appId: Value, appType: Option<Value>, k: nat)
    requires k <= |tools|
    ensures var r := FirstToolFrom(tools, appId, appType, k);
            r.Some? ==> exists i :: k <= i < |tools| && tools[i] == Dict(r.value) && ToolMatches(r.value, appId, appType)
                          && forall j :: k <= j < i ==> PassedOver(tools[j], appId, appType)
    ensures var r := FirstToolFrom(tools, appId, appType, k);
            r.None? ==> forall i :: k <= i < |tools| && (forall j :: k <= j <= i ==> tools[j].Dict?) ==> !ToolMatches(tools[i].entries, appId, appType)
    decreases |tools| - k
  {
    if k < |tools| && tools[k].Dict? {
      if ToolMatches(tools[k].entries, appId, appType) {
        assert tools[k] == Dict(tools[k].entries);
      } else {
        FirstToolFound(tools, appId, appType, k + 1);
        assert PassedOver(tools[k], appId, appType);
      }
    }
  }

  /** `load_toolkit_config`'s search over the configured tools. */
  method FindToolConfig(tools: seq<Value>, appId: Value, appType: Option<Value>) returns (r: Option<Entries>)
    ensures r == FirstToolFrom(tools, appId, appType, 0)
  {
    for k := 0 to |tools|
      invariant FirstToolFrom(tools, appId, appType, 0) == FirstToolFrom(tools, appId, appType, k)
    {
      if !tools[k].Dict? {
        return None;
      }
      if ToolMatches(tools[k].entries, appId, appType) {
        return Some(tools[k].entries);
      }
    }
    return None;
  }
}
