/**
 * How `api/views/toolkits_view.py` turns a toolkit's configuration into the
 * tool description the console shows: one input parameter per distinct
 * source name of the request body's field mapping, and the current user's
 * name as the default of a "username" parameter.
 */
module ToolkitsView {
  import opened Wrappers
  import opened Text
  import opened Values
  import opened Seqs
  import ToolkitEngine

  /** One input parameter; `defaultValue` is absent when the mapping gives none. */
  datatype Param = Param(name: string, caption: string, defaultValue: Option<Value>, required: bool)

  /** The tool object returned to the console. */
  datatype Tool = Tool(appId: Value, appType: Value, title: Value, params: seq<Param>)

  /** A mapping whose source name is truthy but not a string makes the extraction raise. */
  datatype ToolError = BadParamName(name: Value) | NotAnObject(key: string)

  /** The source name a mapping reads from: the string itself, or a dict's "source", else its "from". */
  function NameOf(mapping: Value): (r: Value)
    ensures mapping.Str? ==> r == mapping
    ensures !mapping.Str? && !mapping.Dict? ==> r == Null
  {
    match mapping
    case Str(_) => mapping
    case Dict(m) => PyOr(Get(m, "source"), Get(m, "from"))
    case _ => Null
  }

  /** The default a mapping gives: a dict's "default", else None. */
  function DefaultOf(mapping: Value): (r: Value)
    ensures !mapping.Dict? ==> r == Null
  {
    if mapping.Dict? then Get(mapping.entries, "default") else Null
  }

  /** The name of a mapping on which the extraction raises. */
  predicate BadName(mapping: Value) {
    PyTruthy(NameOf(mapping)) && !NameOf(mapping).Str?
  }

  /** The parameter a mapping with source name `name` contributes. */
  function MakeParam(name: string, mapping: Value): (p: Param)
    ensures p.name == name && p.caption == Title(ReplaceChar(name, '_', ' '))
    ensures p.required <==> p.defaultValue.None?
    ensures p.defaultValue.Some? <==> DefaultOf(mapping) != Null
    ensures p.defaultValue.Some? ==> p.defaultValue.value == DefaultOf(mapping)
    ensures mapping.Str? ==> p.required
  {
    var defaultValue := DefaultOf(mapping);
    Param(name, Title(ReplaceChar(name, '_', ' ')),
          if defaultValue != Null then Some(defaultValue) else None,
          defaultValue == Null)
  }

  function Names(params: seq<Param>): (r: seq<string>)
    ensures |r| == |params| && forall k :: 0 <= k < |params| ==> r[k] == params[k].name
  {
    seq(|params|, k requires 0 <= k < |params| => params[k].name)
  }

  lemma NamesSnoc(params: seq<Param>, p: Param)
    ensures Names(params + [p]) == Names(params) + [p.name]
  {
  }

  /** The string source names of a field mapping, in order, repeats included. */
  function SourceNames(mapping: Entries): seq<string> {
    if mapping == [] then []
    else
      var name := NameOf(mapping[|mapping| - 1].1);
      SourceNames(mapping[..|mapping| - 1]) + (if name.Str? && name.s != "" then [name.s] else [])
  }

  /** The first mapping of the field mapping whose source name is `name`. */
  function FirstMapping(mapping: Entries, name: string): Option<Value> {
    if mapping == [] then None
    else
      var init := FirstMapping(mapping[..|mapping| - 1], name);
      var last := mapping[|mapping| - 1].1;
      if init.Some? then init
      else if NameOf(last) == Str(name) then Some(last)
      else None
  }

  /** One step of the loop of `_extract_params_from_field_mapping`. */
  function ExtractStep(params: seq<Param>, mapping: Value): (r: Result<seq<Param>, ToolError>)
    ensures r.Err? <==> BadName(mapping)
    ensures r.Ok? ==> |params| <= |r.value| <= |params| + 1 && r.value[..|params|] == params
  {
    var name := NameOf(mapping);
    if !PyTruthy(name) then Ok(params)
    else if !name.Str? then Err(BadParamName(name))
    else if name.s in Names(params) then Ok(params)
    else Ok(params + [MakeParam(name.s, mapping)])
  }

  /** `_extract_params_from_field_mapping(field_mapping)`, or the exception it raises. */
  function ExtractParams(mapping: Entries): Result<seq<Param>, ToolError> {
    if mapping == [] then Ok([])
    else
      var init := ExtractParams(mapping[..|mapping| - 1]);
      if init.Err? then init else ExtractStep(init.value, mapping[|mapping| - 1].1)
  }

  /** The extraction raises exactly when some mapping has a truthy source name that is not a string. */
  lemma {:induction false} ExtractParamsErrors(mapping: Entries)
    ensures ExtractParams(mapping).Err? <==> exists k :: 0 <= k < |mapping| && BadName(mapping[k].1)
    decreases |mapping|
  {
    if mapping != [] {
      var init := mapping[..|mapping| - 1];
      var last := mapping[|mapping| - 1].1;
      ExtractParamsErrors(init);
      ExtractFails(mapping);
      if !ExtractParams(init).Err? && !BadName(last) {
        forall k | 0 <= k < |mapping|
          ensures !BadName(mapping[k].1)
        {
          if k < |init| {
            assert init[k] == mapping[k];
          }
        }
      } else if ExtractParams(init).Err? {
        var k :| 0 <= k < |init| && BadName(init[k].1);
        assert mapping[k] == init[k];
      }
    }
  }

  /** The extraction of a longer mapping raises exactly when the shorter one does or its last name is bad. */
  lemma ExtractFails(mapping: Entries)
    requires mapping != []
    ensures ExtractParams(mapping).Err? <==> ExtractParams(mapping[..|mapping| - 1]).Err? || BadName(mapping[|mapping| - 1].1)
  {
  }

  /**
   * Exactly one parameter per distinct source name, in order of first
   * occurrence; constants and dicts without a source contribute none.
   */
  lemma {:induction false} ExtractParamsNames(mapping: Entries)
    requires ExtractParams(mapping).Ok?
    ensures Names(ExtractParams(mapping).value) == Dedup(SourceNames(mapping))
    decreases |mapping|
  {
    if mapping != [] {
      var init := mapping[..|mapping| - 1];
      var prev := ExtractParams(init).value;
      ExtractParamsNames(init);
      var last := mapping[|mapping| - 1].1;
      var name := NameOf(last);
      if name.Str? && name.s != "" {
        assert SourceNames(mapping) == SourceNames(init) + [name.s];
        DedupElements(SourceNames(init));
        DedupSnoc(SourceNames(init), name.s);
        if name.s !in Names(prev) {
          NamesSnoc(prev, MakeParam(name.s, last));
        }
      } else {
        assert SourceNames(mapping) == SourceNames(init);
      }
    }
  }

  /**
   * Each parameter is the one its name's first mapping makes: label from the
   * name, and the defaultValue and `required` from that mapping.
   */
  lemma {:induction false} ExtractParamsFirst(mapping: Entries)
    requires ExtractParams(mapping).Ok?
    ensures var params := ExtractParams(mapping).value;
            forall i :: 0 <= i < |params| ==>
              FirstMapping(mapping, params[i].name).Some?
              && params[i] == MakeParam(params[i].name, FirstMapping(mapping, params[i].name).value)
    decreases |mapping|
  {
    if mapping != [] {
      var init := mapping[..|mapping| - 1];
      var last := mapping[|mapping| - 1].1;
      var prev := ExtractParams(init).value;
      var params := ExtractParams(mapping).value;
      ExtractParamsFirst(init);
      ExtractParamsNames(init);
      forall i | 0 <= i < |params|
        ensures FirstMapping(mapping, params[i].name).Some?
                && params[i] == MakeParam(params[i].name, FirstMapping(mapping, params[i].name).value)
      {
        if i < |prev| {
          assert params[i] == prev[i];
        } else {
          var name := NameOf(last);
          assert params[i] == MakeParam(name.s, last);
          assert name.s !in Dedup(SourceNames(init));
          DedupElements(SourceNames(init));
          FirstMappingAbsent(init, name.s);
        }
      }
    }
  }

  /** A name that is not among the source names has no first mapping. */
  lemma {:induction false} FirstMappingAbsent(mapping: Entries, name: string)
    requires name != "" && name !in SourceNames(mapping)
    ensures FirstMapping(mapping, name).None?
    decreases |mapping|
  {
    if mapping != [] {
      var init := mapping[..|mapping| - 1];
      assert SourceNames(init) <= SourceNames(mapping);
      FirstMappingAbsent(init, name);
    }
  }

  /** Once the extraction has raised, the remaining mappings do not matter. */
  lemma {:induction false} ErrorSticks(mapping: Entries, k: nat)
    requires k <= |mapping| && ExtractParams(mapping[..k]).Err?
    ensures ExtractParams(mapping) == ExtractParams(mapping[..k])
    decreases |mapping| - k
  {
    if k < |mapping| {
      assert mapping[..k + 1][..k] == mapping[..k];
      ErrorSticks(mapping, k + 1);
    } else {
      assert mapping[..k] == mapping;
    }
  }

  /** `_extract_params_from_field_mapping`: the loop with its `seen_params` set. */
  method CollectParams(mapping: Entries) returns (r: Result<seq<Param>, ToolError>)
    ensures r == ExtractParams(mapping)
  {
    var params: seq<Param> := [];
    var seen: set<string> := {};
    var k := 0;
    while k < |mapping|
      invariant 0 <= k <= |mapping|
      invariant ExtractParams(mapping[..k]) == Ok(params)
      invariant forall n :: n in seen <==> n in Names(params)
    {
      assert mapping[..k + 1][..k] == mapping[..k];
      var cfg := mapping[k].1;
      var name := NameOf(cfg);
      if PyTruthy(name) {
        if !name.Str? {
          ErrorSticks(mapping, k + 1);
          return Err(BadParamName(name));
        }
        if name.s !in seen {
          NamesSnoc(params, MakeParam(name.s, cfg));
          seen := seen + {name.s};
          params := params + [MakeParam(name.s, cfg)];
        }
      }
      k := k + 1;
    }
    assert mapping[..k] == mapping;
    return Ok(params);
  }

  /** The user name, when it is truthy. */
  predicate HasUser(username: Option<string>) {
    username.Some? && username.value != ""
  }

  /** The parameters after giving the first "username" parameter the user's name as its defaultValue. */
  function WithUsername(params: seq<Param>, username: string): (r: seq<Param>)
    ensures |r| == |params|
    ensures "username" !in Names(params) ==> r == params
    ensures "username" in Names(params) ==>
      var i := FirstIndex(Names(params), "username");
      r == params[i := params[i].(defaultValue := Some(Str(username)), required := false)]
  {
    if "username" !in Names(params) then params
    else
      var i := FirstIndex(Names(params), "username");
      params[i := params[i].(defaultValue := Some(Str(username)), required := false)]
  }

  /** With distinct names, the one "username" parameter gets the user as its defaultValue and every other parameter stays. */
  lemma WithUsernameUnique(params: seq<Param>, username: string)
    requires NoDup(Names(params))
    ensures var r := WithUsername(params, username);
            forall i :: 0 <= i < |params| ==>
              r[i] == if params[i].name == "username"
                      then params[i].(defaultValue := Some(Str(username)), required := false)
                      else params[i]
  {
    if "username" in Names(params) {
      var j := FirstIndex(Names(params), "username");
      forall i | 0 <= i < |params| && params[i].name == "username"
        ensures i == j
      {
        assert Names(params)[i] == Names(params)[j];
      }
    }
  }

  /**
   * `toolkit_config.get("api", {}).get("request_body", {}).get("field_mapping", {})`,
   * then iterated with `.items()`: the mapping, or the key of the first
   * section that is present but not an object, where AttributeError is raised.
   */
  function FieldMappingOf(config: Entries): (r: Result<Entries, ToolError>)
    ensures ToolkitEngine.DictAt(config, "api").None? ==> r == Err(NotAnObject("api"))
    ensures r.Ok? && !HasKey(config, "api") ==> r.value == []
    ensures r.Err? ==> r.error.NotAnObject?
  {
    var api := ToolkitEngine.DictAt(config, "api");
    if api.None? then Err(NotAnObject("api"))
    else
      var body := ToolkitEngine.DictAt(api.value, "request_body");
      if body.None? then Err(NotAnObject("request_body"))
      else
        var mapping := ToolkitEngine.DictAt(body.value, "field_mapping");
        if mapping.None? then Err(NotAnObject("field_mapping")) else Ok(mapping.value)
  }

  /** `_build_tool_from_config(toolkit_config, username)`. */
  function ToolFrom(config: Entries, username: Option<string>): Result<Tool, ToolError> {
    var found := FieldMappingOf(config);
    if found.Err? then Err(found.error)
    else
      var params := ExtractParams(found.value);
      if params.Err? then Err(params.error)
      else
        Ok(Tool(Get(config, "app_id"), Get(config, "app_type"), Get(config, "title"),
                if HasUser(username) then WithUsername(params.value, username.value) else params.value))
  }

  /** The built tool lists each source name once, and only a "username" parameter carries the user's name. */
  lemma ToolFromParams(config: Entries, username: Option<string>)
    requires ToolFrom(config, username).Ok?
    ensures FieldMappingOf(config).Ok?
    ensures var mapping := FieldMappingOf(config).value;
            var params := ExtractParams(mapping).value;
            var tool := ToolFrom(config, username).value;
            && Names(tool.params) == Dedup(SourceNames(mapping))
            && forall i :: 0 <= i < |params| ==>
                 tool.params[i] == if HasUser(username) && params[i].name == "username"
                                   then params[i].(defaultValue := Some(Str(username.value)), required := false)
                                   else params[i]
  {
    var mapping := FieldMappingOf(config).value;
    var params := ExtractParams(mapping).value;
    ExtractParamsNames(mapping);
    DedupNoDup(SourceNames(mapping));
    if HasUser(username) {
      WithUsernameUnique(params, username.value);
      var r := WithUsername(params, username.value);
      assert Names(r) == Names(params) by {
        forall i | 0 <= i < |r| ensures r[i].name == params[i].name { }
      }
    }
  }

  /** The loop of `_build_tool_from_config`: the first "username" parameter is updated in place, then the loop stops. */
  method SetUsernameDefault(params: seq<Param>, username: string) returns (r: seq<Param>)
    ensures r == WithUsername(params, username)
  {
    r := params;
    var k := 0;
    while k < |r|
      invariant 0 <= k <= |r|
      invariant r == params
      invariant "username" !in Names(params)[..k]
    {
      if r[k].name == "username" {
        FirstIndexAt(Names(params), "username", k);
        r := r[k := r[k].(defaultValue := Some(Str(username)), required := false)];
        return;
      }
      PrefixSnoc(Names(params), k);
      k := k + 1;
    }
    assert Names(params)[..k] == Names(params);
  }

  /** `_build_tool_from_config(toolkit_config, username)`. */
  method BuildTool(config: Entries, username: Option<string>) returns (r: Result<Tool, ToolError>)
    ensures r == ToolFrom(config, username)
  {
    var found := FieldMappingOf(config);
    if found.Err? {
      return Err(found.error);
    }
    var extracted := CollectParams(found.value);
    if extracted.Err? {
      return Err(extracted.error);
    }
    var params := extracted.value;
    if HasUser(username) {
      params := SetUsernameDefault(params, username.value);
    }
    return Ok(Tool(Get(config, "app_id"), Get(config, "app_type"), Get(config, "title"), params));
  }
}
