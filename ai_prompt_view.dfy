/**
 * The suggested-prompt endpoint of `api/views/ai_prompt_view.py`: the page
 * route and the language are normalised, a detail page of an alert shares
 * one set of prompts, and at most three configured prompts are returned.
 */
module AiPromptView {
  import opened Wrappers
  import opened Text
  import opened Values

  /** The languages prompts are configured in. */
  const SupportedLangs: set<string> := {"zh", "en"}

  /** The largest number of prompts one answer carries. */
  const MaxPrompts: nat := 3

  /** `_norm_route(raw)`: the path without its query string, with one leading "/" and no trailing "/". */
  function NormRoute(raw: string): (r: string)
    ensures raw == "" <==> r == ""
    ensures raw != "" ==> r[0] == '/' && '?' !in r
    ensures raw != "" ==> r == "/" || r[|r| - 1] != '/'
  {
    if raw == "" then ""
    else
      var path := RoutePath(raw);
      var trimmed := RStripChar(path, '/');
      if trimmed == "" then "/" else trimmed
  }

  /** The path `_norm_route` trims: the stripped text before the first "?", with a leading "/". */
  function RoutePath(raw: string): (path: string)
    ensures |path| > 0 && path[0] == '/' && '?' !in path
  {
    var head := Split(raw, '?')[0];
    var stripped := Strip(head);
    StripKeeps(head, '?');
    if StartsWith(stripped, "/") then stripped else "/" + stripped
  }

  /** Stripping whitespace adds no character. */
  lemma StripKeeps(s: string, c: char)
    requires c !in s
    ensures c !in Strip(s)
  {
    var l := LStrip(s);
    var r := RStrip(l);
    assert r == Strip(s);
    forall k | 0 <= k < |r|
      ensures r[k] != c
    {
      assert r[k] == l[k] == s[|s| - |l| + k];
    }
  }

  /**
   * `_norm_route` is idempotent on every route except those whose
   * normalised form ends in whitespace, which a second pass strips.
   */
  lemma NormRouteIdempotent(raw: string)
    ensures var r := NormRoute(raw);
            NormRoute(r) == r <==> r == "" || !IsSpace(r[|r| - 1])
  {
    var r := NormRoute(raw);
    if r != "" {
      if !IsSpace(r[|r| - 1]) {
        NormRouteFixed(r);
      } else {
        NormRouteShrinks(r);
      }
    }
  }

  /** A normalised route without trailing whitespace normalises to itself. */
  lemma NormRouteFixed(r: string)
    requires r != "" && r[0] == '/' && '?' !in r && (r == "/" || r[|r| - 1] != '/')
    requires !IsSpace(r[|r| - 1])
    ensures NormRoute(r) == r
  {
    assert Split(r, '?') == [r];
    assert IsStripped(r);
    StripOfStripped(r);
    assert RoutePath(r) == r;
    if r != "/" {
      assert RStripChar(r, '/') == r;
    }
  }

  /** A route ending in whitespace loses it when normalised. */
  lemma NormRouteShrinks(r: string)
    requires r != "" && r[0] == '/' && '?' !in r
    requires IsSpace(r[|r| - 1])
    ensures NormRoute(r) != r
  {
    assert Split(r, '?') == [r];
    assert |Strip(r)| < |r| by {
      assert LStrip(r) == r;
    }
    assert |RoutePath(r)| <= |r|;
    assert |NormRoute(r)| < |r| || NormRoute(r) == "/";
  }

  /** The route "/ /" normalises to "/ ", which normalises to "/". */
  lemma NormRouteTwice()
    ensures NormRoute("/ /") == "/ " && NormRoute("/ ") == "/"
  {
    assert Split("/ /", '?') == ["/ /"];
    assert Strip("/ /") == "/ /" by { StripOfStripped("/ /"); }
    assert RStripChar("/ /", '/') == "/ ";
    assert Split("/ ", '?') == ["/ "];
    assert Strip("/ ") == "/" by {
      assert LStrip("/ ") == "/ ";
      assert RStrip("/ ") == RStrip("/");
    }
  }

  /** `_norm_lang(raw)`: any "zh…" is Chinese, any "en…" English, anything else lower-cased. */
  function NormLang(raw: string): (r: string)
    ensures r == "zh" <==> StartsWith(Lower(raw), "zh")
    ensures r == "en" <==> StartsWith(Lower(raw), "en")
    ensures r !in SupportedLangs ==> r == Lower(raw)
  {
    var lowered := Lower(raw);
    if StartsWith(lowered, "zh") then "zh"
    else if StartsWith(lowered, "en") then "en"
    else lowered
  }

  /** Normalising a normalised language changes nothing. */
  lemma NormLangIdempotent(raw: string)
    ensures NormLang(NormLang(raw)) == NormLang(raw)
  {
    var r := NormLang(raw);
    assert Lower(Lower(raw)) == Lower(raw);
    if r in SupportedLangs {
      assert Lower(r) == r;
    }
  }

  /** The configuration key of a route: every "/alerts/<id>" page shares "/alerts/detail". */
  function RouteKey(route: string): (key: string)
    ensures StartsWith(route, "/alerts/") && CountChar(route, '/') == 2 ==> key == "/alerts/detail"
    ensures !(StartsWith(route, "/alerts/") && CountChar(route, '/') == 2) ==> key == route
  {
    if StartsWith(route, "/alerts/") && CountChar(route, '/') == 2 then "/alerts/detail" else route
  }

  /** An alert's detail page maps to the shared key; the alert list keeps its own. */
  lemma RouteKeyDetail(id: string)
    requires '/' !in id
    ensures RouteKey("/alerts/" + id) == "/alerts/detail"
    ensures RouteKey("/alerts") == "/alerts"
  {
    var route := "/alerts/" + id;
    assert route[..8] == "/alerts/";
    assert CountChar(route, '/') == 2 by {
      CountCharAppend("/alerts/", id, '/');
      PrefixSlashes();
    }
    assert !StartsWith("/alerts", "/alerts/");
  }

  /** "/alerts/" holds two slashes. */
  lemma PrefixSlashes()
    ensures CountChar("/alerts/", '/') == 2
  {
    CountCharAppend("/", "alerts", '/');
    CountCharAppend("/alerts", "/", '/');
    assert "/" + "alerts" == "/alerts" && "/alerts" + "/" == "/alerts/";
    assert '/' !in "alerts";
    assert CountChar("/", '/') == 1 + CountChar("", '/');
  }

  /** Iterating a configured entry raises when it is a truthy number or boolean. */
  datatype PromptError = NotIterable(entry: Value)

  /** The prompts of one language among configured items: each dict item's truthy value for it. */
  function LangPrompts(items: seq<Value>, lang: string): (r: seq<Value>)
    ensures |r| <= |items|
    ensures forall k :: 0 <= k < |r| ==> PyTruthy(r[k])
  {
    if items == [] then []
    else
      var last := items[|items| - 1];
      LangPrompts(items[..|items| - 1], lang)
        + (if last.Dict? && PyTruthy(Get(last.entries, lang)) then [Get(last.entries, lang)] else [])
  }

  /** Every prompt found comes from a dict item that configures the language. */
  lemma {:induction false} LangPromptsFrom(items: seq<Value>, lang: string, k: nat)
    requires k < |LangPrompts(items, lang)|
    ensures exists j :: 0 <= j < |items| && items[j].Dict? && LangPrompts(items, lang)[k] == Get(items[j].entries, lang)
    decreases |items|
  {
    var init := items[..|items| - 1];
    if k < |LangPrompts(init, lang)| {
      LangPromptsFrom(init, lang, k);
      var j :| 0 <= j < |init| && init[j].Dict? && LangPrompts(init, lang)[k] == Get(init[j].entries, lang);
      assert items[j] == init[j];
    }
  }

  /**
   * `[item.get(lang) for item in entries if isinstance(item, dict) and item.get(lang)]`
   * over the configured entries: a list yields its items; a dict or string
   * yields keys or characters, none of them a dict; a truthy number cannot be
   * iterated.
   */
  function PromptsOf(entries: Value, lang: string): (r: Result<seq<Value>, PromptError>)
    ensures r.Err? <==> entries.Int? || entries.Bool?
    ensures entries.List? ==> r == Ok(LangPrompts(entries.items, lang))
    ensures entries.Dict? || entries.Str? ==> r == Ok([])
  {
    match entries
    case List(items) => Ok(LangPrompts(items, lang))
    case Dict(_) => Ok([])
    case Str(_) => Ok([])
    case Null => Ok([])
    case _ => Err(NotIterable(entries))
  }

  /** `pool` without its element at `i`. */
  function Without<T>(pool: seq<T>, i: nat): (r: seq<T>)
    requires i < |pool|
    ensures |r| == |pool| - 1
    ensures multiset(r) + multiset{pool[i]} == multiset(pool)
  {
    assert pool == pool[..i] + [pool[i]] + pool[i + 1..];
    pool[..i] + pool[i + 1..]
  }

  /**
   * `random.sample(pool, k)`: `k` elements drawn without replacement, the
   * random choices supplied as `draws` (a missing draw reads as 0).
   */
  function Sample<T>(pool: seq<T>, k: nat, draws: seq<nat>): (r: seq<T>)
    requires k <= |pool|
    ensures |r| == k
    ensures multiset(r) <= multiset(pool)
    decreases k
  {
    if k == 0 then []
    else
      var i := (if draws == [] then 0 else draws[0]) % |pool|;
      var rest := Sample(Without(pool, i), k - 1, if draws == [] then [] else draws[1..]);
      [pool[i]] + rest
  }

  /** The answer body: an error message or the chosen prompts. */
  datatype Body = ErrorMessage(message: string) | Data(prompts: seq<Value>)

  datatype Response = Response(body: Body, status: nat)

  /**
   * `AIPromptView.get` with the query arguments `route` and `lang`, the
   * loaded configuration and the random draws; an entry that cannot be
   * iterated raises.
   */
  function PromptsFor(route: string, lang: string, config: Entries, draws: seq<nat>): (r: Result<Response, PromptError>)
    ensures r.Ok? && r.value.status != 200 ==> r.value.status == 400 && r.value.body.ErrorMessage?
    ensures r.Ok? && r.value.status == 400 <==> route == "" || NormLang(lang) !in SupportedLangs
    ensures r.Ok? && r.value.status == 200 ==> r.value.body.Data? && |r.value.body.prompts| <= MaxPrompts
  {
    var path := NormRoute(route);
    var language := NormLang(lang);
    if path == "" then Ok(Response(ErrorMessage("route is required"), 400))
    else if language !in SupportedLangs then Ok(Response(ErrorMessage("lang must be zh or en"), 400))
    else
      var entries := PyOr(Get(config, RouteKey(path)), List([]));
      var prompts := PromptsOf(entries, language);
      if prompts.Err? then Err(prompts.error)
      else
        var all := prompts.value;
        var take := if |all| < MaxPrompts then |all| else MaxPrompts;
        Ok(Response(Data(if |all| > take then Sample(all, take, draws) else all), 200))
  }

  /**
   * The prompts returned are configured prompts for the route's key: all of
   * them in order when there are at most three, otherwise three distinct
   * picks among them.
   */
  lemma PromptsForChoice(route: string, lang: string, config: Entries, draws: seq<nat>)
    requires PromptsFor(route, lang, config, draws).Ok?
    requires PromptsFor(route, lang, config, draws).value.status == 200
    ensures var all := PromptsOf(PyOr(Get(config, RouteKey(NormRoute(route))), List([])), NormLang(lang)).value;
            var chosen := PromptsFor(route, lang, config, draws).value.body.prompts;
            && (|all| <= MaxPrompts ==> chosen == all)
            && (|all| > MaxPrompts ==> |chosen| == MaxPrompts)
            && multiset(chosen) <= multiset(all)
  {
  }
}
