/**
 * The request builders of the attack-surface list in `web/src/api/asm.js`:
 * search keywords are normalised into (field, value) pairs, turned into the
 * list query's conditions after an optional status condition, and the page
 * number becomes a limit and an offset.
 */
module AsmApi {
  import opened Wrappers
  import opened Text
  import opened Values

  /** One normalised search keyword. */
  datatype Keyword = Keyword(field: Value, value: Value)

  /** One query condition `{name: value}`. */
  datatype Condition = Condition(name: string, value: Value)

  /** JavaScript `kw.trim()` on a string, any other value kept. */
  function TrimValue(v: Value): (r: Value)
    ensures v.Str? ==> r == Str(Strip(v.s))
    ensures !v.Str? ==> r == v
  {
    if v.Str? then Str(Strip(v.s)) else v
  }

  /** The legacy form: every non-empty string becomes a title keyword, trimmed; blanks are dropped. */
  function TitleKeywords(items: seq<Value>): (r: seq<Keyword>)
    ensures |r| <= |items|
    ensures forall k :: 0 <= k < |r| ==> r[k].field == Str("title") && r[k].value.Str? && r[k].value.s != "" && IsStripped(r[k].value.s)
  {
    if items == [] then []
    else
      var kw := items[|items| - 1];
      TitleKeywords(items[..|items| - 1])
        + (if kw.Str? && Strip(kw.s) != "" then [Keyword(Str("title"), Str(Strip(kw.s)))] else [])
  }

  /** Whether an entry of the object form is kept: an object whose field and value are truthy. */
  predicate KeptObject(kw: Value) {
    kw.Dict? && JsTruthy(Get(kw.entries, "field")) && JsTruthy(Get(kw.entries, "value"))
      && TrimValue(Get(kw.entries, "value")) != Str("")
  }

  /** The object form: entries with a truthy field and value, string values trimmed, blanks dropped. */
  function ObjectKeywords(items: seq<Value>): (r: seq<Keyword>)
    ensures |r| <= |items|
    ensures forall k :: 0 <= k < |r| ==> JsTruthy(r[k].field) && r[k].value != Str("")
  {
    if items == [] then []
    else
      var kw := items[|items| - 1];
      ObjectKeywords(items[..|items| - 1])
        + (if KeptObject(kw) then [Keyword(Get(kw.entries, "field"), TrimValue(Get(kw.entries, "value")))] else [])
  }

  /** `normalizeSearchKeywords(searchKeywords)`. */
  function NormalizeSearchKeywords(searchKeywords: Value): (r: seq<Keyword>)
    ensures !searchKeywords.List? ==> r == []
    ensures searchKeywords.List? && searchKeywords.items != [] && searchKeywords.items[0].Str? ==>
      r == TitleKeywords(searchKeywords.items)
    ensures forall k :: 0 <= k < |r| ==> JsTruthy(r[k].field) && r[k].value != Str("")
  {
    if !JsTruthy(searchKeywords) || !searchKeywords.List? then []
    else
      var items := searchKeywords.items;
      if |items| > 0 && items[0].Str? then TitleKeywords(items)
      else ObjectKeywords(items)
  }

  /** The legacy form keeps exactly the non-blank strings, in order. */
  lemma {:induction false} TitleKeywordsExact(items: seq<Value>)
    ensures TitleKeywords(items) == TitleKeywordsOf(TrimmedStrings(items))
    decreases |items|
  {
    if items != [] {
      TitleKeywordsExact(items[..|items| - 1]);
      var kw := items[|items| - 1];
      var init := TrimmedStrings(items[..|items| - 1]);
      if kw.Str? && Strip(kw.s) != "" {
        assert TrimmedStrings(items) == init + [Strip(kw.s)];
        TitleKeywordsOfSnoc(init, Strip(kw.s));
      }
    }
  }

  /** A title keyword for each string. */
  function TitleKeywordsOf(words: seq<string>): (r: seq<Keyword>)
    ensures |r| == |words| && forall k :: 0 <= k < |words| ==> r[k] == Keyword(Str("title"), Str(words[k]))
  {
    seq(|words|, k requires 0 <= k < |words| => Keyword(Str("title"), Str(words[k])))
  }

  lemma TitleKeywordsOfSnoc(words: seq<string>, w: string)
    ensures TitleKeywordsOf(words + [w]) == TitleKeywordsOf(words) + [Keyword(Str("title"), Str(w))]
  {
  }

  /** The client's status names and the API's. */
  function StatusToApi(status: string): Option<string> {
    if status == "open" then Some("Open")
    else if status == "block" then Some("Block")
    else if status == "closed" then Some("Closed")
    else None
  }

  /** The list query's name of a keyword field: "id" is "alert_id", every other field passes through. */
  function ApiField(field: Value): (name: string)
    ensures JsString(field) == "id" ==> name == "alert_id"
    ensures JsString(field) != "id" ==> name == JsString(field)
  {
    var key := JsString(field);
    if key == "id" then "alert_id" else key
  }

  /** Whether a status filter is sent: a truthy status other than "all". */
  predicate FiltersStatus(status: Value) {
    JsTruthy(status) && status != Str("all")
  }

  /**
   * The condition of a status filter: a client status in the API's spelling,
   * any other value unchanged. The map is indexed with the status as a
   * property key, so a non-string status is looked up by its `String` form.
   */
  function StatusCondition(status: Value): (c: Condition)
    ensures c.name == "handle_status"
    ensures StatusToApi(JsString(status)).Some? ==> c.value == Str(StatusToApi(JsString(status)).value)
    ensures StatusToApi(JsString(status)).None? ==> c.value == status
    ensures status.Str? && StatusToApi(status.s).None? ==> c.value == status
  {
    var mapped := StatusToApi(JsString(status));
    Condition("handle_status", if mapped.Some? then Str(mapped.value) else status)
  }

  /** A one-element array holding a client status is mapped like the status itself. */
  lemma StatusConditionCoerced(s: string)
    requires StatusToApi(s).Some?
    ensures StatusCondition(List([Str(s)])) == StatusCondition(Str(s))
  {
    assert JsItems([Str(s)]) == [s];
    assert JsString(List([Str(s)])) == s;
  }

  function KeywordCondition(kw: Keyword): Condition {
    Condition(ApiField(kw.field), kw.value)
  }

  /** One condition per keyword, in order. */
  function KeywordConditions(kws: seq<Keyword>): (r: seq<Condition>)
    ensures |r| == |kws| && forall k :: 0 <= k < |kws| ==> r[k] == Condition(ApiField(kws[k].field), kws[k].value)
  {
    if kws == [] then [] else KeywordConditions(kws[..|kws| - 1]) + [KeywordCondition(kws[|kws| - 1])]
  }

  /** `buildConditions(searchKeywords, status)`: the status condition first, when sent, then one per keyword. */
  function Conditions(searchKeywords: Value, status: Value): (r: seq<Condition>)
    ensures |r| == (if FiltersStatus(status) then 1 else 0) + |NormalizeSearchKeywords(searchKeywords)|
    ensures FiltersStatus(status) ==> r[0] == StatusCondition(status)
    ensures r[|r| - |NormalizeSearchKeywords(searchKeywords)|..] == KeywordConditions(NormalizeSearchKeywords(searchKeywords))
  {
    if FiltersStatus(status) then [StatusCondition(status)] + KeywordConditions(NormalizeSearchKeywords(searchKeywords))
    else KeywordConditions(NormalizeSearchKeywords(searchKeywords))
  }

  /** `buildConditions`: the status condition, then the keyword conditions pushed inside `forEach`. */
  method BuildConditions(searchKeywords: Value, status: Value) returns (conditions: seq<Condition>)
    ensures conditions == Conditions(searchKeywords, status)
  {
    conditions := [];
    if FiltersStatus(status) {
      conditions := conditions + [StatusCondition(status)];
    }
    conditions := PushKeywordConditions(conditions, NormalizeSearchKeywords(searchKeywords));
  }

  /** The `forEach` loop of `buildConditions`: one condition pushed per keyword. */
  method PushKeywordConditions(head: seq<Condition>, kws: seq<Keyword>) returns (conditions: seq<Condition>)
    ensures conditions == head + KeywordConditions(kws)
  {
    conditions := head;
    for k := 0 to |kws|
      invariant conditions == head + KeywordConditions(kws[..k])
    {
      assert kws[..k + 1][..k] == kws[..k];
      conditions := conditions + [KeywordCondition(kws[k])];
    }
    assert kws[..|kws|] == kws;
  }

  /** The page window of `getASMItems`: page and size default to 1 and 10 when falsy. */
  datatype Window = Window(limit: int, offset: int)

  function PageWindow(page: int, pageSize: int): (w: Window)
    ensures w.limit == (if pageSize == 0 then 10 else pageSize)
    ensures w.offset == ((if page == 0 then 1 else page) - 1) * w.limit
  {
    var p := if page == 0 then 1 else page;
    var size := if pageSize == 0 then 10 else pageSize;
    Window(size, (p - 1) * size)
  }

  /** Consecutive pages are adjacent windows: a page starts where the previous one ends. */
  lemma PageWindowsAdjacent(page: nat, pageSize: nat)
    requires page >= 1
    ensures PageWindow(page + 1, pageSize).offset == PageWindow(page, pageSize).offset + PageWindow(page, pageSize).limit
    ensures PageWindow(page, pageSize).offset >= 0
    ensures PageWindow(1, pageSize) == PageWindow(0, pageSize)
  {
    var size := if pageSize == 0 then 10 else pageSize;
    assert page * size == (page - 1) * size + size;
  }

  /** `CLOSE_REASON_CATEGORY_MAP`: the console's close categories and the API's close reasons. */
  const CloseReasonCategories: map<string, string> :=
    map["falsePositive" := "False detection", "resolved" := "Resolved", "repeated" := "Repeated", "other" := "Other"]

  /**
   * The API's close reason for a chosen category: a known category is
   * renamed, any other truthy value is sent as is, and nothing becomes "Other".
   */
  function CloseReasonOf(category: Value): (r: Value)
    ensures JsString(category) in CloseReasonCategories ==> r == Str(CloseReasonCategories[JsString(category)])
    ensures JsString(category) !in CloseReasonCategories && JsTruthy(category) ==> r == category
    ensures !JsTruthy(category) ==> r == Str("Other")
    ensures r.Str? ==> r.s != ""
  {
    var key := JsString(category);
    if key in CloseReasonCategories then Str(CloseReasonCategories[key])
    else if JsTruthy(category) then category
    else Str("Other")
  }
}
