/**
 * Request helpers for the SecMaster API: the condition and logic lists of
 * a search request, and trimming a trailing slash from a base URL.
 */
module HttpUtil {
  import opened Wrappers
  import opened Text
  import opened Values
  import opened Seqs

  /** `_remove_last_slash(url)`; `None` stands for Python's `None`. */
  function RemoveLastSlash(url: Option<string>): (r: Option<string>)
    ensures url.None? || url == Some("") ==> r == url
    ensures url.Some? && url.value != "" && EndsWith(url.value, "/") ==> r.Some? && r.value + "/" == url.value
    ensures url.Some? && !EndsWith(url.value, "/") ==> r == url
  {
    if url.None? || url.value == "" then url
    else if EndsWith(url.value, "/") then Some(url.value[..|url.value| - 1])
    else url
  }

  /** One search condition: its name and its `data` triple. */
  datatype Condition = Condition(name: string, data: seq<Value>)

  /** Every `(field, value)` pair of the input dictionaries, in iteration order. */
  function Pairs(input: seq<Entries>): seq<(string, Value)> {
    FlatMap((d: Entries) => d, input)
  }

  /** The name of the pair numbered `k`: its field followed by the running counter. */
  function ConditionName(pair: (string, Value), k: nat): string {
    pair.0 + NatToString(k)
  }

  /** The condition built for the pair numbered `k`. */
  function MakeCondition(pair: (string, Value), k: nat): Condition {
    Condition(ConditionName(pair, k), [Str(pair.0), Str("contains"), pair.1])
  }

  /** The conditions, one per pair, numbered across all pairs. */
  function Conditions(pairs: seq<(string, Value)>): (r: seq<Condition>)
    ensures |r| == |pairs|
  {
    if pairs == [] then [] else Conditions(pairs[..|pairs| - 1]) + [MakeCondition(pairs[|pairs| - 1], |pairs| - 1)]
  }

  /** The condition names, in order. */
  function Names(pairs: seq<(string, Value)>): (r: seq<string>)
    ensures |r| == |pairs|
  {
    if pairs == [] then [] else Names(pairs[..|pairs| - 1]) + [ConditionName(pairs[|pairs| - 1], |pairs| - 1)]
  }

  /**
   * Exactly one condition per pair, in input order: the k-th is named by its
   * field and k, and its data is `[field, "contains", value]`.
   */
  lemma {:induction false} ConditionsAt(pairs: seq<(string, Value)>, k: nat)
    requires k < |pairs|
    ensures Conditions(pairs)[k] == Condition(pairs[k].0 + NatToString(k), [Str(pairs[k].0), Str("contains"), pairs[k].1])
    ensures Names(pairs)[k] == Conditions(pairs)[k].name
    decreases |pairs|
  {
    if k < |pairs| - 1 {
      ConditionsAt(pairs[..|pairs| - 1], k);
    }
  }

  /** `"and"` before every name: the list the loop builds before its first element is dropped. */
  function AndNames(names: seq<string>): (r: seq<string>)
    ensures |r| == 2 * |names|
  {
    if names == [] then [] else AndNames(names[..|names| - 1]) + ["and", names[|names| - 1]]
  }

  /** The logics: the names joined by `"and"`, which is `logics[1:]` of the loop's list. */
  function Logics(names: seq<string>): (r: seq<string>)
  {
    Slice(AndNames(names), 1, |AndNames(names)|)
  }

  lemma {:induction false} AndNamesAt(names: seq<string>, j: nat)
    requires j < 2 * |names|
    ensures AndNames(names)[j] == if j % 2 == 0 then "and" else names[j / 2]
    decreases |names|
  {
    var init := names[..|names| - 1];
    if j < 2 * |init| {
      AndNamesAt(init, j);
    }
  }

  /**
   * The logics are empty for no pairs and otherwise alternate name, "and",
   * name, ..., starting and ending with a name: 2n - 1 entries.
   */
  lemma LogicsShape(names: seq<string>)
    ensures names == [] ==> Logics(names) == []
    ensures names != [] ==> |Logics(names)| == 2 * |names| - 1
    ensures forall j :: 0 <= j < |Logics(names)| ==>
              Logics(names)[j] == if j % 2 == 0 then names[j / 2] else "and"
  {
    var raw := AndNames(names);
    forall j | 0 <= j < |Logics(names)|
      ensures Logics(names)[j] == if j % 2 == 0 then names[j / 2] else "and"
    {
      AndNamesAt(names, j + 1);
    }
  }

  lemma PairsSnoc(pairs: seq<(string, Value)>, pair: (string, Value))
    ensures Conditions(pairs + [pair]) == Conditions(pairs) + [MakeCondition(pair, |pairs|)]
    ensures Names(pairs + [pair]) == Names(pairs) + [MakeCondition(pair, |pairs|).name]
  {
    assert (pairs + [pair])[..|pairs|] == pairs;
  }

  lemma AndNamesSnoc(names: seq<string>, name: string)
    ensures AndNames(names + [name]) == AndNames(names) + ["and", name]
  {
    assert (names + [name])[..|names|] == names;
  }

  lemma PairsPrefix(input: seq<Entries>, d: nat)
    requires d < |input|
    ensures Pairs(input[..d + 1]) == Pairs(input[..d]) + input[d]
  {
    FlatMapSnoc((d: Entries) => d, input[..d], input[d]);
    assert input[..d + 1] == input[..d] + [input[d]];
  }

  /** The loop's state after the pairs `seen`: the counter, the conditions and the raw logics list. */
  predicate Built(seen: seq<(string, Value)>, i: int, conditions: seq<Condition>, raw: seq<string>) {
    i == |seen| && conditions == Conditions(seen) && raw == AndNames(Names(seen))
  }

  lemma BuiltSnoc(seen: seq<(string, Value)>, i: int, conditions: seq<Condition>, raw: seq<string>, pair: (string, Value))
    requires Built(seen, i, conditions, raw)
    ensures Built(seen + [pair], i + 1, conditions + [MakeCondition(pair, i)], raw + ["and", MakeCondition(pair, i).name])
  {
    PairsSnoc(seen, pair);
    AndNamesSnoc(Names(seen), MakeCondition(pair, i).name);
  }

  /** `build_conditions_and_logics(input_conditions)`. */
  method BuildConditionsAndLogics(input: seq<Entries>) returns (conditions: seq<Condition>, logics: seq<string>)
    ensures conditions == Conditions(Pairs(input))
    ensures logics == Logics(Names(Pairs(input)))
  {
    conditions := [];
    var raw: seq<string> := [];
    var i := 0;
    ghost var seen: seq<(string, Value)> := [];
    for d := 0 to |input|
      invariant seen == Pairs(input[..d])
      invariant Built(seen, i, conditions, raw)
    {
      var data := input[d];
      ghost var done := seen;
      for e := 0 to |data|
        invariant seen == done + data[..e]
        invariant Built(seen, i, conditions, raw)
      {
        var pair := data[e];
        var condition := MakeCondition(pair, i);
        BuiltSnoc(seen, i, conditions, raw, pair);
        conditions := conditions + [condition];
        raw := raw + ["and", condition.name];
        i := i + 1;
        PrefixSnoc(data, e);
        seen := seen + [pair];
      }
      assert data[..|data|] == data;
      PairsPrefix(input, d);
    }
    assert input[..|input|] == input;
    logics := Slice(raw, 1, |raw|);
  }
}
