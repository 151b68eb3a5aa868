/**
 * The dynamically typed values the modelled Python and JavaScript code
 * passes around: JSON documents, request payloads and dictionaries.
 * A dictionary is an insertion-ordered association list, as Python's
 * `dict` and a JavaScript object with string keys are.
 */
module Values {
  import opened Wrappers
  import opened Text
  import opened JsonStrings

  datatype Value =
    | Null
    | Bool(b: bool)
    | Int(i: int)
    | Str(s: string)
    | List(items: seq<Value>)
    | Dict(entries: seq<(string, Value)>)

  type Entries = seq<(string, Value)>

  /** A list of strings as a JSON array. */
  function Strs(words: seq<string>): (items: seq<Value>)
    ensures |items| == |words| && forall k :: 0 <= k < |words| ==> items[k] == Str(words[k])
  {
    if words == [] then [] else Strs(words[..|words| - 1]) + [Str(words[|words| - 1])]
  }

  /** The strings among `items`, trimmed, with blanks and every other value dropped, in order. */
  function TrimmedStrings(items: seq<Value>): (r: seq<string>)
    ensures |r| <= |items|
    ensures forall k :: 0 <= k < |r| ==> r[k] != "" && IsStripped(r[k])
  {
    if items == [] then []
    else
      var item := items[|items| - 1];
      TrimmedStrings(items[..|items| - 1]) + (if item.Str? && Strip(item.s) != "" then [Strip(item.s)] else [])
  }

  /** Trimmed non-blank strings come back unchanged. */
  lemma {:induction false} TrimmedStringsStable(words: seq<string>)
    requires forall k :: 0 <= k < |words| ==> words[k] != "" && IsStripped(words[k])
    ensures TrimmedStrings(Strs(words)) == words
    decreases |words|
  {
    if words != [] {
      var init := words[..|words| - 1];
      var last := words[|words| - 1];
      TrimmedStringsStable(init);
      var items := Strs(words);
      assert items[..|items| - 1] == Strs(init);
      StripOfStripped(last);
      assert words == init + [last];
    }
  }

  /** Python truthiness: None, False, 0, "", [] and {} are false. */
  predicate PyTruthy(v: Value) {
    match v
    case Null => false
    case Bool(b) => b
    case Int(i) => i != 0
    case Str(s) => s != ""
    case List(items) => items != []
    case Dict(entries) => entries != []
  }

  /** JavaScript truthiness: arrays and objects are true even when empty. */
  predicate JsTruthy(v: Value) {
    match v
    case Null => false
    case Bool(b) => b
    case Int(i) => i != 0
    case Str(s) => s != ""
    case List(_) => true
    case Dict(_) => true
  }

  /** Python `a or b`: `a` when truthy, otherwise `b`. */
  function PyOr(a: Value, b: Value): (r: Value)
    ensures r == a || r == b
    ensures PyTruthy(r) <==> PyTruthy(a) || PyTruthy(b)
  {
    if PyTruthy(a) then a else b
  }

  /** Python `str(v)`. */
  function Render(v: Value): string {
    match v
    case Str(s) => s
    case _ => Repr(v)
  }

  /** Python `repr(v)`; string escapes are not modelled. */
  function Repr(v: Value): string {
    match v
    case Null => "None"
    case Bool(b) => if b then "True" else "False"
    case Int(i) => IntToString(i)
    case Str(s) => "'" + s + "'"
    case List(items) =>
      "[" + Join(", ", seq(|items|, k requires 0 <= k < |items| => Repr(items[k]))) + "]"
    case Dict(entries) =>
      "{" + Join(", ", seq(|entries|, k requires 0 <= k < |entries| => "'" + entries[k].0 + "': " + Repr(entries[k].1))) + "}"
  }

  /** JavaScript `String(v)`. */
  function JsString(v: Value): string {
    match v
    case Null => "null"
    case Bool(b) => if b then "true" else "false"
    case Int(i) => IntToString(i)
    case Str(s) => s
    case List(items) => Join(",", JsItems(items))
    case Dict(_) => "[object Object]"
  }

  function JsItems(items: seq<Value>): (r: seq<string>)
    ensures |r| == |items|
  {
    if items == [] then []
    else [if items[0].Null? then "" else JsString(items[0])] + JsItems(items[1..])
  }

  function Keys(entries: Entries): (ks: seq<string>)
    ensures |ks| == |entries| && forall k :: 0 <= k < |entries| ==> ks[k] == entries[k].0
  {
    if entries == [] then []
    else
      var rest := Keys(entries[1..]);
      assert forall k :: 1 <= k < |entries| ==> entries[1..][k - 1] == entries[k];
      [entries[0].0] + rest
  }

  predicate HasKey(entries: Entries, key: string) {
    key in Keys(entries)
  }

  /** A well-formed dictionary holds each key once. */
  predicate UniqueKeys(entries: Entries) {
    forall i, j :: 0 <= i < j < |entries| ==> entries[i].0 != entries[j].0
  }

  /** `d[key]` when the key is present. */
  function Lookup(entries: Entries, key: string): (r: Option<Value>)
    ensures r.Some? <==> HasKey(entries, key)
    ensures r.Some? ==> exists k :: 0 <= k < |entries| && entries[k] == (key, r.value)
  {
    if entries == [] then None
    else if entries[0].0 == key then Some(entries[0].1)
    else Lookup(entries[1..], key)
  }

  /** Python `d.get(key, default)`. */
  function GetOr(entries: Entries, key: string, default: Value): Value {
    Lookup(entries, key).GetOr(default)
  }

  /** Python `d.get(key)`. */
  function Get(entries: Entries, key: string): Value {
    GetOr(entries, key, Null)
  }

  /** Python `d[key] = v`: replaces the value in place, or appends a new key. */
  function Set(entries: Entries, key: string, v: Value): (r: Entries)
    ensures |r| == |entries| || |r| == |entries| + 1
  {
    if entries == [] then [(key, v)]
    else if entries[0].0 == key then [(key, v)] + entries[1..]
    else [entries[0]] + Set(entries[1..], key, v)
  }

  /** After `d[key] = v`, `d[key]` is `v` and every other key is unchanged. */
  lemma {:induction false} LookupSet(entries: Entries, key: string, v: Value, k: string)
    ensures Lookup(Set(entries, key, v), k) == if k == key then Some(v) else Lookup(entries, k)
  {
    if entries != [] && entries[0].0 != key {
      LookupSet(entries[1..], key, v, k);
    }
  }

  /** Assignment keeps the key order: an existing key stays in place, a new one goes last. */
  lemma {:induction false} KeysSet(entries: Entries, key: string, v: Value)
    ensures Keys(Set(entries, key, v)) == if HasKey(entries, key) then Keys(entries) else Keys(entries) + [key]
  {
    if entries != [] {
      if entries[0].0 != key {
        KeysSet(entries[1..], key, v);
      }
    }
  }

  /** Assignment never duplicates a key. */
  lemma SetUnique(entries: Entries, key: string, v: Value)
    requires UniqueKeys(entries)
    ensures UniqueKeys(Set(entries, key, v))
  {
    KeysSet(entries, key, v);
    var r := Set(entries, key, v);
    assert forall i :: 0 <= i < |r| ==> r[i].0 == Keys(r)[i];
    assert forall i :: 0 <= i < |entries| ==> entries[i].0 == Keys(entries)[i];
  }

  /** Python `d.update(other)`: every entry of `other` is set in order. */
  function Update(entries: Entries, other: Entries): Entries
    decreases |other|
  {
    if other == [] then entries
    else Update(Set(entries, other[0].0, other[0].1), other[1..])
  }

  /** After `d.update(other)`, keys of `other` take its (last) value and the rest keep theirs. */
  lemma {:induction false} LookupUpdate(entries: Entries, other: Entries, k: string)
    ensures Lookup(Update(entries, other), k) ==
      if HasKey(other, k) then LookupLast(other, k) else Lookup(entries, k)
    decreases |other|
  {
    if other != [] {
      LookupUpdate(Set(entries, other[0].0, other[0].1), other[1..], k);
      LookupSet(entries, other[0].0, other[0].1, k);
    }
  }

  /** The value of the last entry for `key`: what a literal with repeated keys keeps. */
  function LookupLast(entries: Entries, key: string): (r: Option<Value>)
    ensures r.Some? <==> HasKey(entries, key)
  {
    if entries == [] then None
    else
      var rest := LookupLast(entries[1..], key);
      if rest.Some? then rest else if entries[0].0 == key then Some(entries[0].1) else None
  }

  /** In a dictionary with unique keys the first and the last entry for a key are the same. */
  lemma {:induction false} LookupLastUnique(entries: Entries, key: string)
    requires UniqueKeys(entries)
    ensures LookupLast(entries, key) == Lookup(entries, key)
  {
    if entries != [] {
      LookupLastUnique(entries[1..], key);
      if entries[0].0 == key {
        assert !HasKey(entries[1..], key);
      }
    }
  }

  /** Python `{**a, **b}` for dictionaries: a key of `b` takes its value from `b`. */
  lemma MergeLookup(a: Entries, b: Entries, k: string)
    requires UniqueKeys(b)
    ensures Lookup(Update(a, b), k) == if HasKey(b, k) then Lookup(b, k) else Lookup(a, k)
  {
    LookupUpdate(a, b, k);
    LookupLastUnique(b, k);
  }

  /** Update never duplicates a key. */
  lemma {:induction false} UpdateUnique(entries: Entries, other: Entries)
    requires UniqueKeys(entries)
    ensures UniqueKeys(Update(entries, other))
    decreases |other|
  {
    if other != [] {
      SetUnique(entries, other[0].0, other[0].1);
      UpdateUnique(Set(entries, other[0].0, other[0].1), other[1..]);
    }
  }

  /** Python `int(v)` on a JSON value, or None where Python raises TypeError or ValueError. */
  function PyInt(v: Value): (r: Option<int>)
    ensures v.Int? ==> r == Some(v.i)
    ensures v.Null? || v.List? || v.Dict? ==> r.None?
  {
    match v
    case Int(i) => Some(i)
    case Bool(b) => Some(if b then 1 else 0)
    case Str(s) => ParseInt(s)
    case _ => None
  }

  /** A string as a JSON literal, escaped as `json.dumps` escapes it. */
  function JsonQuote(s: string, ensureAscii: bool): (r: string)
    ensures |r| >= 2 && r[0] == '"' && r[|r| - 1] == '"'
    ensures Unescape(r[1..|r| - 1]) == Some(s)
  {
    UnescapeEscape(s, ensureAscii);
    var r := "\"" + JsonEscape(s, ensureAscii) + "\"";
    assert r[1..|r| - 1] == JsonEscape(s, ensureAscii);
    r
  }

  /**
   * Python `json.dumps(v, ensure_ascii=ensureAscii)` with its default
   * separators; `ensure_ascii` is true unless the caller says otherwise.
   */
  function JsonDumps(v: Value, ensureAscii: bool): string {
    match v
    case Null => "null"
    case Bool(b) => if b then "true" else "false"
    case Int(i) => IntToString(i)
    case Str(s) => JsonQuote(s, ensureAscii)
    case List(items) =>
      "[" + Join(", ", seq(|items|, k requires 0 <= k < |items| => JsonDumps(items[k], ensureAscii))) + "]"
    case Dict(entries) =>
      "{" + Join(", ", seq(|entries|, k requires 0 <= k < |entries| =>
        JsonQuote(entries[k].0, ensureAscii) + ": " + JsonDumps(entries[k].1, ensureAscii))) + "}"
  }

  /** The JSON text of a one-item list. */
  lemma JsonDumpsSingleton(x: Value, ensureAscii: bool)
    ensures JsonDumps(List([x]), ensureAscii) == "[" + JsonDumps(x, ensureAscii) + "]"
  {
    var items := [x];
    var parts := seq(|items|, k requires 0 <= k < |items| => JsonDumps(items[k], ensureAscii));
    assert parts == [JsonDumps(x, ensureAscii)];
  }

  lemma {:induction false} JoinWritten(sep: string, parts: seq<string>, ensureAscii: bool)
    requires Written(sep, ensureAscii)
    requires forall k :: 0 <= k < |parts| ==> Written(parts[k], ensureAscii)
    ensures Written(Join(sep, parts), ensureAscii)
    decreases |parts|
  {
    if |parts| > 1 {
      JoinWritten(sep, parts[1..], ensureAscii);
      WrittenConcat(parts[0], sep, ensureAscii);
      WrittenConcat(parts[0] + sep, Join(sep, parts[1..]), ensureAscii);
    }
  }

  lemma IntToStringWritten(i: int, ensureAscii: bool)
    ensures Written(IntToString(i), ensureAscii)
  {
    var digits := NatToString(if i < 0 then -i else i);
    assert Written(digits, ensureAscii) by {
      assert forall k :: 0 <= k < |digits| ==> IsDigit(digits[k]);
    }
    if i < 0 {
      WrittenConcat("-", digits, ensureAscii);
    }
  }

  lemma QuoteWritten(s: string, ensureAscii: bool)
    ensures Written(JsonQuote(s, ensureAscii), ensureAscii)
  {
    WrittenConcat("\"", JsonEscape(s, ensureAscii), ensureAscii);
    WrittenConcat("\"" + JsonEscape(s, ensureAscii), "\"", ensureAscii);
  }

  /** Brackets around a joined list of written parts are written. */
  lemma BracketedWritten(open: string, close: string, parts: seq<string>, ensureAscii: bool)
    requires Written(open, ensureAscii) && Written(close, ensureAscii)
    requires forall k :: 0 <= k < |parts| ==> Written(parts[k], ensureAscii)
    ensures Written(open + Join(", ", parts) + close, ensureAscii)
  {
    JoinWritten(", ", parts, ensureAscii);
    WrittenConcat(open, Join(", ", parts), ensureAscii);
    WrittenConcat(open + Join(", ", parts), close, ensureAscii);
  }

  lemma MemberWritten(key: string, value: string, ensureAscii: bool)
    requires Written(value, ensureAscii)
    ensures Written(JsonQuote(key, ensureAscii) + ": " + value, ensureAscii)
  {
    QuoteWritten(key, ensureAscii);
    WrittenConcat(JsonQuote(key, ensureAscii), ": ", ensureAscii);
    WrittenConcat(JsonQuote(key, ensureAscii) + ": ", value, ensureAscii);
  }

  /**
   * The JSON text holds no raw control character, and with `ensure_ascii`
   * it is printable ASCII whatever the strings inside hold.
   */
  lemma {:induction false} JsonDumpsWritten(v: Value, ensureAscii: bool)
    ensures Written(JsonDumps(v, ensureAscii), ensureAscii)
    decreases v
  {
    match v
    case Null =>
    case Bool(b) =>
    case Int(i) => IntToStringWritten(i, ensureAscii);
    case Str(s) => QuoteWritten(s, ensureAscii);
    case List(items) =>
      var parts := seq(|items|, k requires 0 <= k < |items| => JsonDumps(items[k], ensureAscii));
      forall k | 0 <= k < |items| ensures Written(parts[k], ensureAscii) {
        JsonDumpsWritten(items[k], ensureAscii);
      }
      BracketedWritten("[", "]", parts, ensureAscii);
    case Dict(entries) =>
      var parts := seq(|entries|, k requires 0 <= k < |entries| =>
        JsonQuote(entries[k].0, ensureAscii) + ": " + JsonDumps(entries[k].1, ensureAscii));
      forall k | 0 <= k < |entries| ensures Written(parts[k], ensureAscii) {
        assert entries[k].1 < v;
        JsonDumpsWritten(entries[k].1, ensureAscii);
        MemberWritten(entries[k].0, JsonDumps(entries[k].1, ensureAscii), ensureAscii);
      }
      BracketedWritten("{", "}", parts, ensureAscii);
  }
}
