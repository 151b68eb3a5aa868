/**
 * What the mock alert and incident views share about their in-memory
 * records: finding the first record with a requested id, counting the
 * requested ids that name a record, and choosing the id of a new record.
 */
module MockRecords {
  import opened Wrappers
  import opened Values

  /** Python `record['id'] == v` for an integer id and a JSON value (`True == 1`, `False == 0`). */
  predicate IdIs(id: int, v: Value) {
    v == Int(id) || (v.Bool? && id == (if v.b then 1 else 0))
  }

  /** A JSON value equals at most one integer id. */
  lemma IdIsUnique(a: int, b: int, v: Value)
    requires IdIs(a, v) && IdIs(b, v)
    ensures a == b
  {
  }

  /** The first position at or after `k` whose id equals `v`. */
  function FirstFrom(ids: seq<int>, v: Value, k: nat): (r: Option<nat>)
    ensures r.Some? ==> k <= r.value < |ids| && IdIs(ids[r.value], v)
    ensures r.Some? ==> forall j :: k <= j < r.value ==> !IdIs(ids[j], v)
    ensures r.None? ==> forall j :: k <= j < |ids| ==> !IdIs(ids[j], v)
    decreases |ids| - k
  {
    if k >= |ids| then None
    else if IdIs(ids[k], v) then Some(k)
    else FirstFrom(ids, v, k + 1)
  }

  /** `next((r for r in records if r['id'] == v), None)`, as a position among the records' ids. */
  function FirstWithId(ids: seq<int>, v: Value): (r: Option<nat>)
    ensures r.Some? ==> r.value < |ids| && IdIs(ids[r.value], v)
    ensures r.Some? ==> forall j :: 0 <= j < r.value ==> !IdIs(ids[j], v)
    ensures r.None? <==> forall j :: 0 <= j < |ids| ==> !IdIs(ids[j], v)
  {
    FirstFrom(ids, v, 0)
  }

  predicate UniqueIds(ids: seq<int>) {
    forall i, j :: 0 <= i < j < |ids| ==> ids[i] != ids[j]
  }

  /** With unique ids, the record found is the one record carrying the id. */
  lemma FirstWithUnique(ids: seq<int>, v: Value, i: nat)
    requires UniqueIds(ids)
    requires i < |ids| && IdIs(ids[i], v)
    ensures FirstWithId(ids, v) == Some(i)
  {
    var r := FirstWithId(ids, v);
    if r.Some? && r.value != i {
      IdIsUnique(ids[r.value], ids[i], v);
    }
  }

  /** `closed_count`: how many requested ids, repeats included, name a record. */
  function MatchCount(ids: seq<int>, requested: seq<Value>): (n: nat)
    ensures n <= |requested|
  {
    if requested == [] then 0
    else
      var last := requested[|requested| - 1];
      MatchCount(ids, requested[..|requested| - 1]) + (if FirstWithId(ids, last).Some? then 1 else 0)
  }

  /** One more requested id adds one to the count exactly when it names a record. */
  lemma MatchCountSnoc(ids: seq<int>, done: seq<Value>, v: Value)
    ensures MatchCount(ids, done + [v]) == MatchCount(ids, done) + (if FirstWithId(ids, v).Some? then 1 else 0)
  {
    assert (done + [v])[..|done|] == done;
  }

  /** Every request is counted exactly when every requested id names a record, and none when none does. */
  lemma {:induction false} MatchCountBounds(ids: seq<int>, requested: seq<Value>)
    ensures MatchCount(ids, requested) == |requested| <==> forall k :: 0 <= k < |requested| ==> FirstWithId(ids, requested[k]).Some?
    ensures MatchCount(ids, requested) == 0 <==> forall k :: 0 <= k < |requested| ==> FirstWithId(ids, requested[k]).None?
    decreases |requested|
  {
    if requested != [] {
      var init := requested[..|requested| - 1];
      MatchCountBounds(ids, init);
      assert forall k :: 0 <= k < |init| ==> init[k] == requested[k];
    }
  }

  /** The value a request gives `key`, or `current` when the request leaves it out: an update view's `if key in data: record[key] = data[key]`. */
  function Patch(data: Entries, key: string, current: Value): (r: Value)
    ensures HasKey(data, key) ==> r == Lookup(data, key).value
    ensures !HasKey(data, key) ==> r == current
  {
    if HasKey(data, key) then Lookup(data, key).value else current
  }

  /** Python `max(ids, default=d)`. */
  function MaxOr(ids: seq<int>, d: int): (m: int)
    ensures forall j :: 0 <= j < |ids| ==> ids[j] <= m
    ensures ids == [] ==> m == d
    ensures ids != [] ==> m in ids
  {
    if ids == [] then d
    else
      var rest := MaxOr(ids[..|ids| - 1], d);
      var last := ids[|ids| - 1];
      if ids[..|ids| - 1] == [] || last > rest then last else rest
  }

  /** The id of a new record, `max(ids, default=d) + 1`: larger than every id in use, so fresh. */
  function NextId(ids: seq<int>, d: int): (n: int)
    ensures forall j :: 0 <= j < |ids| ==> ids[j] < n
    ensures n !in ids
    ensures ids == [] ==> n == d + 1
  {
    MaxOr(ids, d) + 1
  }

  /** Putting a record with a fresh id in front keeps the ids unique. */
  lemma FreshFront(ids: seq<int>, d: int)
    requires UniqueIds(ids)
    ensures UniqueIds([NextId(ids, d)] + ids)
  {
  }
}
