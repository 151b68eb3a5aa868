/**
 * The close-comment histories of `web/src/utils/closeCommentHistory.js`:
 * the last five comments an analyst closed alerts or incidents with, newest
 * first and each once, kept in one browser storage slot per kind.
 */
module CloseCommentHistory {
  import opened Wrappers
  import opened Text
  import opened Values
  import opened Seqs
  import opened BrowserStorage

  const AlertKey := "close_alert_comment_history"
  const IncidentKey := "close_incident_comment_history"

  /** `MAX_HISTORY_COUNT`. */
  const MaxHistory: nat := 5

  /** `getStorageKey(type)`: "alert" has its own slot, every other kind shares the incident slot. */
  function StorageKey(kind: string): (key: string)
    ensures key == AlertKey <==> kind == "alert"
    ensures key == IncidentKey <==> kind != "alert"
  {
    if kind == "alert" then AlertKey else IncidentKey
  }

  /** The strings among `items` that are not blank, as stored (untrimmed). */
  function NonBlankStrings(items: seq<Value>): (r: seq<string>)
    ensures |r| <= |items|
    ensures forall k :: 0 <= k < |r| ==> Strip(r[k]) != ""
  {
    if items == [] then []
    else
      var item := items[|items| - 1];
      NonBlankStrings(items[..|items| - 1]) + (if item.Str? && Strip(item.s) != "" then [item.s] else [])
  }

  /** Non-blank strings come back unchanged. */
  lemma {:induction false} NonBlankStringsStable(words: seq<string>)
    requires forall k :: 0 <= k < |words| ==> Strip(words[k]) != ""
    ensures NonBlankStrings(Strs(words)) == words
    decreases |words|
  {
    if words != [] {
      var init := words[..|words| - 1];
      var last := words[|words| - 1];
      NonBlankStringsStable(init);
      var items := Strs(words);
      assert items[..|items| - 1] == Strs(init);
      assert words == init + [last];
    }
  }

  /**
   * The getter's reading of a slot: nothing for an empty, unparsable or
   * non-array slot, otherwise the array's non-blank strings.
   */
  function HistoryOf(slot: Option<Slot>): (h: seq<string>)
    ensures forall k :: 0 <= k < |h| ==> Strip(h[k]) != ""
    ensures !(slot.Some? && slot.value.Json? && slot.value.value.List?) ==> h == []
  {
    match slot
    case Some(Json(List(items))) => NonBlankStrings(items)
    case _ => []
  }

  /** `getCloseCommentHistory(type)` on the storage's slots. */
  function History(slots: map<string, Slot>, kind: string): seq<string> {
    HistoryOf(Item(slots, StorageKey(kind)))
  }

  /** The slots after `saveCloseComment(comment, type)`: a blank comment changes nothing. */
  function Saved(slots: map<string, Slot>, comment: string, kind: string): map<string, Slot> {
    if Strip(comment) == "" then slots
    else slots[StorageKey(kind) := Json(List(Strs(PushRecent(History(slots, kind), Strip(comment), MaxHistory))))]
  }

  /** The slots after `clearCloseCommentHistory(type)`. */
  function Cleared(slots: map<string, Slot>, kind: string): map<string, Slot> {
    slots - {StorageKey(kind)}
  }

  /** A history written to a kind's slot reads back as written. */
  lemma WrittenHistory(slots: map<string, Slot>, kind: string, h: seq<string>)
    requires forall k :: 0 <= k < |h| ==> Strip(h[k]) != ""
    ensures History(slots[StorageKey(kind) := Json(List(Strs(h)))], kind) == h
  {
    ReadSlot(slots[StorageKey(kind) := Json(List(Strs(h)))], kind, Strs(h));
    NonBlankStringsStable(h);
  }

  /** A kind's history is read from the array in its slot. */
  lemma ReadSlot(slots: map<string, Slot>, kind: string, items: seq<Value>)
    requires Item(slots, StorageKey(kind)) == Some(Json(List(items)))
    ensures History(slots, kind) == NonBlankStrings(items)
  {
  }

  /** Putting a non-blank comment first keeps every entry non-blank. */
  lemma PushedNonBlank(h: seq<string>, c: string)
    requires forall k :: 0 <= k < |h| ==> Strip(h[k]) != ""
    requires Strip(c) != ""
    ensures var r := PushRecent(h, Strip(c), MaxHistory);
            forall k :: 0 <= k < |r| ==> Strip(r[k]) != ""
  {
    var r := PushRecent(h, Strip(c), MaxHistory);
    StripIdempotent(c);
    forall k | 0 <= k < |r|
      ensures Strip(r[k]) != ""
    {
      if k > 0 {
        assert r[k] in h by {
          assert r[k] in r;
          assert r[k] != Strip(c) by { assert r[k] in r[1..]; }
        }
      }
    }
  }

  /**
   * Reading back a saved comment gives the history with the trimmed comment
   * put first (so it is first, appears once, the earlier entries follow in
   * their order and at most five are kept), and the other kind's history is
   * untouched.
   */
  lemma SavedHistory(slots: map<string, Slot>, comment: string, kind: string, other: string)
    requires Strip(comment) != ""
    ensures History(Saved(slots, comment, kind), kind) == PushRecent(History(slots, kind), Strip(comment), MaxHistory)
    ensures StorageKey(other) != StorageKey(kind) ==> History(Saved(slots, comment, kind), other) == History(slots, other)
  {
    var h := PushRecent(History(slots, kind), Strip(comment), MaxHistory);
    PushedNonBlank(History(slots, kind), comment);
    WrittenHistory(slots, kind, h);
    OtherSlot(slots, kind, other, Json(List(Strs(h))));
  }

  /** Writing one kind's slot leaves every kind stored elsewhere as it was. */
  lemma OtherSlot(slots: map<string, Slot>, kind: string, other: string, v: Slot)
    ensures StorageKey(other) != StorageKey(kind) ==> History(slots[StorageKey(kind) := v], other) == History(slots, other)
  {
  }

  /** A blank comment leaves the storage as it was. */
  lemma SaveBlank(slots: map<string, Slot>, comment: string, kind: string)
    requires Strip(comment) == ""
    ensures Saved(slots, comment, kind) == slots
  {
  }

  /** Saving the same comment twice leaves the storage as saving it once. */
  lemma SaveTwice(slots: map<string, Slot>, comment: string, kind: string)
    ensures Saved(Saved(slots, comment, kind), comment, kind) == Saved(slots, comment, kind)
  {
    if Strip(comment) != "" {
      var h := PushRecent(History(slots, kind), Strip(comment), MaxHistory);
      var once := Saved(slots, comment, kind);
      SavedHistory(slots, comment, kind, kind);
      PushRecentTwice(History(slots, kind), Strip(comment), MaxHistory);
      RewriteSame(once, StorageKey(kind), Json(List(Strs(h))));
    }
  }

  /** After a clear the kind's history is empty, and the other kind's is untouched. */
  lemma ClearedHistory(slots: map<string, Slot>, kind: string, other: string)
    ensures History(Cleared(slots, kind), kind) == []
    ensures StorageKey(other) != StorageKey(kind) ==> History(Cleared(slots, kind), other) == History(slots, other)
  {
  }

  /** `getCloseCommentHistory(type)`. */
  method GetCloseCommentHistory(storage: LocalStorage, kind: string) returns (h: seq<string>)
    ensures h == History(storage.slots, kind)
  {
    var slot := Item(storage.slots, StorageKey(kind));
    h := HistoryOf(slot);
  }

  /** `saveCloseComment(comment, type)`: reads the history, puts the comment first and writes the slot. */
  method SaveCloseComment(storage: LocalStorage, comment: string, kind: string)
    modifies storage
    ensures storage.slots == Saved(old(storage.slots), comment, kind)
  {
    var value := Strip(comment);
    if value == "" {
      return;
    }
    var existing := GetCloseCommentHistory(storage, kind);
    var next := PushRecent(existing, value, MaxHistory);
    storage.SetItem(StorageKey(kind), List(Strs(next)));
  }

  /** `clearCloseCommentHistory(type)`. */
  method ClearCloseCommentHistory(storage: LocalStorage, kind: string)
    modifies storage
    ensures storage.slots == Cleared(old(storage.slots), kind)
  {
    storage.RemoveItem(StorageKey(kind));
  }
}
