/**
 * The recent close comments of `web/src/utils/recentCloseComments.js`:
 * the five comments most recently used to close, newest first, each once,
 * kept trimmed in one browser storage slot.
 */
module RecentCloseComments {
  import opened Wrappers
  import opened Text
  import opened Values
  import opened Seqs
  import opened BrowserStorage

  const StorageKey := "pisces_recent_close_comments"

  /** `MAX_ITEMS`. */
  const MaxItems: nat := 5

  /** `normalizeList(list)`: an array's strings, trimmed, blanks dropped; anything else is empty. */
  function NormalizeList(list: Value): (r: seq<string>)
    ensures !list.List? ==> r == []
    ensures list.List? ==> r == TrimmedStrings(list.items)
    ensures forall k :: 0 <= k < |r| ==> r[k] != "" && IsStripped(r[k])
  {
    if list.List? then TrimmedStrings(list.items) else []
  }

  /** `getRecentCloseComments()` on the storage's slots: at most five normalised entries. */
  function Recent(slots: map<string, Slot>): (r: seq<string>)
    ensures |r| <= MaxItems
    ensures forall k :: 0 <= k < |r| ==> r[k] != "" && IsStripped(r[k])
  {
    match Item(slots, StorageKey)
    case Some(Json(parsed)) => Take(NormalizeList(parsed), MaxItems)
    case _ => []
  }

  /** The comment a save records: a string trimmed, anything else the empty string. */
  function CommentValue(comment: Value): (value: string)
    ensures comment.Str? ==> value == Strip(comment.s)
    ensures !comment.Str? ==> value == ""
  {
    if comment.Str? then Strip(comment.s) else ""
  }

  /** The list `saveRecentCloseComment(comment)` returns, and for a non-blank comment stores. */
  function SavedList(slots: map<string, Slot>, comment: Value): seq<string> {
    var value := CommentValue(comment);
    if value == "" then Recent(slots) else PushRecent(Recent(slots), value, MaxItems)
  }

  /** The slots after `saveRecentCloseComment(comment)`. */
  function SavedSlots(slots: map<string, Slot>, comment: Value): map<string, Slot> {
    if CommentValue(comment) == "" then slots
    else slots[StorageKey := Json(List(Strs(SavedList(slots, comment))))]
  }

  /** A list of trimmed non-blank comments written to the slot reads back as written. */
  lemma WrittenList(slots: map<string, Slot>, next: seq<string>)
    requires |next| <= MaxItems
    requires forall k :: 0 <= k < |next| ==> next[k] != "" && IsStripped(next[k])
    ensures Recent(slots[StorageKey := Json(List(Strs(next)))]) == next
  {
    ReadSlot(slots[StorageKey := Json(List(Strs(next)))], List(Strs(next)));
    TrimmedStringsStable(next);
  }

  /** The list is read from the value parsed out of the slot. */
  lemma ReadSlot(slots: map<string, Slot>, parsed: Value)
    requires Item(slots, StorageKey) == Some(Json(parsed))
    ensures Recent(slots) == Take(NormalizeList(parsed), MaxItems)
  {
  }

  /** Putting a trimmed non-blank comment first keeps every entry trimmed and non-blank. */
  lemma PushedTrimmed(recent: seq<string>, value: string)
    requires forall k :: 0 <= k < |recent| ==> recent[k] != "" && IsStripped(recent[k])
    requires value != "" && IsStripped(value)
    ensures var r := PushRecent(recent, value, MaxItems);
            forall k :: 0 <= k < |r| ==> r[k] != "" && IsStripped(r[k])
  {
    var r := PushRecent(recent, value, MaxItems);
    forall k | 0 <= k < |r|
      ensures r[k] != "" && IsStripped(r[k])
    {
      if k > 0 {
        assert r[k] in recent by {
          assert r[k] in r;
          assert r[k] != value by { assert r[k] in r[1..]; }
        }
      }
    }
  }

  /**
   * A save returns what a later read gives back; for a non-blank comment
   * that is the earlier list with the trimmed comment put first (so it is
   * first, appears once, the earlier entries follow in their order and at
   * most five are kept).
   */
  lemma SavedRead(slots: map<string, Slot>, comment: Value)
    ensures Recent(SavedSlots(slots, comment)) == SavedList(slots, comment)
    ensures CommentValue(comment) != "" ==> SavedList(slots, comment) == PushRecent(Recent(slots), CommentValue(comment), MaxItems)
  {
    var value := CommentValue(comment);
    if value != "" {
      var next := PushRecent(Recent(slots), value, MaxItems);
      PushedTrimmed(Recent(slots), value);
      WrittenList(slots, next);
    }
  }

  /** Saving the same comment twice stores and returns what saving it once does. */
  lemma SaveTwice(slots: map<string, Slot>, comment: Value)
    ensures SavedSlots(SavedSlots(slots, comment), comment) == SavedSlots(slots, comment)
    ensures SavedList(SavedSlots(slots, comment), comment) == SavedList(slots, comment)
  {
    SavedRead(slots, comment);
    var value := CommentValue(comment);
    if value != "" {
      var once := SavedSlots(slots, comment);
      PushRecentTwice(Recent(slots), value, MaxItems);
      RewriteSame(once, StorageKey, Json(List(Strs(SavedList(slots, comment)))));
    }
  }

  /** `getRecentCloseComments()`. */
  method GetRecentCloseComments(storage: LocalStorage) returns (r: seq<string>)
    ensures r == Recent(storage.slots)
  {
    var slot := Item(storage.slots, StorageKey);
    if slot.Some? && slot.value.Json? {
      r := Take(NormalizeList(slot.value.value), MaxItems);
    } else {
      r := [];
    }
  }

  /** `saveRecentCloseComment(comment)`: a blank comment only reads; otherwise the list is updated and stored. */
  method SaveRecentCloseComment(storage: LocalStorage, comment: Value) returns (next: seq<string>)
    modifies storage
    ensures next == SavedList(old(storage.slots), comment)
    ensures storage.slots == SavedSlots(old(storage.slots), comment)
  {
    var value := CommentValue(comment);
    if value == "" {
      next := GetRecentCloseComments(storage);
      return;
    }
    var existing := GetRecentCloseComments(storage);
    next := PushRecent(existing, value, MaxItems);
    storage.SetItem(StorageKey, List(Strs(next)));
  }
}
