/**
 * The browser's `window.localStorage` as the close-comment histories use
 * it: named slots holding JSON text, kept here as the value the text
 * parses to, or as text `JSON.parse` rejects.
 */
module BrowserStorage {
  import opened Wrappers
  import opened Values

  /** The content of one slot. */
  datatype Slot = Json(value: Value) | Unparsable

  /** The content stored under `key`, if any. */
  function Item(slots: map<string, Slot>, key: string): Option<Slot> {
    if key in slots then Some(slots[key]) else None
  }

  /** Writing a slot with the content it holds changes nothing. */
  lemma RewriteSame(slots: map<string, Slot>, key: string, slot: Slot)
    requires key in slots && slots[key] == slot
    ensures slots[key := slot] == slots
  {
  }

  /** The storage object of one browser origin. */
  class LocalStorage {
    var slots: map<string, Slot>

    constructor Empty()
      ensures slots == map[]
    {
      slots := map[];
    }

    /** `localStorage.setItem(key, JSON.stringify(value))`. */
    method SetItem(key: string, value: Value)
      modifies this
      ensures slots == old(slots)[key := Json(value)]
    {
      slots := slots[key := Json(value)];
    }

    /** `localStorage.removeItem(key)`. */
    method RemoveItem(key: string)
      modifies this
      ensures slots == old(slots) - {key}
    {
      slots := slots - {key};
    }
  }
}
