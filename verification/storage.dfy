/**
 * The browser's local key-value storage, as the pages use it: one key holds
 * the diagnosis history, one the chosen language code. Serialisation to and
 * from JSON text is abstracted: a history is stored as the list itself.
 */
module Storage {
  import opened Wrappers
  import opened DiagnosisTypes

  /** The key under which the history list is kept. */
  const HistoryKey := "agriscan-history"

  /** The key under which the chosen language code is kept. */
  const LangKey := "agriscan-lang"

  /**
   * A stored value: `Entries` is a serialised history list; `Text` is any
   * other string (a language code, or text that is not a serialised list).
   */
  datatype StoredValue = Text(text: string) | Entries(records: seq<DiagnosisResult>)

  class LocalStorage {
    var items: map<string, StoredValue>

    constructor (initial: map<string, StoredValue>)
      ensures items == initial
    {
      items := initial;
    }

    /** `getItem`: the value under `key`, or nothing. */
    function GetItem(key: string): (r: Option<StoredValue>)
      reads this
      ensures r.Some? <==> key in items
      ensures r.Some? ==> r.value == items[key]
    {
      if key in items then Some(items[key]) else None
    }

    /** `setItem`: `key` now holds `v`; every other key is unchanged. */
    method SetItem(key: string, v: StoredValue)
      modifies this
      ensures items == old(items)[key := v]
    {
      items := items[key := v];
    }

    /** `removeItem`: `key` is gone; every other key is unchanged. */
    method RemoveItem(key: string)
      modifies this
      ensures items == old(items) - {key}
    {
      items := items - {key};
    }
  }

  /**
   * `JSON.parse(localStorage.getItem(key) || "[]")` read as a history list:
   * a missing or empty entry is the empty list, a stored list is itself, and
   * any other text fails to parse as a list (None).
   */
  function StoredHistory(v: Option<StoredValue>): (r: Option<seq<DiagnosisResult>>)
    ensures v.None? ==> r == Some([])
    ensures v.Some? && v.value.Entries? ==> r == Some(v.value.records)
    ensures r.None? <==> v.Some? && v.value.Text? && v.value.text != ""
    ensures r.Some? && r.value != [] ==> v.Some? && v.value.Entries?
  {
    match v
    case None => Some([])
    case Some(Entries(records)) => Some(records)
    case Some(Text(t)) => if t == "" then Some([]) else None
  }
}
