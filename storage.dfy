/** The extension's `chrome.storage.local` area, shared by the background
    script and the popup: string keys mapped to colour tokens. Reads, writes
    and removals always complete in this model. */
module Storage {
  import opened Messaging

  /** `result[key]` of a `get([key])`: `None` stands for `undefined`. */
  function Lookup(entries: map<string, string>, key: string): (v: Option<string>)
    ensures v.Some? <==> key in entries
    ensures v.Some? ==> v.value == entries[key]
  {
    if key in entries then Some(entries[key]) else None
  }

  /** JavaScript truthiness of a looked-up string: present and not empty. */
  predicate Truthy(v: Option<string>)
  {
    v.Some? && v.value != ""
  }

  class LocalStore {
    var entries: map<string, string>

    constructor (initial: map<string, string>)
      ensures entries == initial
    {
      entries := initial;
    }

    /** `chrome.storage.local.get([key])`, read back at `key`. */
    method Get(key: string) returns (v: Option<string>)
      ensures v.Some? <==> key in entries
      ensures v.Some? ==> v.value == entries[key]
    {
      v := Lookup(entries, key);
    }

    /** `chrome.storage.local.set({[key]: value})`: adds or overwrites one key. */
    method Set(key: string, value: string)
      modifies this
      ensures entries == old(entries)[key := value]
    {
      entries := entries[key := value];
    }

    /** `chrome.storage.local.remove([key])`: removing an absent key is no error. */
    method Remove(key: string)
      modifies this
      ensures entries == old(entries) - {key}
    {
      entries := entries - {key};
    }
  }
}
