/**
 * The browser state the landing page touches: `localStorage` as a string-to-string
 * map, and the `dark` class of the document's root element.
 */
module Browser {
  import opened Wrappers

  /** `getItem` on a storage snapshot: the stored string, or `null` (`None`) when the key is absent. */
  function Lookup(entries: map<string, string>, key: string): (r: Option<string>)
    ensures r.Some? <==> key in entries
    ensures r.Some? ==> r.value == entries[key]
  {
    if key in entries then Some(entries[key]) else None
  }

  /** The page's `localStorage`: string keys, string values, no expiry. */
  class LocalStorage {
    var entries: map<string, string>

    constructor (initial: map<string, string>)
      ensures entries == initial
    {
      entries := initial;
    }

    /** `getItem(key)`: the stored string, or `null` when the key is absent. */
    function GetItem(key: string): (r: Option<string>)
      reads this
      ensures r.Some? <==> key in entries
      ensures r.Some? ==> r.value == entries[key]
    {
      Lookup(entries, key)
    }

    /** `setItem(key, value)`: overwrites one key and no other. */
    method SetItem(key: string, value: string)
      modifies this
      ensures entries == old(entries)[key := value]
    {
      entries := entries[key := value];
    }
  }

  /** `document.documentElement`, reduced to whether its class list holds `dark`. */
  class DocumentRoot {
    var darkClass: bool

    constructor (darkClass: bool)
      ensures this.darkClass == darkClass
    {
      this.darkClass := darkClass;
    }

    /** `classList.toggle("dark", force)`: the class is present afterwards iff `force`. */
    method ToggleDark(force: bool)
      modifies this
      ensures darkClass == force
    {
      darkClass := force;
    }
  }
}
