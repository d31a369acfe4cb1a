/** The browser's Web Storage areas (`localStorage`, `sessionStorage`) as maps from key to string. */
module Storage {
  import opened Wrappers

  type Store = map<string, string>

  /** `store.getItem(key)`: the stored string, or `null` (None) when the key is absent. */
  function GetItem(store: Store, key: string): Option<string>
  {
    if key in store then Some(store[key]) else None
  }

  /** Truthiness of a `getItem` result: present and non-empty. */
  predicate Present(item: Option<string>)
  {
    item.Some? && item.value != ""
  }
}
