/**
 * The browser's `localStorage`, as a map from keys to string values with the
 * three operations the client uses.
 */
module Storage {
  import opened Wrappers

  type Store = map<string, string>

  /** `getItem(key)`: the stored value, or `null` (None) when the key is absent. */
  function GetItem(store: Store, key: string): (r: Option<string>)
    ensures r.Some? <==> key in store
    ensures r.Some? ==> r.value == store[key]
  {
    if key in store then Some(store[key]) else None
  }

  /** `setItem(key, value)`: the key holds `value`, every other entry is as before. */
  function SetItem(store: Store, key: string, value: string): (r: Store)
    ensures GetItem(r, key) == Some(value)
    ensures forall k :: k != key ==> GetItem(r, k) == GetItem(store, k)
  {
    store[key := value]
  }

  /** `removeItem(key)`: the key is absent, every other entry is as before. */
  function RemoveItem(store: Store, key: string): (r: Store)
    ensures GetItem(r, key) == None
    ensures forall k :: k != key ==> GetItem(r, k) == GetItem(store, k)
  {
    store - {key}
  }
}
