/** The note store: one text per key, read back as "" when nothing was stored.
    The two storage backends and the fallback between them are collapsed into
    one map. */
module NoteStore {

  type Store = map<string, string>

  /** `writeData(key, value)`: the key now holds the value. */
  function WriteData(store: Store, key: string, value: string): (r: Store)
    ensures r.Keys == store.Keys + {key}
  {
    store[key := value]
  }

  /** `getData(key)`: the stored text, or "" when the key is unset. */
  function GetData(store: Store, key: string): string {
    if key in store then store[key] else ""
  }

  /** Reading a key just written gives the written text back. */
  lemma WriteThenGet(store: Store, key: string, value: string)
    ensures GetData(WriteData(store, key, value), key) == value
  {
  }

  /** Writing one key leaves every other key as it was. */
  lemma WriteKeepsOtherKeys(store: Store, key: string, value: string, other: string)
    requires other != key
    ensures GetData(WriteData(store, key, value), other) == GetData(store, other)
  {
  }

  /** A key nobody wrote reads as "". */
  lemma GetUnset(store: Store, key: string)
    requires key !in store
    ensures GetData(store, key) == ""
  {
  }
}
