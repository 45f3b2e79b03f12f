/**
  `localStorage` as the storefront uses it: a map from keys to strings that
  may be unavailable altogether (blocked storage, private browsing), in
  which case every access throws and the callers swallow the exception.
 */
module Storage {
  import opened Js

  /** The key the bearer token is kept under. */
  const TokenKey := "auth_token"

  datatype Store = Store(available: bool, entries: map<string, string>)

  /** `try { return localStorage.getItem(key) } catch { return null }` */
  function ReadItem(st: Store, key: string): (r: Json)
    ensures r.Str? <==> st.available && key in st.entries
    ensures r.Str? ==> r.s == st.entries[key]
    ensures !r.Str? ==> r == Null
  {
    if st.available && key in st.entries then Str(st.entries[key]) else Null
  }

  /** `localStorage.setItem(key, value)` with the exception swallowed. */
  function WriteItem(st: Store, key: string, value: string): Store {
    if st.available then st.(entries := st.entries[key := value]) else st
  }

  /** `localStorage.removeItem(key)` with the exception swallowed. */
  function RemoveItem(st: Store, key: string): Store {
    if st.available then st.(entries := st.entries - {key}) else st
  }

  /** A write is read back while storage is available, and is lost without trace otherwise. */
  lemma ReadAfterWrite(st: Store, key: string, value: string, other: string)
    requires other != key
    ensures st.available ==> ReadItem(WriteItem(st, key, value), key) == Str(value)
    ensures !st.available ==> ReadItem(WriteItem(st, key, value), key) == Null
    ensures ReadItem(WriteItem(st, key, value), other) == ReadItem(st, other)
  {
  }

  /** After a removal the key reads as null, and other keys are untouched. */
  lemma ReadAfterRemove(st: Store, key: string, other: string)
    requires other != key
    ensures ReadItem(RemoveItem(st, key), key) == Null
    ensures ReadItem(RemoveItem(st, key), other) == ReadItem(st, other)
  {
  }
}
