/** The optional value used across the model: a lookup that may find nothing, a reply
    that may not exist. */
module Wrappers {
  datatype Option<T> = None | Some(value: T)

  /** A list read from storage: `JSON.parse(localStorage.getItem(key) || '[]')`, a missing
      key reading as the empty list. */
  function OrEmpty<T>(stored: Option<seq<T>>): (r: seq<T>)
    ensures stored.None? ==> r == []
    ensures stored.Some? ==> r == stored.value
  {
    if stored.Some? then stored.value else []
  }
}
