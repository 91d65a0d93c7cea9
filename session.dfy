/** The browser's sessionStorage, as a map from keys to stored strings. */
module Session {
  import opened Wrappers

  const TokenKey := "token"

  /** `sessionStorage.getItem(key)` over a snapshot of the store. */
  function GetItem(items: map<string, string>, key: string): (r: Option<string>)
    ensures r.Some? <==> key in items
    ensures r.Some? ==> r.value == items[key]
  {
    if key in items then Some(items[key]) else None
  }

  class SessionStore {
    var items: map<string, string>

    constructor (initial: map<string, string>)
      ensures items == initial
    {
      items := initial;
    }

    /** sessionStorage.removeItem: the key is gone and every other entry is kept. */
    method RemoveItem(key: string)
      modifies this
      ensures items == old(items) - {key}
    {
      items := items - {key};
    }
  }
}
