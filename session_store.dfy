/** `window.localStorage`, where the session token lives under the key "token". */
module SessionStore {
  import opened Wrappers

  const TokenKey := "token"

  /** `!!localStorage.getItem("token")`: a token is present and is not the empty string. */
  predicate HasToken(items: map<string, string>) {
    TokenKey in items && items[TokenKey] != ""
  }

  class Storage {
    var items: map<string, string>

    constructor (initial: map<string, string>)
      ensures items == initial
    {
      items := initial;
    }

    /** `getItem(key)`: the stored string, or `null`. */
    function GetItem(key: string): (r: Option<string>)
      reads this
      ensures r.Some? <==> key in items
      ensures r.Some? ==> r.value == items[key]
    {
      if key in items then Some(items[key]) else None
    }

    /** `setItem(key, value)`: stores the value under the key and touches no other key. */
    method SetItem(key: string, value: string)
      modifies this
      ensures items == old(items)[key := value]
    {
      items := items[key := value];
    }
  }
}
