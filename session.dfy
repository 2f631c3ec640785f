/** The tab-scoped session storage: a string-to-string map holding the
    access token and the serialized user record. */
module Session {
  import opened TodoData

  const AccessTokenKey := "accessToken"
  const UserDetailsKey := "userDetails"

  /** `getItem(key)`: the stored string, or `null` (None). */
  function Lookup(items: map<string, string>, key: string): (v: Option<string>)
    ensures v.Some? <==> key in items
    ensures v.Some? ==> v.value == items[key]
  {
    if key in items then Some(items[key]) else None
  }

  /** JavaScript truthiness of a `getItem` result: present and non-empty. */
  predicate Truthy(v: Option<string>) {
    v.Some? && v.value != ""
  }

  /** The token the route guards and the request interceptor read. */
  function TokenOf(items: map<string, string>): Option<string> {
    Lookup(items, AccessTokenKey)
  }

  class SessionStore {
    var items: map<string, string>

    constructor (initial: map<string, string>)
      ensures items == initial
    {
      items := initial;
    }

    function GetItem(key: string): (v: Option<string>)
      reads this
      ensures v.Some? <==> key in items
      ensures v.Some? ==> v.value == items[key]
    {
      Lookup(items, key)
    }

    method RemoveItem(key: string)
      modifies this
      ensures items == old(items) - {key}
    {
      items := items - {key};
    }

    method Clear()
      modifies this
      ensures items == map[]
    {
      items := map[];
    }
  }
}
