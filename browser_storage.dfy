/** The browser's local storage: a string-to-string map under the fixed keys the client uses. */
module BrowserStorage {
  import opened Types

  const ACCESS_TOKEN := "accessToken"
  const USER_ID := "userId"
  const SESSION_ID := "sessionId"

  class LocalStorage {
    var items: map<string, string>

    constructor (initial: map<string, string>)
      ensures items == initial
    {
      items := initial;
    }

    method SetItem(key: string, value: string)
      modifies this
      ensures items == old(items)[key := value]
    {
      items := items[key := value];
    }

    /** Removing an absent key is allowed and changes nothing. */
    method RemoveItem(key: string)
      modifies this
      ensures items == old(items) - {key}
    {
      items := items - {key};
    }
  }
}
