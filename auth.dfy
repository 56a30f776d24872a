/** Saving and clearing the login session in local storage. The HTTP calls
    `register` and `login` are not part of this model. */
module Auth {
  import opened BrowserStorage

  /** The storage `saveSession(token, userId)` leaves: both keys set, every other key as it was. */
  function SavedSession(items: map<string, string>, token: string, userId: string): (r: map<string, string>)
    ensures ACCESS_TOKEN in r && r[ACCESS_TOKEN] == token
    ensures USER_ID in r && r[USER_ID] == userId
    ensures forall k :: k != ACCESS_TOKEN && k != USER_ID ==> (k in r <==> k in items)
    ensures forall k :: k in r && k != ACCESS_TOKEN && k != USER_ID ==> r[k] == items[k]
  {
    items[ACCESS_TOKEN := token][USER_ID := userId]
  }

  /** The storage `clearSession()` leaves: both keys gone, every other key as it was. */
  function ClearedSession(items: map<string, string>): (r: map<string, string>)
    ensures ACCESS_TOKEN !in r && USER_ID !in r
    ensures forall k :: k != ACCESS_TOKEN && k != USER_ID ==> (k in r <==> k in items)
    ensures forall k :: k in r ==> r[k] == items[k]
  {
    items - {ACCESS_TOKEN, USER_ID}
  }

  /** Saving then clearing leaves no trace of the saved session: the result
      is what clearing alone leaves. */
  lemma SaveThenClear(items: map<string, string>, token: string, userId: string)
    ensures ClearedSession(SavedSession(items, token, userId)) == ClearedSession(items)
  {
    var a, b := ClearedSession(SavedSession(items, token, userId)), ClearedSession(items);
    assert a.Keys == b.Keys;
  }

  /** Clearing is idempotent. */
  lemma ClearTwice(items: map<string, string>)
    ensures ClearedSession(ClearedSession(items)) == ClearedSession(items)
  {
    var a, b := ClearedSession(ClearedSession(items)), ClearedSession(items);
    assert a.Keys == b.Keys;
  }

  /** `saveSession`; without a window (server-side rendering) it does nothing. */
  method SaveSession(storage: LocalStorage, hasWindow: bool, token: string, userId: string)
    modifies storage
    ensures storage.items == if hasWindow then SavedSession(old(storage.items), token, userId) else old(storage.items)
  {
    if hasWindow {
      storage.SetItem(ACCESS_TOKEN, token);
      storage.SetItem(USER_ID, userId);
    }
  }

  /** `clearSession`; without a window it does nothing. */
  method ClearSession(storage: LocalStorage, hasWindow: bool)
    modifies storage
    ensures storage.items == if hasWindow then ClearedSession(old(storage.items)) else old(storage.items)
  {
    if hasWindow {
      storage.RemoveItem(ACCESS_TOKEN);
      storage.RemoveItem(USER_ID);
      assert storage.items == old(storage.items) - {ACCESS_TOKEN, USER_ID};
    }
  }
}
