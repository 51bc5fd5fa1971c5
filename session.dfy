/**
 * The session store: the global `currentUser` and the two browser-storage keys
 * that keep it across reloads (code.js lines 3-30 and 346-349).
 */
module Session {
  import opened Base
  import opened UserJson

  /** The storage key holding the JSON text of the user record. */
  const UserKey := "currentUser"
  /** The storage key holding the bearer token on its own. */
  const TokenKey := "authToken"

  /** A user counts as signed in when it is present and has a non-empty `userId` (`user && user.userId`). */
  predicate SignedIn(user: Option<User>)
  {
    user.Some? && user.value.userId != ""
  }

  /** The storage `saveCurrentUser(user)` leaves behind. */
  function SavedStorage(storage: map<string, string>, user: Option<User>): (saved: map<string, string>)
    ensures UserKey in saved <==> SignedIn(user)
    ensures SignedIn(user) ==> saved[UserKey] == Stringify(user.value)
    ensures TokenKey in saved <==> SignedIn(user) && (user.value.token != "" || TokenKey in storage)
    ensures SignedIn(user) && user.value.token != "" ==> saved[TokenKey] == user.value.token
    ensures SignedIn(user) && user.value.token == "" && TokenKey in storage ==> saved[TokenKey] == storage[TokenKey]
  {
    if SignedIn(user) then
      var withUser := storage[UserKey := Stringify(user.value)];
      if user.value.token != "" then withUser[TokenKey := user.value.token] else withUser
    else
      storage - {UserKey, TokenKey}
  }

  /** The user `loadCurrentUser()` reads from storage: `None` when the key is missing, the text does not parse, or `userId` is empty. */
  function LoadedUser(storage: map<string, string>): (user: Option<User>)
    ensures user.Some? ==> SignedIn(user)
    ensures UserKey !in storage || ParseUser(storage[UserKey]).None? ==> user.None?
    ensures user.Some? <==> UserKey in storage && ParseUser(storage[UserKey]).Some? && ParseUser(storage[UserKey]).value.userId != ""
    ensures user.Some? ==> ParseUser(storage[UserKey]) == user
  {
    if UserKey !in storage then None
    else
      match ParseUser(storage[UserKey])
      case Some(u) => if u.userId != "" then Some(u) else None
      case None => None
  }

  /** `getAuthHeaders()`: a bearer `Authorization` header exactly when a non-empty token is stored. */
  function AuthHeaders(storage: map<string, string>): (headers: map<string, string>)
    ensures "Authorization" in headers <==> TokenKey in storage && storage[TokenKey] != ""
    ensures "Authorization" in headers ==> headers == map["Authorization" := "Bearer " + storage[TokenKey]]
    ensures "Authorization" !in headers ==> headers == map[]
  {
    if TokenKey in storage && storage[TokenKey] != "" then
      map["Authorization" := "Bearer " + storage[TokenKey]]
    else
      map[]
  }

  /** A signed-in user saved and then loaded again (a page reload) comes back unchanged. */
  lemma SaveThenLoad(storage: map<string, string>, u: User)
    requires u.userId != ""
    ensures LoadedUser(SavedStorage(storage, Some(u))) == Some(u)
  {
    ParseStringify(u);
  }

  /**
   * Saving a user without a `userId` (or `null`, as logout does) clears both keys:
   * a reload finds nobody signed in and requests carry no `Authorization` header.
   */
  lemma SaveSignedOut(storage: map<string, string>, user: Option<User>)
    requires !SignedIn(user)
    ensures LoadedUser(SavedStorage(storage, user)) == None
    ensures AuthHeaders(SavedStorage(storage, user)) == map[]
  {
  }

  /**
   * After saving a signed-in user the header carries that user's token; a user
   * saved without a token leaves the previously stored token (and header) in place.
   */
  lemma SaveHeaders(storage: map<string, string>, u: User)
    requires u.userId != ""
    ensures u.token != "" ==> AuthHeaders(SavedStorage(storage, Some(u))) == map["Authorization" := "Bearer " + u.token]
    ensures u.token == "" ==> AuthHeaders(SavedStorage(storage, Some(u))) == AuthHeaders(storage)
  {
  }

  /** Saving touches no storage key but the two the session owns. */
  lemma SaveKeepsOtherKeys(storage: map<string, string>, user: Option<User>, k: string)
    requires k != UserKey && k != TokenKey
    ensures k in SavedStorage(storage, user) <==> k in storage
    ensures k in storage ==> SavedStorage(storage, user)[k] == storage[k]
  {
  }

  /** The global `currentUser` and the browser's `localStorage`. */
  class SessionStore {
    var currentUser: Option<User>
    var storage: map<string, string>

    /** Page load, before `loadCurrentUser()` runs: nobody is signed in yet. */
    constructor (storage: map<string, string>)
      ensures this.storage == storage && currentUser == None
    {
      this.storage := storage;
      currentUser := None;
    }

    /** `saveCurrentUser(user)`: `currentUser` becomes `user` whatever it is; storage is written or cleared. */
    method Save(user: Option<User>)
      modifies this
      ensures currentUser == user
      ensures storage == SavedStorage(old(storage), user)
    {
      currentUser := user;
      if SignedIn(user) {
        storage := storage[UserKey := Stringify(user.value)];
        if user.value.token != "" {
          storage := storage[TokenKey := user.value.token];
        }
      } else {
        storage := storage - {UserKey};
        storage := storage - {TokenKey};
      }
    }

    /** `loadCurrentUser()`: parse failures and records without `userId` leave nobody signed in. */
    method Load()
      modifies this`currentUser
      ensures currentUser == LoadedUser(storage)
    {
      if UserKey in storage {
        var parsed := ParseUser(storage[UserKey]);
        if parsed.Some? && parsed.value.userId != "" {
          currentUser := parsed;
        } else {
          currentUser := None;
        }
      } else {
        currentUser := None;
      }
    }
  }
}
