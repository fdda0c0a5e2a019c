/** The session context: the signed-in user `{ userId, role }`, kept in memory and mirrored in the
    browser's string-keyed `localStorage`, from which it is restored when the application starts. */
module AuthContext {
  import opened Wrappers

  const UserIdKey := "userId"
  const RoleKey := "role"

  /** The signed-in user. */
  datatype Session = Session(userId: string, role: string)

  /** The browser's `localStorage`: a map from keys to string values, shared by every page. */
  class LocalStorage {
    var items: map<string, string>

    constructor (items: map<string, string>)
      ensures this.items == items
    {
      this.items := items;
    }

    /** `getItem(key)`: the stored value, or `None` for `null`. */
    function GetItem(key: string): (r: Option<string>)
      reads this
      ensures r.Some? <==> key in items
      ensures r.Some? ==> r.value == items[key]
    {
      if key in items then Some(items[key]) else None
    }

    /** `setItem(key, value)`. */
    method SetItem(key: string, value: string)
      modifies this
      ensures items == old(items)[key := value]
    {
      items := items[key := value];
    }

    /** `removeItem(key)`. */
    method RemoveItem(key: string)
      modifies this
      ensures items == old(items) - {key}
    {
      items := items - {key};
    }
  }

  /** `userId && role ? { userId, role } : null` over the two values read from storage: a session
      exactly when both are present and non-empty. */
  function SessionFrom(userId: Option<string>, role: Option<string>): (r: Option<Session>)
    ensures r.Some? <==> userId.Some? && userId.value != "" && role.Some? && role.value != ""
    ensures r.Some? ==> r.value == Session(userId.value, role.value)
  {
    if userId.Some? && userId.value != "" && role.Some? && role.value != "" then
      Some(Session(userId.value, role.value))
    else
      None
  }

  /** The session the provider's initialiser reads from a store. */
  function StoredSession(items: map<string, string>): (r: Option<Session>)
    ensures r.Some? <==> UserIdKey in items && items[UserIdKey] != "" && RoleKey in items && items[RoleKey] != ""
    ensures r.Some? ==> r.value == Session(items[UserIdKey], items[RoleKey])
  {
    SessionFrom(if UserIdKey in items then Some(items[UserIdKey]) else None,
                if RoleKey in items then Some(items[RoleKey]) else None)
  }

  /** The store after `login({ userId, role })`: both keys written, every other key untouched; read
      back, it gives the same session when both values are non-empty and no session otherwise. */
  function StoreAfterLogin(items: map<string, string>, userId: string, role: string): (r: map<string, string>)
    ensures r.Keys == items.Keys + {UserIdKey, RoleKey}
    ensures r[UserIdKey] == userId && r[RoleKey] == role
    ensures forall k :: k in items && k != UserIdKey && k != RoleKey ==> r[k] == items[k]
    ensures StoredSession(r) == if userId != "" && role != "" then Some(Session(userId, role)) else None
  {
    items[UserIdKey := userId][RoleKey := role]
  }

  /** The store after `logout()`: exactly the two keys removed, so nothing can be restored from it. */
  function StoreAfterLogout(items: map<string, string>): (r: map<string, string>)
    ensures r.Keys == items.Keys - {UserIdKey, RoleKey}
    ensures forall k :: k in r ==> r[k] == items[k]
    ensures StoredSession(r) == None
  {
    items - {UserIdKey, RoleKey}
  }

  /** `AuthProvider`: the session held in memory over the shared store. */
  class AuthProvider {
    const storage: LocalStorage
    var auth: Option<Session>

    /** The `useState` initialiser: the session is read once from the store. */
    constructor (storage: LocalStorage)
      ensures this.storage == storage
      ensures auth == StoredSession(storage.items)
    {
      this.storage := storage;
      var userId := storage.GetItem(UserIdKey);
      var role := storage.GetItem(RoleKey);
      auth := SessionFrom(userId, role);
    }

    /** `login({ userId, role })`: both values are stored, then the session is set. */
    method Login(userId: string, role: string)
      modifies this, storage
      ensures storage.items == StoreAfterLogin(old(storage.items), userId, role)
      ensures auth == Some(Session(userId, role))
      ensures userId != "" && role != "" ==> StoredSession(storage.items) == auth
    {
      storage.SetItem(UserIdKey, userId);
      storage.SetItem(RoleKey, role);
      auth := Some(Session(userId, role));
    }

    /** `logout()`: both keys are removed, then the session is cleared. */
    method Logout()
      modifies this, storage
      ensures storage.items == StoreAfterLogout(old(storage.items))
      ensures auth == None && StoredSession(storage.items) == None
    {
      storage.RemoveItem(UserIdKey);
      storage.RemoveItem(RoleKey);
      auth := None;
    }
  }

  /** Reloading after a login with non-empty values restores that session; reloading after a
      logout restores none. */
  method RestartRestoresSession(items: map<string, string>, userId: string, role: string)
    returns (afterLogin: Option<Session>, afterLogout: Option<Session>)
    requires userId != "" && role != ""
    ensures afterLogin == Some(Session(userId, role))
    ensures afterLogout == None
  {
    var storage := new LocalStorage(items);
    var provider := new AuthProvider(storage);
    provider.Login(userId, role);
    var reloaded := new AuthProvider(storage);
    afterLogin := reloaded.auth;
    reloaded.Logout();
    var reloadedAgain := new AuthProvider(storage);
    afterLogout := reloadedAgain.auth;
  }
}
