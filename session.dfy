/** The dashboard's session store: three reducers over the session state, which also write or
    remove the "authData" entry of the browser's local storage. A stored entry is modelled by the
    value it serialises (the JSON encoding and decoding are taken to be inverse). */
module Session {
  import opened Common
  import opened Roles
  import opened Auth

  /** The triple the login reducer persists; `None` stands for null. */
  datatype AuthData = AuthData(token: Option<string>, user: Option<UserSummary>, roleAndPermission: Option<Role>)

  const AuthKey: string := "authData"

  /** The browser's local storage. */
  class Storage {
    var items: map<string, AuthData>

    constructor ()
      ensures items == map[]
    {
      items := map[];
    }
  }

  /** The session state of the store. */
  class SessionState {
    var token: Option<string>
    var user: Option<UserSummary>
    var roleAndPermission: Option<Role>
    var isAuthChecked: bool

    /** The initial state: nothing known, nothing checked yet. */
    constructor ()
      ensures token.None? && user.None? && roleAndPermission.None? && !isAuthChecked
    {
      token := None;
      user := None;
      roleAndPermission := None;
      isAuthChecked := false;
    }

    function Current(): (d: AuthData)
      reads this
      ensures d.token == token && d.user == user && d.roleAndPermission == roleAndPermission
    {
      AuthData(token, user, roleAndPermission)
    }

    /** `login`: takes the payload's triple, marks the session checked, and persists exactly
        that triple under "authData", leaving other storage entries alone. */
    method Login(payload: AuthData, storage: Storage)
      modifies this, storage
      ensures Current() == payload && isAuthChecked
      ensures storage.items == old(storage.items)[AuthKey := payload]
    {
      token := payload.token;
      user := payload.user;
      roleAndPermission := payload.roleAndPermission;
      isAuthChecked := true;
      storage.items := storage.items[AuthKey := payload];
    }

    /** `logout`: clears the triple, marks the session checked, and removes "authData". */
    method Logout(storage: Storage)
      modifies this, storage
      ensures token.None? && user.None? && roleAndPermission.None? && isAuthChecked
      ensures storage.items == old(storage.items) - {AuthKey}
    {
      token := None;
      user := None;
      roleAndPermission := None;
      isAuthChecked := true;
      storage.items := storage.items - {AuthKey};
    }

    /** `loadUserFromStorage`: restores the triple when "authData" is stored, leaves it as it is
        otherwise, and marks the session checked either way. Storage is only read. */
    method LoadUserFromStorage(storage: Storage)
      modifies this
      ensures AuthKey in storage.items ==> Current() == storage.items[AuthKey]
      ensures AuthKey !in storage.items ==> Current() == old(Current())
      ensures isAuthChecked
    {
      if AuthKey in storage.items {
        var saved := storage.items[AuthKey];
        token := saved.token;
        user := saved.user;
        roleAndPermission := saved.roleAndPermission;
      }
      isAuthChecked := true;
    }
  }

  /** A login followed, in a fresh page, by a reload from storage restores the same triple; a
      logout followed by a reload restores nothing. */
  method LoginThenReload(payload: AuthData, storage: Storage, before: SessionState, after: SessionState)
    requires before != after
    modifies before, after, storage
    ensures after.Current() == payload && after.isAuthChecked
  {
    before.Login(payload, storage);
    after.LoadUserFromStorage(storage);
  }

  method LogoutThenReload(storage: Storage, before: SessionState, after: SessionState)
    requires before != after
    modifies before, after, storage
    ensures after.Current() == old(after.Current()) && after.isAuthChecked
    ensures AuthKey !in storage.items
  {
    before.Logout(storage);
    after.LoadUserFromStorage(storage);
  }
}
