/**
 * The session store: the signed-in user, the token and the loading flag,
 * kept next to a key-value storage that holds the token under "token".
 * Profile fetches are parameters: Some(profile) on success, None on failure.
 */
module Auth {
  import opened Wrappers
  import opened Types

  /** The storage key of the token. */
  const TokenKey: string := "token"

  /** A JavaScript value is truthy; for an optional text, present and non-empty. */
  predicate Truthy(s: Option<string>) {
    s.Some? && s.value != ""
  }

  /** `localStorage.getItem('token')`. */
  function StoredToken(storage: map<string, string>): (r: Option<string>)
    ensures r.Some? <==> TokenKey in storage
    ensures r.Some? ==> r.value == storage[TokenKey]
  {
    if TokenKey in storage then Some(storage[TokenKey]) else None
  }

  class AuthStore {
    var user: Option<Usuario>
    var token: Option<string>
    var isLoading: bool
    var storage: map<string, string>

    /**
     * The storage and the state agree: a usable token in the state is the
     * stored one, and no token in the state means no usable token is stored
     * (an empty stored text may stay behind).
     */
    predicate Synced()
      reads this
    {
      (Truthy(token) ==> StoredToken(storage) == token)
      && (token.None? ==> !Truthy(StoredToken(storage)))
    }

    /** The store starts with no user, no token and `isLoading` set, over whatever the storage holds. */
    constructor (storage: map<string, string>)
      ensures user == None && token == None && isLoading
      ensures this.storage == storage
    {
      user := None;
      token := None;
      isLoading := true;
      this.storage := storage;
    }

    method SetUser(u: Option<Usuario>)
      modifies this`user
      ensures user == u
    {
      user := u;
    }

    /** `setToken`: a truthy token is stored, anything else removes the key; the state takes `t` as given. */
    method SetToken(t: Option<string>)
      modifies this`token, this`storage
      ensures token == t
      ensures Truthy(t) ==> storage == old(storage)[TokenKey := t.value]
      ensures !Truthy(t) ==> storage == old(storage) - {TokenKey}
      ensures Synced()
    {
      if Truthy(t) {
        storage := storage[TokenKey := t.value];
      } else {
        storage := storage - {TokenKey};
      }
      token := t;
    }

    /**
     * `login(token, usuario?)`: the token is stored first; a supplied user is
     * taken as is, otherwise the fetched profile; when that fetch fails the
     * token is kept and the user left as it was.
     */
    method Login(t: string, usuario: Option<Usuario>, perfil: Option<Usuario>)
      modifies this`user, this`token, this`isLoading, this`storage
      ensures storage == old(storage)[TokenKey := t]
      ensures token == Some(t) && !isLoading
      ensures usuario.Some? ==> user == usuario
      ensures usuario.None? && perfil.Some? ==> user == perfil
      ensures usuario.None? && perfil.None? ==> user == old(user)
      ensures Synced()
    {
      isLoading := true;
      storage := storage[TokenKey := t];
      if usuario.Some? {
        user, token, isLoading := usuario, Some(t), false;
      } else if perfil.Some? {
        user, token, isLoading := perfil, Some(t), false;
      } else {
        token, isLoading := Some(t), false;
      }
    }

    /** `logout`: the stored token is removed and user and token cleared; `isLoading` is untouched. */
    method Logout()
      modifies this`user, this`token, this`storage
      ensures storage == old(storage) - {TokenKey}
      ensures user == None && token == None
      ensures Synced()
    {
      storage := storage - {TokenKey};
      user, token := None, None;
    }

    /**
     * `checkAuth`: without a stored token the session is empty; with one, the
     * profile fetch decides: success signs the user in with the stored token,
     * failure removes it. Either way loading ends and the store is in sync.
     */
    method CheckAuth(perfil: Option<Usuario>)
      modifies this`user, this`token, this`isLoading, this`storage
      ensures !isLoading && Synced()
      ensures !Truthy(StoredToken(old(storage))) ==> user == None && token == None && storage == old(storage)
      ensures Truthy(StoredToken(old(storage))) && perfil.Some? ==>
        user == perfil && token == StoredToken(old(storage)) && storage == old(storage)
      ensures Truthy(StoredToken(old(storage))) && perfil.None? ==>
        user == None && token == None && storage == old(storage) - {TokenKey}
    {
      var stored := StoredToken(storage);
      if Truthy(stored) {
        isLoading, token := true, stored;
        if perfil.Some? {
          user, token, isLoading := perfil, stored, false;
        } else {
          storage := storage - {TokenKey};
          isLoading, user, token := false, None, None;
        }
      } else {
        isLoading, user, token := false, None, None;
      }
    }
  }
}
