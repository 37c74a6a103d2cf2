/** The persisted authentication store (src/store/useAuthStore.ts): the signed-in
    user, the token pair and the authenticated flag, with the four setters the
    login page, the header, the sidebar and the refresh coordinator call. */
module Session {
  import opened Common

  datatype User = User(id: int, staffCode: string, email: string, firstName: string, lastName: string, role: string)

  /** What `partialize` hands to localStorage: exactly these four fields. */
  datatype Snapshot = Snapshot(accessToken: Option<string>, refreshToken: Option<string>, user: Option<User>, isAuthenticated: bool)

  /** The snapshot of a store that nobody has signed in to, or that was logged out. */
  function SignedOut(): Snapshot
  {
    Snapshot(None, None, None, false)
  }

  class AuthStore {
    var user: Option<User>
    var accessToken: Option<string>
    var refreshToken: Option<string>
    var isAuthenticated: bool

    /** The store's initial state: nobody signed in. */
    constructor ()
      ensures user == None && accessToken == None && refreshToken == None && !isAuthenticated
      ensures Partialize() == SignedOut()
    {
      user := None;
      accessToken := None;
      refreshToken := None;
      isAuthenticated := false;
    }

    /** `partialize`: the persisted projection of the store. */
    function Partialize(): Snapshot
      reads this
    {
      Snapshot(accessToken, refreshToken, user, isAuthenticated)
    }

    /** `setTokens`: both tokens replaced, marked authenticated, user kept. */
    method SetTokens(access: string, refresh: string)
      modifies this
      ensures accessToken == Some(access) && refreshToken == Some(refresh) && isAuthenticated
      ensures user == old(user)
    {
      accessToken := Some(access);
      refreshToken := Some(refresh);
      isAuthenticated := true;
    }

    /** `setUser`: only the user changes. */
    method SetUser(u: User)
      modifies this
      ensures user == Some(u)
      ensures accessToken == old(accessToken) && refreshToken == old(refreshToken)
      ensures isAuthenticated == old(isAuthenticated)
    {
      user := Some(u);
    }

    /** `login`: user, both tokens and the flag set in one update. */
    method Login(u: User, access: string, refresh: string)
      modifies this
      ensures Partialize() == Snapshot(Some(access), Some(refresh), Some(u), true)
    {
      user := Some(u);
      accessToken := Some(access);
      refreshToken := Some(refresh);
      isAuthenticated := true;
    }

    /** `logout`: back to the signed-out state, whatever the state was, so a
        second logout changes nothing. */
    method Logout()
      modifies this
      ensures Partialize() == SignedOut()
    {
      user := None;
      accessToken := None;
      refreshToken := None;
      isAuthenticated := false;
    }

    /** Loading a persisted snapshot back into the store (the persist
        middleware's merge of the stored fields over the initial state). */
    method Rehydrate(p: Snapshot)
      modifies this
      ensures Partialize() == p
      ensures p == old(Partialize()) ==>
                (user == old(user) && accessToken == old(accessToken)
                 && refreshToken == old(refreshToken) && isAuthenticated == old(isAuthenticated))
    {
      user := p.user;
      accessToken := p.accessToken;
      refreshToken := p.refreshToken;
      isAuthenticated := p.isAuthenticated;
    }
  }
}
