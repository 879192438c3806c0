/**
 * The session hooks of the client: the `useIsAuthenticated` selector and
 * `logout`, which clears the whole persisted map before resetting the
 * store. (The query cache that `logout` also clears is not modelled.)
 */
module UseAuth {
  import opened UserStore

  /** `useIsAuthenticated`: selects `state.token`, true when it is non-empty. */
  function UseIsAuthenticated(token: string): (b: bool)
    ensures b <==> |token| > 0
  {
    token != ""
  }

  /** The hook and the store's own `isAuthenticated` are the same predicate of the session. */
  lemma HookAgreesWithStore(st: Store)
    ensures UseIsAuthenticated(st.user.token) == IsAuthenticated(st)
  {
  }

  /** `logout`: `localStorage.clear()`, then the store's `reset`. */
  function Logout(st: Store): (r: Store)
    ensures r.storage == map[]
    ensures r.user == EmptyUser
    ensures !IsAuthenticated(r)
    ensures Init(r.storage) == r
  {
    Reset(Store(st.user, map[]))
  }

  /** Logging out twice leaves the same session as logging out once. */
  lemma LogoutIdempotent(st: Store)
    ensures Logout(Logout(st)) == Logout(st)
  {
  }

  /**
   * `logout` clears more than `reset`: a persisted key outside the session
   * survives `reset` but not `logout`, while both leave nothing a reload
   * would turn back into a session.
   */
  lemma LogoutClearsMoreThanReset(st: Store, key: string)
    requires key !in SessionKeys && key in st.storage
    ensures key in Reset(st).storage && Reset(st).storage[key] == st.storage[key]
    ensures key !in Logout(st).storage
    ensures Init(Reset(st).storage).user == Init(Logout(st).storage).user == EmptyUser
  {
  }
}
