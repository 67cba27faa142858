/**
 * The auth provider component: on mount it starts `initialize` and opens
 * one subscription to the identity provider's auth events; each event is
 * dispatched to a store transition and at most one navigation; on unmount
 * the subscription is released. It exposes `user`, `loading` and
 * `initialized` through a context value.
 */
module AuthSync {
  import opened Wrappers
  import opened Store
  import opened Routing

  /** An auth event as the provider delivers it: its name and a session payload. */
  datatype AuthEvent = AuthEvent(name: string, session: Option<Session>)

  /** What the event callback does with an event. */
  datatype Reaction =
    | Reinitialize                       // runs the whole `initialize` again
    | ClearAndNavigate(target: Route)    // clears user and session, then navigates
    | Ignore

  /**
   * The callback's dispatch: sign-in and token refresh re-run `initialize`,
   * sign-out clears and goes to the login page, every other event is ignored.
   * The session payload plays no part.
   */
  function React(e: AuthEvent): (r: Reaction)
    ensures r == Reinitialize <==> e.name == "SIGNED_IN" || e.name == "TOKEN_REFRESHED"
    ensures r == ClearAndNavigate(Login) <==> e.name == "SIGNED_OUT"
    ensures r.ClearAndNavigate? ==> r.target == Login
  {
    if e.name == "SIGNED_IN" || e.name == "TOKEN_REFRESHED" then Reinitialize
    else if e.name == "SIGNED_OUT" then ClearAndNavigate(Login)
    else Ignore
  }

  /** The event's payload never changes the reaction: the store is refilled from a fresh query. */
  lemma ReactIgnoresPayload(name: string, a: Option<Session>, b: Option<Session>)
    ensures React(AuthEvent(name, a)) == React(AuthEvent(name, b))
  {
  }

  /** What the context exposes to descendants. */
  datatype AuthContextValue = AuthContextValue(user: Option<User>, loading: bool, initialized: bool)

  /** The context's value when no provider is mounted above a consumer. */
  const DefaultContext := AuthContextValue(None, true, false)

  /** The value a mounted provider exposes for a given store state. */
  function ContextOf(s: AuthState): (v: AuthContextValue)
    ensures v.user == s.user && v.loading == s.loading && v.initialized == s.initialized
  {
    AuthContextValue(s.user, s.loading, s.initialized)
  }

  /** Before the first initialisation a mounted provider exposes exactly the default value. */
  lemma DefaultMatchesInitialStore()
    ensures ContextOf(Initial) == DefaultContext
  {
  }

  class AuthProvider {
    const store: AuthStore
    /** Whether the auth-event subscription is open. */
    var subscribed: bool
    /** How many subscriptions have been opened so far. */
    var subscriptionsOpened: nat
    /** The navigations pushed on the router, oldest first. */
    var navigations: seq<Route>

    constructor (store: AuthStore)
      ensures this.store == store
      ensures !subscribed && subscriptionsOpened == 0 && navigations == []
    {
      this.store := store;
      subscribed, subscriptionsOpened, navigations := false, 0, [];
    }

    /** The exposed context value: exactly the store's three fields. */
    function Context(): (v: AuthContextValue)
      reads this, store
      ensures v == AuthContextValue(store.user, store.loading, store.initialized)
    {
      ContextOf(store.State())
    }

    /** The mount effect: start `initialize`, then open one subscription. */
    method Mount()
      requires !subscribed
      modifies this, store
      ensures subscribed && subscriptionsOpened == old(subscriptionsOpened) + 1
      ensures store.State() == Began(old(store.State()))
      ensures navigations == old(navigations)
    {
      store.BeginInitialize();
      subscribed := true;
      subscriptionsOpened := subscriptionsOpened + 1;
    }

    /**
     * The provider emits `e`. Once unsubscribed nothing happens; otherwise the
     * store and the router are driven by `React(e)`.
     */
    method Deliver(e: AuthEvent)
      modifies this, store
      ensures subscribed == old(subscribed) && subscriptionsOpened == old(subscriptionsOpened)
      ensures !old(subscribed) ==> store.State() == old(store.State()) && navigations == old(navigations)
      ensures old(subscribed) && React(e) == Reinitialize ==>
                store.State() == Began(old(store.State())) && navigations == old(navigations)
      ensures old(subscribed) && React(e) == ClearAndNavigate(Login) ==>
                store.State() == Cleared(old(store.State())) && navigations == old(navigations) + [Login]
      ensures old(subscribed) && React(e) == Ignore ==>
                store.State() == old(store.State()) && navigations == old(navigations)
    {
      if subscribed {
        match React(e)
        case Reinitialize =>
          store.BeginInitialize();
        case ClearAndNavigate(target) =>
          store.ClearAuth();
          navigations := navigations + [target];
        case Ignore =>
      }
    }

    /**
     * A pending `initialize` settles with `o`. There is no liveness check:
     * the result is written even after unmount.
     */
    method SettleInitialize(o: ProviderOutcome)
      modifies store
      ensures store.State() == Completed(old(store.State()), o)
    {
      store.CompleteInitialize(o);
    }

    /** The cleanup of the mount effect: release the subscription. */
    method Unmount()
      modifies this
      ensures !subscribed && subscriptionsOpened == old(subscriptionsOpened) && navigations == old(navigations)
    {
      subscribed := false;
    }
  }

  /** A sign-out event pushes exactly one navigation, to the login page. */
  method SignOutScenario(x: Session) returns (p: AuthProvider)
    ensures p.navigations == [Login]
    ensures p.store.user.None? && p.store.session.None?
    ensures p.store.initialized && !p.store.loading
  {
    var store := new AuthStore();
    p := new AuthProvider(store);
    p.Mount();
    p.SettleInitialize(Live(x));
    p.Deliver(AuthEvent("SIGNED_OUT", None));
    p.Unmount();
    p.Deliver(AuthEvent("SIGNED_OUT", None));
    p.Deliver(AuthEvent("SIGNED_IN", Some(x)));
  }
}
