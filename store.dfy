/**
 * The authentication store (`useAuthStore`): who is signed in, with which
 * session, and whether that answer is ready yet.
 *
 * `initialize` is asynchronous: it raises `loading`, awaits the identity
 * provider's session query, then writes its result. It is modelled as two
 * steps, `BeginInitialize` and `CompleteInitialize(outcome)`, so that
 * overlapping initialisations are interleavings of these steps.
 */
module Store {
  import opened Wrappers

  /** The signed-in principal; `role` is absent when the provider sent none. */
  datatype User = User(id: string, email: string, role: Option<string>)

  /** A live credential grant; the provider always attaches its user. */
  datatype Session = Session(accessToken: string, user: User)

  /** What the provider's session query produced. */
  datatype ProviderOutcome =
    | Live(session: Session)   // the query returned a session
    | NoSession                // the query returned no session
    | ProviderError            // the query threw

  /** The four fields of the store. */
  datatype AuthState = AuthState(user: Option<User>, session: Option<Session>, loading: bool, initialized: bool)

  /** The state the store is created with. */
  const Initial := AuthState(None, None, true, false)

  /** `setUser`: the user is replaced, the other three fields stay. */
  function WithUser(s: AuthState, u: Option<User>): (r: AuthState)
    ensures r.user == u
    ensures r.session == s.session && r.loading == s.loading && r.initialized == s.initialized
  {
    s.(user := u)
  }

  /** `setSession`: the session is replaced, the other three fields stay. */
  function WithSession(s: AuthState, x: Option<Session>): (r: AuthState)
    ensures r.session == x
    ensures r.user == s.user && r.loading == s.loading && r.initialized == s.initialized
  {
    s.(session := x)
  }

  /** `clearAuth`: no user and no session; the readiness flags stay. */
  function Cleared(s: AuthState): (r: AuthState)
    ensures r.user.None? && r.session.None?
    ensures r.loading == s.loading && r.initialized == s.initialized
  {
    s.(user := None, session := None)
  }

  /** The first half of `initialize`: the write before the provider is queried. */
  function Began(s: AuthState): (r: AuthState)
    ensures r.loading
    ensures r.user == s.user && r.session == s.session && r.initialized == s.initialized
  {
    s.(loading := true)
  }

  /** The second half of `initialize`: the write made once the query settles. */
  function Completed(s: AuthState, o: ProviderOutcome): (r: AuthState)
    ensures r.initialized && !r.loading
    ensures o.Live? ==> r.user == Some(o.session.user) && r.session == Some(o.session)
    ensures o.NoSession? ==> r.user.None? && r.session.None?
    ensures o.ProviderError? ==> r.user == s.user && r.session == s.session
  {
    match o
    case Live(x) => AuthState(Some(x.user), Some(x), false, true)
    case NoSession => AuthState(None, None, false, true)
    case ProviderError => s.(initialized := true, loading := false)
  }

  /** The user and session stand or fall together, the user being the session's. */
  predicate Paired(s: AuthState) {
    match s.session
    case None => s.user.None?
    case Some(x) => s.user == Some(x.user)
  }

  /** Every way `initialize` can settle leaves the store ready and paired if it was. */
  lemma CompletedSettles(s: AuthState, o: ProviderOutcome)
    ensures Completed(s, o).initialized && !Completed(s, o).loading
    ensures o.Live? ==> Completed(s, o).user == Some(o.session.user) && Completed(s, o).session == Some(o.session)
    ensures o.NoSession? ==> Completed(s, o).user.None? && Completed(s, o).session.None?
    ensures o.ProviderError? ==> Completed(s, o).user == s.user && Completed(s, o).session == s.session
    ensures Paired(s) ==> Paired(Completed(s, o))
  {
  }

  /** Clearing twice is clearing once, and never touches the readiness flags. */
  lemma ClearIdempotent(s: AuthState)
    ensures Cleared(Cleared(s)) == Cleared(s)
    ensures Cleared(s).loading == s.loading && Cleared(s).initialized == s.initialized
    ensures Paired(Cleared(s))
  {
  }

  /** `setUser` alone can split the pair: the source gives no single pair setter. */
  lemma SetUserCanUnpair(u: User)
    ensures Paired(Initial) && !Paired(WithUser(Initial, Some(u)))
  {
  }

  // ---------------------------------------------------------------------
  // Sequences of store operations, for reasoning about interleavings.

  datatype Step =
    | SetUserStep(u: Option<User>)
    | SetSessionStep(x: Option<Session>)
    | ClearStep
    | BeginStep
    | CompleteStep(outcome: ProviderOutcome)

  function Apply(s: AuthState, step: Step): AuthState {
    match step
    case SetUserStep(u) => WithUser(s, u)
    case SetSessionStep(x) => WithSession(s, x)
    case ClearStep => Cleared(s)
    case BeginStep => Began(s)
    case CompleteStep(o) => Completed(s, o)
  }

  /** The state after applying `steps` in order, starting from `s`. */
  function Run(s: AuthState, steps: seq<Step>): AuthState
    decreases |steps|
  {
    if steps == [] then s else Run(Apply(s, steps[0]), steps[1..])
  }

  lemma {:induction false} RunAppend(s: AuthState, a: seq<Step>, b: seq<Step>)
    ensures Run(s, a + b) == Run(Run(s, a), b)
    decreases |a|
  {
    if a != [] {
      assert (a + b)[0] == a[0] && (a + b)[1..] == a[1..] + b;
      RunAppend(Apply(s, a[0]), a[1..], b);
    } else {
      assert a + b == b;
    }
  }

  /** Starting further initialisations only raises `loading`. */
  lemma {:induction false} RunBegins(s: AuthState, steps: seq<Step>)
    requires forall i :: 0 <= i < |steps| ==> steps[i].BeginStep?
    ensures Run(s, steps) == if steps == [] then s else Began(s)
    decreases |steps|
  {
    if steps != [] {
      RunBegins(Began(s), steps[1..]);
    }
  }

  /**
   * Last completion wins: whatever happened before, once an initialisation
   * completes and only new ones are started afterwards, the user and session
   * are those that completion wrote, and the store stays initialised.
   */
  lemma {:induction false} LastCompletionWins(s: AuthState, before: seq<Step>, o: ProviderOutcome, after: seq<Step>)
    requires forall i :: 0 <= i < |after| ==> after[i].BeginStep?
    ensures var r := Run(s, before + [CompleteStep(o)] + after);
            var c := Completed(Run(s, before), o);
            r.user == c.user && r.session == c.session && r.initialized && r.loading == (after != [])
  {
    RunAppend(s, before + [CompleteStep(o)], after);
    RunAppend(s, before, [CompleteStep(o)]);
    var mid := Run(s, before + [CompleteStep(o)]);
    assert mid == Completed(Run(s, before), o);
    RunBegins(mid, after);
  }

  /**
   * Two overlapping initialisations: the one that completes last decides the
   * user, whichever was started first and whatever the other one returned.
   */
  lemma OverlappingInitializations(s: AuthState, first: ProviderOutcome, second: Session)
    ensures Run(s, [BeginStep, BeginStep, CompleteStep(first), CompleteStep(Live(second))]).user == Some(second.user)
  {
    LastCompletionWins(s, [BeginStep, BeginStep, CompleteStep(first)], Live(second), []);
    assert [BeginStep, BeginStep, CompleteStep(first)] + [CompleteStep(Live(second))] + []
        == [BeginStep, BeginStep, CompleteStep(first), CompleteStep(Live(second))];
  }

  /** `initialize` is the only operation that sets `initialized`. */
  lemma {:induction false} OnlyCompletionInitializes(s: AuthState, steps: seq<Step>)
    requires forall i :: 0 <= i < |steps| ==> !steps[i].CompleteStep?
    ensures Run(s, steps).initialized == s.initialized
    decreases |steps|
  {
    if steps != [] {
      OnlyCompletionInitializes(Apply(s, steps[0]), steps[1..]);
    }
  }

  /** Once initialised, the store stays initialised. */
  lemma {:induction false} InitializedStays(s: AuthState, steps: seq<Step>)
    requires s.initialized
    ensures Run(s, steps).initialized
    decreases |steps|
  {
    if steps != [] {
      InitializedStays(Apply(s, steps[0]), steps[1..]);
    }
  }

  /** Steps that never call the two single-field setters keep the user and session paired. */
  lemma {:induction false} PairedWithoutSetters(s: AuthState, steps: seq<Step>)
    requires Paired(s)
    requires forall i :: 0 <= i < |steps| ==> !steps[i].SetUserStep? && !steps[i].SetSessionStep?
    ensures Paired(Run(s, steps))
    decreases |steps|
  {
    if steps != [] {
      CompletedSettles(s, if steps[0].CompleteStep? then steps[0].outcome else NoSession);
      PairedWithoutSetters(Apply(s, steps[0]), steps[1..]);
    }
  }

  // ---------------------------------------------------------------------
  // The store object.

  class AuthStore {
    var user: Option<User>
    var session: Option<Session>
    var loading: bool
    var initialized: bool

    function State(): AuthState
      reads this
    {
      AuthState(user, session, loading, initialized)
    }

    constructor ()
      ensures user.None? && session.None? && loading && !initialized
      ensures State() == Initial
    {
      user, session, loading, initialized := None, None, true, false;
    }

    /** `setUser`: replaces the user only. */
    method SetUser(u: Option<User>)
      modifies this
      ensures user == u
      ensures session == old(session) && loading == old(loading) && initialized == old(initialized)
      ensures State() == Apply(old(State()), SetUserStep(u))
    {
      user := u;
    }

    /** `setSession`: replaces the session only. */
    method SetSession(x: Option<Session>)
      modifies this
      ensures session == x
      ensures user == old(user) && loading == old(loading) && initialized == old(initialized)
      ensures State() == Apply(old(State()), SetSessionStep(x))
    {
      session := x;
    }

    /** `clearAuth`: forgets user and session, keeps the readiness flags. */
    method ClearAuth()
      modifies this
      ensures user.None? && session.None?
      ensures loading == old(loading) && initialized == old(initialized)
      ensures State() == Apply(old(State()), ClearStep)
    {
      user, session := None, None;
    }

    /** `initialize`, up to the provider query: only `loading` is raised. */
    method BeginInitialize()
      modifies this
      ensures loading
      ensures user == old(user) && session == old(session) && initialized == old(initialized)
      ensures State() == Apply(old(State()), BeginStep)
    {
      loading := true;
    }

    /** `initialize`, once the provider query settles with `o`; errors are swallowed. */
    method CompleteInitialize(o: ProviderOutcome)
      modifies this
      ensures initialized && !loading
      ensures o.Live? ==> user == Some(o.session.user) && session == Some(o.session)
      ensures o.NoSession? ==> user.None? && session.None?
      ensures o.ProviderError? ==> user == old(user) && session == old(session)
      ensures State() == Apply(old(State()), CompleteStep(o))
    {
      match o
      case Live(x) =>
        user, session, initialized, loading := Some(x.user), Some(x), true, false;
      case NoSession =>
        user, session, initialized, loading := None, None, true, false;
      case ProviderError =>
        initialized, loading := true, false;
    }
  }
}
