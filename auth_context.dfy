/** The authentication provider: an in-memory auth state, a token persisted in
    browser local storage, the `logIn`/`logOut` actions, and the mount step
    that resolves the initial `UNKNOWN` state. */
module Auth {
  import opened Js

  /** Local-storage key of the persisted token. */
  const JWT_LOCAL_STORAGE_KEY := "jwt"

  const NO_PROVIDER_MESSAGE := "Attempted to use AuthActionsContext without a provider!"

  datatype AuthState = Unknown | Loading | LoggedOut | LoggedIn(jwt: string)

  /** `isLoadingOrUnknown`: the provider renders nothing in these two states. */
  predicate IsLoadingOrUnknown(s: AuthState)
  {
    s == Unknown || s == Loading
  }

  /** The transitions the provider makes. */
  predicate Step(from: AuthState, to: AuthState)
  {
    match from
    case Unknown => to == Loading
    case _ => to == LoggedOut || to.LoggedIn?
  }

  /** A run of the provider: it starts in `Unknown` and moves by `Step`. */
  predicate IsRun(h: seq<AuthState>)
  {
    |h| > 0 && h[0] == Unknown && forall i :: 0 < i < |h| ==> Step(h[i - 1], h[i])
  }

  /** In any run, `Unknown` is only the first state and `Loading` only the
      second; every later state is `LoggedIn` or `LoggedOut`. */
  lemma RunShape(h: seq<AuthState>)
    requires IsRun(h)
    ensures |h| > 1 ==> h[1] == Loading
    ensures forall i :: 1 < i < |h| ==> !IsLoadingOrUnknown(h[i])
  {
    forall i | 0 < i < |h| ensures h[i] != Unknown {
      assert Step(h[i - 1], h[i]);
    }
    forall i | 1 < i < |h| ensures h[i] != Loading {
      assert Step(h[i - 1], h[i]) && h[i - 1] != Unknown;
    }
  }

  /** The token `usePersistedState` reads back: the stored value, or `""`. */
  function PersistedToken(storage: map<string, string>): string
  {
    if JWT_LOCAL_STORAGE_KEY in storage then storage[JWT_LOCAL_STORAGE_KEY] else ""
  }

  /** The value of the actions context (the pair of callbacks). */
  datatype AuthActions = AuthActions

  /** The actions context a descendant sees: the provider renders its
      children, and with them the context value, only once the state is resolved. */
  function ActionsContextValue(s: AuthState): Option<AuthActions>
  {
    if IsLoadingOrUnknown(s) then None else Some(AuthActions)
  }

  /** `useAuthActions`: throws when no provider value is present. */
  function UseAuthActions(context: Option<AuthActions>): (r: Result<AuthActions, string>)
    ensures r.Success? <==> context.Some?
    ensures r.Failure? ==> r.error == NO_PROVIDER_MESSAGE
  {
    match context
    case None => Failure(NO_PROVIDER_MESSAGE)
    case Some(actions) => Success(actions)
  }

  /** The actions can be obtained exactly when the provider has resolved its state. */
  lemma ActionsAvailableIffResolved(s: AuthState)
    ensures UseAuthActions(ActionsContextValue(s)).Success? <==> !IsLoadingOrUnknown(s)
  {
  }

  const NO_STATE_PROVIDER_MESSAGE := "Attempted to use AuthStateContext without a provider!"

  /** `useContext(AuthStateContext)`: the provider's state, or the context
      default `UNKNOWN` when no provider is above the caller. */
  function AuthStateContextValue(provided: Option<AuthState>): AuthState
  {
    if provided.Some? then provided.value else Unknown
  }

  /** JavaScript `!context` on an auth state: `UNKNOWN`, `LOADING` and
      `LOGGED_OUT` are symbols and `LoggedIn` is an object, all truthy. */
  predicate IsFalsy(context: AuthState)
  {
    match context
    case Unknown => false
    case Loading => false
    case LoggedOut => false
    case LoggedIn(_) => false
  }

  /** `useAuthState` as written: the guard tests the context value, whose
      default is the truthy `UNKNOWN`. */
  function UseAuthStateAsWritten(provided: Option<AuthState>): Result<AuthState, string>
  {
    var context := AuthStateContextValue(provided);
    if IsFalsy(context) then Failure(NO_STATE_PROVIDER_MESSAGE) else Success(context)
  }

  /** Without a provider the guard does not throw: the caller gets `UNKNOWN`. */
  lemma UseAuthStateAsWrittenNeverThrows(provided: Option<AuthState>)
    ensures UseAuthStateAsWritten(provided).Success?
    ensures provided.None? ==> UseAuthStateAsWritten(provided) == Success(Unknown)
  {
  }

  /** `useAuthState` as its error message intends: throw exactly when no
      provider is above the caller, otherwise return the provided state. */
  function UseAuthState(provided: Option<AuthState>): (r: Result<AuthState, string>)
    ensures r.Failure? <==> provided.None?
    ensures r.Failure? ==> r.error == NO_STATE_PROVIDER_MESSAGE
    ensures r.Success? ==> r.value == provided.value
  {
    if provided.None? then Failure(NO_STATE_PROVIDER_MESSAGE) else Success(provided.value)
  }

  class AuthProvider {
    var authState: AuthState
    /** The persisted token (`usePersistedState('jwt', '')`). */
    var token: string
    /** Browser local storage. */
    var storage: map<string, string>
    /** Every auth state the provider has been in, oldest first. */
    ghost var History: seq<AuthState>

    ghost predicate Valid()
      reads this
    {
      IsRun(History) && History[|History| - 1] == authState &&
      token == PersistedToken(storage) &&
      (authState.LoggedIn? ==> authState.jwt == token)
    }

    /** The provider as first rendered over the given local storage. */
    constructor (initialStorage: map<string, string>)
      ensures Valid()
      ensures authState == Unknown && History == [Unknown]
      ensures storage == initialStorage
      ensures token == PersistedToken(initialStorage)
      ensures JWT_LOCAL_STORAGE_KEY !in initialStorage ==> token == ""
    {
      authState := Unknown;
      token := PersistedToken(initialStorage);
      storage := initialStorage;
      History := [Unknown];
    }

    /** The persisted setter: the new token is written through to storage. */
    method SetToken(value: string)
      modifies this
      ensures token == value && storage == old(storage)[JWT_LOCAL_STORAGE_KEY := value]
      ensures authState == old(authState) && History == old(History)
    {
      token := value;
      storage := storage[JWT_LOCAL_STORAGE_KEY := value];
    }

    /** `setAuthState`, recording the transition. */
    method SetAuthState(s: AuthState)
      modifies this
      ensures authState == s && History == old(History) + [s]
      ensures token == old(token) && storage == old(storage)
    {
      authState := s;
      History := History + [s];
    }

    /** `logOut`: clear local storage, then `LOGGED_OUT` and an empty token.
        Callable once the state has left `Unknown`: before that no component
        holds the actions, and the mount step calls it only after `Loading`. */
    method LogOut()
      requires Valid() && authState != Unknown
      modifies this
      ensures Valid() && RendersChildren()
      ensures authState == LoggedOut && token == ""
      ensures storage == map[JWT_LOCAL_STORAGE_KEY := ""]
      ensures forall key :: key in storage ==> key == JWT_LOCAL_STORAGE_KEY
      ensures History == old(History) + [LoggedOut]
    {
      storage := map[];
      SetAuthState(LoggedOut);
      SetToken("");
    }

    /** `logIn(jwt)`: persist the token, then `LoggedIn{jwt}`. */
    method LogIn(jwt: string)
      requires Valid() && authState != Unknown
      modifies this
      ensures Valid() && RendersChildren()
      ensures authState == LoggedIn(jwt) && token == jwt
      ensures storage == old(storage)[JWT_LOCAL_STORAGE_KEY := jwt]
      ensures History == old(History) + [LoggedIn(jwt)]
    {
      SetToken(jwt);
      SetAuthState(LoggedIn(jwt));
    }

    /** The mount effect: only in `Unknown`, go through `Loading`, then log in
        with a non-empty persisted token or log out. */
    method Mount()
      requires Valid()
      modifies this
      ensures Valid()
      ensures old(authState) != Unknown ==>
                authState == old(authState) && token == old(token) &&
                storage == old(storage) && History == old(History)
      ensures old(authState) == Unknown ==>
                authState == (if old(token) != "" then LoggedIn(old(token)) else LoggedOut) &&
                History == old(History) + [Loading, authState] &&
                storage == (if old(token) != "" then old(storage) else map[JWT_LOCAL_STORAGE_KEY := ""]) &&
                token == old(token)
      ensures old(authState) != Loading ==> RendersChildren()
    {
      if authState == Unknown {
        SetAuthState(Loading);
        if token != "" {
          LogIn(token);
          assert storage == old(storage);
        } else {
          LogOut();
        }
      }
    }

    /** Whether the provider renders its children (it renders `null` otherwise):
        exactly once its run has passed `UNKNOWN` and `LOADING`. */
    function RendersChildren(): (b: bool)
      reads this
      requires Valid()
      ensures b <==> |History| > 2
    {
      RunShape(History);
      !IsLoadingOrUnknown(authState)
    }
  }
}
