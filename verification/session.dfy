/**
 The authentication state kept by the `useAuth` hook: whether someone is signed
 in, who (uid, display name, email), and whether the first auth event is still
 awaited. Events from the identity provider and the result of the sign-out call
 are inputs; the provider itself is not modelled.
 */
module Session {
  import opened Wrappers
  import opened JsStrings

  /** The user object the hook hands to the pages. */
  datatype User = User(uid: string, name: string, email: string)

  datatype AuthState = AuthState(isAuthenticated: bool, user: Option<User>, loading: bool)

  /** Before the first auth event: nobody signed in, still loading. */
  const InitialAuthState := AuthState(false, None, true)

  /** The identity the provider reports for a signed-in account. */
  datatype Account = Account(uid: string, displayName: Option<string>, email: string)

  /** The account's document in the users collection; its `name` field may be absent. */
  datatype UserProfile = UserProfile(name: Option<string>)

  /** Outcome of reading the users document: the document (None when it does not exist), or a throw. */
  datatype ProfileLookup = ProfileFound(profile: Option<UserProfile>) | ProfileThrew

  /** One notification from the auth-state subscription. */
  datatype AuthEvent = SignedIn(account: Account, lookup: ProfileLookup) | SignedOut

  /** Outcome of the sign-out call. */
  datatype LogoutOutcome = LogoutOk | LogoutFailed(message: string) | LogoutThrew

  const DefaultName := "Usuario"

  /** `userData?.name`: the stored name when the document exists and has one. */
  function StoredName(lookup: ProfileLookup): Option<string> {
    match lookup
    case ProfileFound(Some(profile)) => profile.name
    case _ => None
  }

  /**
   The name shown for a signed-in account: the stored name, else the provider's
   display name, else "Usuario". When the document read throws, the chain starts
   at the display name.
   */
  function ResolveName(account: Account, lookup: ProfileLookup): (name: string)
    ensures Truthy(name)
    ensures lookup.ProfileFound? && StoredName(lookup).Some? && Truthy(StoredName(lookup).value)
            ==> name == StoredName(lookup).value
    ensures (StoredName(lookup).None? || !Truthy(StoredName(lookup).value))
            && account.displayName.Some? && Truthy(account.displayName.value)
            ==> name == account.displayName.value
    ensures (StoredName(lookup).None? || !Truthy(StoredName(lookup).value))
            && (account.displayName.None? || !Truthy(account.displayName.value))
            ==> name == DefaultName
  {
    match lookup
    case ProfileFound(_) => Or(StoredName(lookup), Or(account.displayName, DefaultName))
    case ProfileThrew => Or(account.displayName, DefaultName)
  }

  /** The handler of the auth-state subscription. */
  function OnAuthStateChange(s: AuthState, event: AuthEvent): (s': AuthState)
    ensures !s'.loading
    ensures event.SignedOut? ==> s'.user.None? && !s'.isAuthenticated
    ensures event.SignedIn? ==> s'.isAuthenticated && s'.user.Some?
    ensures event.SignedIn? ==> s'.user.value.uid == event.account.uid
                                && s'.user.value.email == event.account.email
                                && s'.user.value.name == ResolveName(event.account, event.lookup)
  {
    match event
    case SignedIn(account, lookup) =>
      AuthState(true, Some(User(account.uid, ResolveName(account, lookup), account.email)), false)
    case SignedOut =>
      AuthState(false, None, false)
  }

  /** `logout`: the local session is cleared only when the sign-out call reports success. */
  function Logout(s: AuthState, outcome: LogoutOutcome): (s': AuthState)
    ensures outcome.LogoutOk? ==> !s'.isAuthenticated && s'.user.None? && s'.loading == s.loading
    ensures !outcome.LogoutOk? ==> s' == s
  {
    if outcome.LogoutOk? then s.(isAuthenticated := false, user := None) else s
  }

  /** The hook's invariant: authenticated exactly when a user object is held. */
  predicate Consistent(s: AuthState) {
    s.isAuthenticated <==> s.user.Some?
  }

  /** Everything that can happen to the hook's state. */
  datatype SessionInput = AuthChanged(event: AuthEvent) | LogoutRequested(outcome: LogoutOutcome)

  function Step(s: AuthState, input: SessionInput): (s': AuthState)
    ensures Consistent(s) ==> Consistent(s')
  {
    match input
    case AuthChanged(event) => OnAuthStateChange(s, event)
    case LogoutRequested(outcome) => Logout(s, outcome)
  }

  /** The state after a sequence of inputs, applied in order. */
  function Run(s: AuthState, inputs: seq<SessionInput>): AuthState
    decreases |inputs|
  {
    if inputs == [] then s else Run(Step(s, inputs[0]), inputs[1..])
  }

  /** Every sequence of inputs keeps a consistent state consistent. */
  lemma {:induction false} RunKeepsConsistent(s: AuthState, inputs: seq<SessionInput>)
    requires Consistent(s)
    ensures Consistent(Run(s, inputs))
    decreases |inputs|
  {
    if inputs != [] {
      RunKeepsConsistent(Step(s, inputs[0]), inputs[1..]);
    }
  }

  /** Every state reachable from the hook's initial state is consistent. */
  lemma ReachableStatesConsistent(inputs: seq<SessionInput>)
    ensures Consistent(Run(InitialAuthState, inputs))
  {
    RunKeepsConsistent(InitialAuthState, inputs);
  }

  /** The spinner stays up until the first auth event and never comes back after one. */
  lemma {:induction false} LoadingEndsAtFirstAuthEvent(s: AuthState, inputs: seq<SessionInput>)
    ensures (!s.loading || exists i :: 0 <= i < |inputs| && inputs[i].AuthChanged?)
            <==> !Run(s, inputs).loading
    decreases |inputs|
  {
    if inputs != [] {
      var s1 := Step(s, inputs[0]);
      LoadingEndsAtFirstAuthEvent(s1, inputs[1..]);
      if exists i :: 0 <= i < |inputs[1..]| && inputs[1..][i].AuthChanged? {
        var i :| 0 <= i < |inputs[1..]| && inputs[1..][i].AuthChanged?;
        assert inputs[i + 1].AuthChanged?;
      }
      if exists i :: 0 <= i < |inputs| && inputs[i].AuthChanged? {
        var i :| 0 <= i < |inputs| && inputs[i].AuthChanged?;
        if i > 0 {
          assert inputs[1..][i - 1].AuthChanged?;
        }
      }
    }
  }
}
