/** The admin session gate of `AuthContext.jsx`: the provider state
    `{admin, loading}` plus the browser's persisted `admin_token` slot, and the
    three operations `checkAdmin`, `login` and `logout`. */
module Auth {
  import opened Wrappers
  import opened Schema
  import opened Hooks

  /** The one password the login form accepts. */
  const Secret: string := "2009bbh2009"

  /** The username the login lookup asks the `admins` table for. */
  const AdminUsername: string := "admin"

  /** Provider state: the signed-in admin row (`null` when none), the
      start-up `loading` flag, and local storage's `admin_token` entry. */
  datatype AuthState = AuthState(admin: Option<AdminRecord>, loading: bool, token: Option<string>)

  /** The lookups the gate sends to the `admins` table. */
  datatype AdminQuery =
    | ByPasswordHash(hash: string)
    | ByCredentials(username: string, hash: string)

  /** User-visible notifications. */
  datatype Notice = LoginSucceeded | WrongPassword | LoginFailed | LoggedOut

  /** Observable side effects, in the order they happen. */
  datatype Effect = Lookup(query: AdminQuery) | Notify(notice: Notice) | LogError

  datatype Step = Step(state: AuthState, effects: seq<Effect>)

  datatype LoginOutcome = LoginOutcome(state: AuthState, ok: bool, effects: seq<Effect>)

  /** `isAuthenticated: !!admin` -- an admin row object is always truthy. */
  predicate IsAuthenticated(s: AuthState) {
    s.admin.Some?
  }

  /** JavaScript truthiness of the stored token: `null` and `""` are falsy. */
  predicate HasToken(s: AuthState) {
    s.token.Some? && s.token.value != ""
  }

  /** The provider as first mounted, over whatever local storage holds. */
  function Mount(stored: Option<string>): (s: AuthState)
    ensures !IsAuthenticated(s) && s.loading
    ensures s.token == stored
  {
    AuthState(None, true, stored)
  }

  /** `checkAdmin`: when a token is stored, look it up by password hash and
      adopt the row only if the reply has no error and has data; in every
      case end with `loading` false. Storage is only read. */
  function CheckAdmin(s: AuthState, reply: Reply<AdminRecord>): (r: Step)
    ensures !r.state.loading
    ensures r.state.token == s.token
    ensures !HasToken(s) ==> r.state.admin == s.admin && r.effects == []
    ensures HasToken(s) ==> |r.effects| >= 1 && r.effects[0] == Lookup(ByPasswordHash(s.token.value))
    ensures r.state.admin == (if HasToken(s) && reply.Delivered() then reply.data else s.admin)
    ensures forall k :: 0 <= k < |r.effects| ==> !r.effects[k].Notify?
  {
    if HasToken(s) then
      var query := [Lookup(ByPasswordHash(s.token.value))];
      match reply
      case Thrown(_) => Step(s.(loading := false), query + [LogError])
      case Answer(data, error) =>
        if error.None? && data.Some? then Step(s.(admin := data, loading := false), query)
        else Step(s.(loading := false), query)
    else
      Step(s.(loading := false), [])
  }

  /** `login(password)`: a wrong password is refused without consulting the
      backend; the right one is looked up by username and hash, and the token
      is written only after the reply is known not to have failed. */
  function Login(s: AuthState, password: string, reply: Reply<AdminRecord>): (r: LoginOutcome)
    ensures r.ok <==> password == Secret && !reply.Fails()
    ensures r.ok ==> r.state == s.(admin := reply.data, token := Some(password))
    ensures !r.ok ==> r.state == s
    ensures password != Secret ==> r.effects == [Notify(WrongPassword)]
    ensures password == Secret ==> |r.effects| == 2 && r.effects[0] == Lookup(ByCredentials(AdminUsername, Secret))
    ensures r.state.loading == s.loading
  {
    if password == Secret then
      var query := Lookup(ByCredentials(AdminUsername, password));
      if reply.Fails() then
        LoginOutcome(s, false, [query, Notify(LoginFailed)])
      else
        LoginOutcome(s.(admin := reply.data, token := Some(password)), true, [query, Notify(LoginSucceeded)])
    else
      LoginOutcome(s, false, [Notify(WrongPassword)])
  }

  /** `logout`: remove the token and drop the admin row, from any state. */
  function Logout(s: AuthState): (r: Step)
    ensures !IsAuthenticated(r.state) && r.state.token.None?
    ensures r.state.loading == s.loading
    ensures r.effects == [Notify(LoggedOut)]
  {
    Step(s.(admin := None, token := None), [Notify(LoggedOut)])
  }

  /** With a well-formed single-row reply, a successful login signs the admin
      in with exactly the row the backend returned. */
  lemma LoginSignsIn(s: AuthState, reply: Reply<AdminRecord>)
    requires reply.WellFormedSingle() && !reply.Fails()
    ensures Login(s, Secret, reply).ok
    ensures IsAuthenticated(Login(s, Secret, reply).state)
    ensures Login(s, Secret, reply).state.admin == reply.data
    ensures Login(s, Secret, reply).state.token == Some(Secret)
  {
  }

  /** As written, `login` trusts the absence of an error rather than the
      presence of a row: a reply with neither yields `true` without signing
      anybody in, and an admin who was already signed in is signed out by it
      (`setAdmin(null)`). The backend's `.single()` never sends such a reply. */
  lemma LoginWithoutRow(s: AuthState)
    ensures Login(s, Secret, Answer(None, None)).ok
    ensures !IsAuthenticated(Login(s, Secret, Answer(None, None)).state)
  {
  }

  /** Events the gate reacts to, with the backend's reply where one is needed. */
  datatype AuthEvent =
    | Startup(reply: Reply<AdminRecord>)
    | LoginAttempt(password: string, reply: Reply<AdminRecord>)
    | LogoutClick

  function Apply(s: AuthState, e: AuthEvent): AuthState {
    match e
    case Startup(reply) => CheckAdmin(s, reply).state
    case LoginAttempt(password, reply) => Login(s, password, reply).state
    case LogoutClick => Logout(s).state
  }

  /** The state after the events `evs`, in order. */
  function Run(s: AuthState, evs: seq<AuthEvent>): AuthState
    decreases |evs|
  {
    if evs == [] then s else Apply(Run(s, evs[..|evs| - 1]), evs[|evs| - 1])
  }

  /** Someone is signed in only while a (truthy) token is stored. */
  predicate TokenBacksAdmin(s: AuthState) {
    IsAuthenticated(s) ==> HasToken(s)
  }

  /** The only token the gate ever writes is the secret itself, so a stored
      token is the one present at mount time, the secret, or nothing. */
  predicate TokenFrom(stored: Option<string>, s: AuthState) {
    s.token == stored || s.token == Some(Secret) || s.token == None
  }

  lemma {:induction false} RunKeepsInvariants(stored: Option<string>, evs: seq<AuthEvent>)
    ensures TokenBacksAdmin(Run(Mount(stored), evs))
    ensures TokenFrom(stored, Run(Mount(stored), evs))
    decreases |evs|
  {
    if evs != [] {
      RunKeepsInvariants(stored, evs[..|evs| - 1]);
    }
  }

  /** `loading` only ever goes from true to false, and any start-up check
      clears it for good. */
  lemma {:induction false} LoadingClearedForGood(s: AuthState, evs: seq<AuthEvent>, k: nat)
    requires k < |evs| && evs[k].Startup?
    ensures !Run(s, evs).loading
    decreases |evs|
  {
    if k < |evs| - 1 {
      LoadingClearedForGood(s, evs[..|evs| - 1], k);
    }
  }

  /** Whatever happened before, a logout leaves nobody signed in and no token
      stored. */
  lemma LogoutEndsSession(s: AuthState, evs: seq<AuthEvent>)
    ensures !IsAuthenticated(Run(s, evs + [LogoutClick]))
    ensures Run(s, evs + [LogoutClick]).token.None?
  {
  }

  /** `useAuth`: the hook throws outside an `AuthProvider`. */
  function UseAuth<T>(context: Option<T>): (r: Result<T, HookError>)
    ensures r.Success? <==> context.Some?
    ensures r.Success? ==> r.value == context.value
    ensures r.Failure? ==> r.error == MissingProvider("useAuth")
  {
    UseContext(context, "useAuth")
  }

  /** Inside a provider the hook hands back exactly the provider's value. */
  lemma UseAuthRoundTrip<T>(v: T)
    ensures UseAuth(Some(v)) == Success(v)
    ensures UseAuth<T>(None) == Failure(MissingProvider("useAuth"))
  {
  }
}
