/** The session store: `{token, user, loading, error}` plus the browser's
    stored token, changed by one reducer case per action. Each request
    (login, register, profile) is modelled by its settled reply. */
module AuthSlice {
  import opened Common

  datatype User = User(id: int, name: string, email: string, role: string)

  datatype AuthState = AuthState(
    token: Option<string>,
    user: Option<User>,
    loading: bool,
    error: Option<string>)

  /** The actions the slice answers to; the profile's pending and rejected
      actions are dispatched too but have no case. */
  datatype Action =
    | Logout
    | LoginPending | LoginFulfilled(token: string) | LoginRejected(payload: string)
    | RegisterPending | RegisterFulfilled | RegisterRejected(payload: string)
    | ProfilePending | ProfileFulfilled(profile: User) | ProfileRejected(payload: string)

  datatype Request = RegisterRequest | LoginRequest | ProfileRequest

  /** The fixed message each request rejects with when the server gives none. */
  function Fallback(request: Request): string
  {
    match request
    case RegisterRequest => "Registrasi gagal"
    case LoginRequest => "Login gagal"
    case ProfileRequest => "Gagal ambil profile"
  }

  /** The value a request rejects with: register and login prefer the
      server's `error` field, the profile request always uses its fallback. */
  function RejectionPayload(request: Request, serverError: string): (r: string)
    ensures r != ""
    ensures request != ProfileRequest && serverError != "" ==> r == serverError
    ensures request == ProfileRequest || serverError == "" ==> r == Fallback(request)
  {
    if request == ProfileRequest then Fallback(request) else OrElse(serverError, Fallback(request))
  }

  /** The reducer: what each case handler leaves in the state. */
  function Reduce(s: AuthState, a: Action): (r: AuthState)
    ensures !WritesToken(a) ==> r.token == s.token
    ensures !WritesUser(a) ==> r.user == s.user
    ensures a.Logout? ==> r.token == None && r.user == None
    ensures a.LoginFulfilled? ==> r.token == Some(a.token)
    ensures a.ProfileFulfilled? ==> r.user == Some(a.profile)
  {
    match a
    case Logout => s.(token := None, user := None)
    case LoginPending => s.(loading := true, error := None)
    case LoginFulfilled(t) => s.(loading := false, token := Some(t))
    case LoginRejected(m) => s.(loading := false, error := Some(m))
    case RegisterPending => s.(loading := true, error := None)
    case RegisterFulfilled => s.(loading := false)
    case RegisterRejected(m) => s.(loading := false, error := Some(m))
    case ProfilePending => s
    case ProfileFulfilled(u) => s.(user := Some(u))
    case ProfileRejected(_) => s
  }

  /** The state after dispatching `actions` in order. */
  function ReduceAll(s: AuthState, actions: seq<Action>): AuthState
    decreases |actions|
  {
    if actions == [] then s else ReduceAll(Reduce(s, actions[0]), actions[1..])
  }

  predicate WritesToken(a: Action)
  {
    a.Logout? || a.LoginFulfilled?
  }

  predicate WritesUser(a: Action)
  {
    a.Logout? || a.ProfileFulfilled?
  }

  predicate IsRegisterAction(a: Action)
  {
    a.RegisterPending? || a.RegisterFulfilled? || a.RegisterRejected?
  }

  /** Logging out twice is logging out once. */
  lemma LogoutIdempotent(s: AuthState)
    ensures Reduce(Reduce(s, Logout), Logout) == Reduce(s, Logout)
    ensures Reduce(s, Logout).token == None && Reduce(s, Logout).user == None
  {
  }

  /** The pending cases set `loading` and clear `error` and change nothing else. */
  lemma PendingTouchesOnlyLoadingAndError(s: AuthState, a: Action)
    requires a == LoginPending || a == RegisterPending
    ensures Reduce(s, a) == AuthState(s.token, s.user, true, None)
  {
  }

  /** A rejection clears `loading`, records the payload and keeps the credentials. */
  lemma RejectedKeepsCredentials(s: AuthState, a: Action)
    requires a.LoginRejected? || a.RegisterRejected?
    ensures Reduce(s, a).token == s.token && Reduce(s, a).user == s.user
    ensures !Reduce(s, a).loading && Reduce(s, a).error == Some(a.payload)
  {
  }

  /** A successful profile fetch replaces the user whatever the token is: after
      a logout it populates `user` while `token` stays empty. */
  lemma ProfileIgnoresToken(s: AuthState, u: User)
    ensures Reduce(Reduce(s, Logout), ProfileFulfilled(u)).token == None
    ensures Reduce(Reduce(s, Logout), ProfileFulfilled(u)).user == Some(u)
  {
  }

  /** Only logout and a fulfilled login ever change the token. */
  lemma {:induction false} TokenWrittenOnlyByLoginOrLogout(s: AuthState, actions: seq<Action>)
    requires forall i :: 0 <= i < |actions| ==> !WritesToken(actions[i])
    ensures ReduceAll(s, actions).token == s.token
    decreases |actions|
  {
    if actions != [] {
      TokenWrittenOnlyByLoginOrLogout(Reduce(s, actions[0]), actions[1..]);
    }
  }

  /** Only logout and a fulfilled profile fetch ever change the user. */
  lemma {:induction false} UserWrittenOnlyByProfileOrLogout(s: AuthState, actions: seq<Action>)
    requires forall i :: 0 <= i < |actions| ==> !WritesUser(actions[i])
    ensures ReduceAll(s, actions).user == s.user
    decreases |actions|
  {
    if actions != [] {
      UserWrittenOnlyByProfileOrLogout(Reduce(s, actions[0]), actions[1..]);
    }
  }

  /** Registering, however it settles, never logs anybody in. */
  lemma RegisterNeverAuthenticates(s: AuthState, actions: seq<Action>)
    requires forall i :: 0 <= i < |actions| ==> IsRegisterAction(actions[i])
    ensures ReduceAll(s, actions).token == s.token
    ensures ReduceAll(s, actions).user == s.user
  {
    TokenWrittenOnlyByLoginOrLogout(s, actions);
    UserWrittenOnlyByProfileOrLogout(s, actions);
  }

  /** The store itself: the reducer's draft fields and the token kept in
      browser storage under the key "token". */
  class AuthStore {
    var token: Option<string>
    var user: Option<User>
    var loading: bool
    var error: Option<string>
    var storedToken: Option<string>

    function State(): AuthState
      reads this
    {
      AuthState(token, user, loading, error)
    }

    /** The token in the state is the one in storage. The request methods
        below keep this; the bare reducer cases do not write storage. */
    ghost predicate Valid()
      reads this
    {
      token == storedToken
    }

    /** `initialState`: the token is read from storage, nothing else is known. */
    constructor (stored: Option<string>)
      ensures token == stored && user == None && !loading && error == None
      ensures storedToken == stored && Valid()
    {
      token, user, loading, error := stored, None, false, None;
      storedToken := stored;
    }

    /** `logout`: clears the credentials and the stored token. */
    method Logout()
      modifies this`token, this`user, this`storedToken
      ensures token == None && user == None && storedToken == None
      ensures State() == Reduce(old(State()), Action.Logout) && Valid()
    {
      token := None;
      user := None;
      storedToken := None;
    }

    method LoginPending()
      modifies this`loading, this`error
      ensures loading && error == None
      ensures State() == Reduce(old(State()), Action.LoginPending)
    {
      loading := true;
      error := None;
    }

    method LoginFulfilled(payload: string)
      modifies this`loading, this`token
      ensures !loading && token == Some(payload)
      ensures State() == Reduce(old(State()), Action.LoginFulfilled(payload))
    {
      loading := false;
      token := Some(payload);
    }

    method LoginRejected(payload: string)
      modifies this`loading, this`error
      ensures !loading && error == Some(payload)
      ensures State() == Reduce(old(State()), Action.LoginRejected(payload))
    {
      loading := false;
      error := Some(payload);
    }

    method RegisterPending()
      modifies this`loading, this`error
      ensures loading && error == None
      ensures State() == Reduce(old(State()), Action.RegisterPending)
    {
      loading := true;
      error := None;
    }

    method RegisterFulfilled()
      modifies this`loading
      ensures !loading
      ensures State() == Reduce(old(State()), Action.RegisterFulfilled)
    {
      loading := false;
    }

    method RegisterRejected(payload: string)
      modifies this`loading, this`error
      ensures !loading && error == Some(payload)
      ensures State() == Reduce(old(State()), Action.RegisterRejected(payload))
    {
      loading := false;
      error := Some(payload);
    }

    method ProfileFulfilled(profile: User)
      modifies this`user
      ensures user == Some(profile)
      ensures State() == Reduce(old(State()), Action.ProfileFulfilled(profile))
    {
      user := Some(profile);
    }

    /** The login request: pending, then on success the token is stored and
        the fulfilled case runs; on failure the rejected case runs with the
        server's message or "Login gagal". */
    method Login(reply: Outcome<string>)
      modifies this`loading, this`error, this`token, this`storedToken
      ensures !loading
      ensures reply.Ok? ==> token == Some(reply.value) && storedToken == token && error == None
      ensures reply.Err? ==> token == old(token) && storedToken == old(storedToken)
      ensures reply.Err? ==> error == Some(RejectionPayload(LoginRequest, reply.message))
      ensures old(Valid()) ==> Valid()
    {
      LoginPending();
      match reply {
        case Ok(t) =>
          storedToken := Some(t);
          LoginFulfilled(t);
        case Err(m) =>
          LoginRejected(RejectionPayload(LoginRequest, m));
      }
    }

    /** The register request: never touches the token or the user. */
    method Register(reply: Outcome<()>)
      modifies this`loading, this`error
      ensures !loading
      ensures reply.Ok? ==> error == None
      ensures reply.Err? ==> error == Some(RejectionPayload(RegisterRequest, reply.message))
    {
      RegisterPending();
      if reply.Err? {
        RegisterRejected(RejectionPayload(RegisterRequest, reply.message));
      } else {
        RegisterFulfilled();
      }
    }

    /** The profile request: its pending and rejected actions have no case,
        so only a success changes anything, and only `user`. */
    method FetchProfile(reply: Outcome<User>)
      modifies this`user
      ensures reply.Ok? ==> user == Some(reply.value)
      ensures reply.Err? ==> user == old(user)
    {
      if reply.Ok? {
        ProfileFulfilled(reply.value);
      }
    }
  }
}
