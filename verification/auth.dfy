/**
  The authentication hook (`api/hooks/useAuth.js`): the token kept in
  `localStorage` under `auth_token`, the current user fetched from
  `/auth/me`, login, registration with its auto-login, logout and the
  hydration on mount. Each server call is a parameter: the outcome the
  request layer produced for it.
 */
module Auth {
  import opened Js
  import opened Storage
  import opened Client
  import Resource

  /** What an auth action threw. */
  datatype AuthError =
    | Request(e: RequestError)   // the request layer threw
    | NoToken                    // "No token returned from login"
    | TypeError                  // reading a property of null or undefined

  const NoTokenMessage := "No token returned from login"

  datatype AuthState = AuthState(store: Store, token: Json, user: Json, loading: bool, error: Option<AuthError>)

  /** The outcome of one `http` call. */
  type Reply = Result<HttpResponse, RequestError>

  /** The hook on mount: the stored token (null when missing or storage throws), loading while one is held. */
  function InitialAuth(store: Store): (st: AuthState)
    ensures st.token == GetToken(store)
    ensures st.user == Null && st.error == None
    ensures st.loading <==> Truthy(st.token)
  {
    var token := ReadItem(store, TokenKey);
    AuthState(store, token, Null, Truthy(token), None)
  }

  /** `isAuthenticated`: `Boolean(token)`. */
  predicate IsAuthenticated(st: AuthState) {
    Truthy(st.token)
  }

  /** `persistToken(tkn)`: store a truthy token as text or remove the key; storage errors are ignored. */
  function PersistToken(st: AuthState, tkn: Json): (s: AuthState)
    ensures s.token == (if Truthy(tkn) then tkn else Null)
    ensures s.user == st.user && s.loading == st.loading && s.error == st.error
    ensures Truthy(tkn) ==> s.store == WriteItem(st.store, TokenKey, ToJsString(tkn))
    ensures !Truthy(tkn) ==> s.store == RemoveItem(st.store, TokenKey)
    ensures IsAuthenticated(s) <==> Truthy(tkn)
  {
    var store := if Truthy(tkn) then WriteItem(st.store, TokenKey, ToJsString(tkn)) else RemoveItem(st.store, TokenKey);
    st.(store := store, token := Or(tkn, Null))
  }

  /** `err?.status || err?.response?.status`: only a non-2xx response carries a status. */
  function StatusOf(e: RequestError): (r: Option<int>)
    ensures r.Some? <==> e.HttpFailure? && e.error.status != 0
    ensures r.Some? ==> r.value == e.error.status && r.value != 0
  {
    if e.HttpFailure? && e.error.status != 0 then Some(e.error.status) else None
  }

  /** `me()`: load the user; on failure forget the user, and drop the token on 401 or 403. */
  function Me(st: AuthState, reply: Reply): (r: (AuthState, Result<Json, AuthError>))
    ensures reply.Ok? ==> r.0 == st.(user := reply.value.data, error := None) && r.1 == Ok(reply.value.data)
    ensures reply.Err? ==> r.0.user == Null && r.0.error == Some(Request(reply.error)) && r.1 == Err(Request(reply.error))
    ensures reply.Err? && StatusOf(reply.error) in {Some(401), Some(403)} ==>
              !IsAuthenticated(r.0) && r.0.store == RemoveItem(st.store, TokenKey)
    ensures reply.Err? && StatusOf(reply.error) !in {Some(401), Some(403)} ==>
              r.0.token == st.token && r.0.store == st.store
  {
    match reply
    case Ok(res) => (st.(user := res.data, error := None), Ok(res.data))
    case Err(e) =>
      var cleared := st.(user := Null);
      var s := if StatusOf(e) == Some(401) || StatusOf(e) == Some(403) then PersistToken(cleared, Null) else cleared;
      (s.(error := Some(Request(e))), Err(Request(e)))
  }

  /** `res?.data?.access_token || res?.data?.token || null` */
  function ExtractToken(data: Json): (t: Json)
    ensures Truthy(t) <==> Truthy(Get(data, "access_token")) || Truthy(Get(data, "token"))
    ensures Truthy(Get(data, "access_token")) ==> t == Get(data, "access_token")
    ensures !Truthy(Get(data, "access_token")) && Truthy(Get(data, "token")) ==> t == Get(data, "token")
    ensures !Truthy(t) ==> t == Null
  {
    Or(Or(Get(data, "access_token"), Get(data, "token")), Null)
  }

  /**
    `login(email, password)`: post the credentials; a reply without a token
    is an error; otherwise persist the token, then load the user, ignoring a
    failure of that second call (whose error and 401/403 token drop still
    take effect).
   */
  function Login(st: AuthState, loginReply: Reply, meReply: Reply): (r: (AuthState, Result<Json, AuthError>))
    ensures !r.0.loading
    ensures r.1.Ok? <==> loginReply.Ok? && Truthy(ExtractToken(loginReply.value.data))
    ensures r.1.Err? ==> r.0 == st.(loading := false, error := Some(r.1.error))
    ensures loginReply.Err? ==> r.1 == Err(Request(loginReply.error))
    ensures r.1.Ok? ==>
              var tkn := ExtractToken(loginReply.value.data);
              && r.1.value == Obj(map["success" := Bool(true), "token" := tkn])
              && r.0 == Me(PersistToken(st.(error := None), tkn), meReply).0.(loading := false)
  {
    match loginReply
    case Err(e) => (st.(loading := false, error := Some(Request(e))), Err(Request(e)))
    case Ok(res) =>
      var tkn := ExtractToken(res.data);
      if !Truthy(tkn) then (st.(loading := false, error := Some(NoToken)), Err(NoToken))
      else
        var s := Me(PersistToken(st.(error := None), tkn), meReply).0;
        (s.(loading := false), Ok(Obj(map["success" := Bool(true), "token" := tkn])))
  }

  /** A successful login whose profile call succeeds leaves the session holding the new token. */
  lemma LoginAuthenticates(st: AuthState, loginReply: Reply, meReply: Reply)
    requires loginReply.Ok? && Truthy(ExtractToken(loginReply.value.data))
    requires meReply.Ok?
    ensures IsAuthenticated(Login(st, loginReply, meReply).0)
    ensures Login(st, loginReply, meReply).0.token == ExtractToken(loginReply.value.data)
  {
  }

  /** A login whose profile call answers 401 still reports success, but the session ends up without a token. */
  lemma LoginThenUnauthorizedMe(st: AuthState, loginReply: Reply, meReply: Reply)
    requires loginReply.Ok? && Truthy(ExtractToken(loginReply.value.data))
    requires meReply.Err? && StatusOf(meReply.error) == Some(401)
    ensures Login(st, loginReply, meReply).1.Ok?
    ensures !IsAuthenticated(Login(st, loginReply, meReply).0)
    ensures Login(st, loginReply, meReply).0.error == Some(Request(meReply.error))
  {
  }

  /** A failed login touches neither the stored token nor the session. */
  lemma FailedLoginKeepsSession(st: AuthState, loginReply: Reply, meReply: Reply)
    requires Login(st, loginReply, meReply).1.Err?
    ensures Login(st, loginReply, meReply).0.store == st.store
    ensures Login(st, loginReply, meReply).0.token == st.token
  {
  }

  /**
    The body `register` posts. `None` when computing the username throws:
    an email that is truthy but not a string has no `split`.
   */
  function RegisterBody(payload: Json): (b: Option<Json>)
    requires !Resource.Nullish(payload)
    ensures b.None? <==> !Truthy(Get(payload, "username")) && Truthy(Get(payload, "email")) && !Get(payload, "email").Str?
    ensures b.Some? ==>
              && Get(b.value, "email") == Get(payload, "email")
              && Get(b.value, "password") == Get(payload, "password")
              && Get(b.value, "full_name") == Or(Or(Get(payload, "fullName"), Get(payload, "name")), Undefined)
              && (Truthy(Get(payload, "username")) ==> Get(b.value, "username") == Get(payload, "username"))
              && (!Truthy(Get(payload, "username")) && Truthy(Get(payload, "email")) ==>
                    Get(b.value, "username") == Str(SplitOn(Get(payload, "email").s, '@')[0]))
              && (!Truthy(Get(payload, "username")) && !Truthy(Get(payload, "email")) ==>
                    Get(b.value, "username") == Undefined)
  {
    var email := Get(payload, "email");
    if !Truthy(Get(payload, "username")) && Truthy(email) && !email.Str? then None
    else
      var username :=
        if Truthy(Get(payload, "username")) then Get(payload, "username")
        else if Truthy(email) then Str(SplitOn(email.s, '@')[0])
        else Undefined;
      Some(Obj(map["email" := email, "username" := username,
                   "full_name" := Or(Or(Get(payload, "fullName"), Get(payload, "name")), Undefined),
                   "password" := Get(payload, "password")]))
  }

  /** Without a username, the part of the email before its first `@` becomes the username. */
  lemma UsernameFromEmail(local: string, domain: string, payload: Json)
    requires '@' !in local && local != ""
    requires payload.Obj? && "username" !in payload.props
    requires Get(payload, "email") == Str(local + "@" + domain)
    ensures RegisterBody(payload).Some?
    ensures Get(RegisterBody(payload).value, "username") == Str(local)
  {
    assert local + "@" + domain == local + ['@'] + domain;
    SplitOnAfterSep(local, '@', domain);
  }

  /**
    `register(payload)`: post the mapped body. With an email and a password
    it logs in with them (a failed login is ignored, its error kept);
    otherwise a token in the reply is persisted and the user loaded.
   */
  function Register(st: AuthState, payload: Json, regReply: Reply, loginReply: Reply, meReply: Reply)
    : (r: (AuthState, Result<Json, AuthError>))
    ensures !r.0.loading
    ensures Resource.Nullish(payload) ==> r == (st.(loading := false, error := Some(TypeError)), Err(TypeError))
    ensures !Resource.Nullish(payload) && RegisterBody(payload).None? ==> r.1 == Err(TypeError)
    ensures !Resource.Nullish(payload) && RegisterBody(payload).Some? ==>
              (r.1.Ok? <==> regReply.Ok?) &&
              (regReply.Ok? ==> r.1 == Ok(regReply.value.data)) &&
              (regReply.Err? ==> r.0 == st.(loading := false, error := Some(Request(regReply.error))))
    ensures !Resource.Nullish(payload) && RegisterBody(payload).Some? && regReply.Ok? &&
            Truthy(Get(payload, "email")) && Truthy(Get(payload, "password")) ==>
              r.0 == Login(st.(error := None), loginReply, meReply).0
    ensures !Resource.Nullish(payload) && RegisterBody(payload).Some? && regReply.Ok? &&
            !(Truthy(Get(payload, "email")) && Truthy(Get(payload, "password"))) ==>
              var tkn := ExtractToken(regReply.value.data);
              (Truthy(tkn) ==> r.0 == Me(PersistToken(st.(error := None), tkn), meReply).0.(loading := false)) &&
              (!Truthy(tkn) ==> r.0 == st.(loading := false, error := None))
  {
    if Resource.Nullish(payload) || RegisterBody(payload).None? then (st.(loading := false, error := Some(TypeError)), Err(TypeError))
    else match regReply
      case Err(e) => (st.(loading := false, error := Some(Request(e))), Err(Request(e)))
      case Ok(res) =>
        var s := st.(error := None);
        var after :=
          if Truthy(Get(payload, "email")) && Truthy(Get(payload, "password")) then Login(s, loginReply, meReply).0
          else
            var tkn := ExtractToken(res.data);
            if Truthy(tkn) then Me(PersistToken(s, tkn), meReply).0 else s;
        (after.(loading := false), Ok(res.data))
  }

  /** `logout()`: forget the token (in storage too) and the user. */
  function Logout(st: AuthState): (s: AuthState)
    ensures !IsAuthenticated(s) && s.user == Null
    ensures s.store == RemoveItem(st.store, TokenKey)
    ensures s.error == st.error
  {
    PersistToken(st, Null).(user := Null)
  }

  /** The mount effect: with a token, load the user; either way stop loading. */
  function Hydrate(st: AuthState, meReply: Reply): (s: AuthState)
    ensures !s.loading
    ensures !IsAuthenticated(st) ==> s == st.(loading := false)
    ensures IsAuthenticated(st) ==> s == Me(st, meReply).0.(loading := false)
  {
    if !Truthy(st.token) then st.(loading := false) else Me(st, meReply).0.(loading := false)
  }

  /**
    A stored token that the server rejects with 401 or 403 ends hydration
    signed out and not loading, and with working storage the next mount
    starts signed out as well.
   */
  lemma HydrateUnauthorized(st: AuthState, meReply: Reply)
    requires IsAuthenticated(st) && st.store.available
    requires meReply.Err? && StatusOf(meReply.error) in {Some(401), Some(403)}
    ensures var s := Hydrate(st, meReply);
            && !IsAuthenticated(s) && !s.loading && s.user == Null
            && s.error == Some(Request(meReply.error))
            && !IsAuthenticated(InitialAuth(s.store)) && !InitialAuth(s.store).loading
  {
    ReadAfterRemove(st.store, TokenKey, "");
  }

  // ---------------------------------------------------------------------
  // the token across reloads and requests

  /** A token persisted into working storage is what the next mount reads back. */
  lemma PersistThenReload(st: AuthState, tkn: string)
    requires st.store.available && tkn != ""
    ensures InitialAuth(PersistToken(st, Str(tkn)).store).token == Str(tkn)
    ensures IsAuthenticated(InitialAuth(PersistToken(st, Str(tkn)).store))
  {
    ReadAfterWrite(st.store, TokenKey, tkn, "");
  }

  /** After logout with working storage, the next mount starts signed out and not loading. */
  lemma LogoutThenReload(st: AuthState)
    requires st.store.available
    ensures var s := InitialAuth(Logout(st).store);
            !IsAuthenticated(s) && !s.loading
  {
    ReadAfterRemove(st.store, TokenKey, "");
  }

  /** Once a login has persisted a string token, every plain request carries it as a bearer token. */
  lemma PersistedTokenIsSent(st: AuthState, tkn: string, verb: string, payload: Payload, stringify: Json -> string)
    requires st.store.available && tkn != ""
    ensures var o := BuildOptions(verb, payload, NoConfig, PersistToken(st, Str(tkn)).store, stringify);
            o.headers["Authorization"] == "Bearer " + tkn
  {
    var store := PersistToken(st, Str(tkn)).store;
    ReadAfterWrite(st.store, TokenKey, tkn, "");
    BearerReachesServer(verb, payload, store, stringify, tkn);
  }
}
