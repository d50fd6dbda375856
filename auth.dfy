/**
 * The four handlers of backend/controllers/auth.controller.js as functions from
 * the state of the two stores (the users collection, keyed by normalised email,
 * and the Redis session keys) to the new state and the HTTP reply. The class in
 * auth_controller.dfy performs the same steps in place and is proved to agree
 * with these functions; the lemmas below are stated over them.
 *
 * A request field that is absent (or any other falsy value) is the empty string
 * here, and a cookie that is absent is `None` (an empty cookie value is falsy too).
 */
module Auth {
  import opened Wrappers
  import opened UserModel
  import opened Tokens
  import opened SessionStore

  // ------------------------------------------------------------------ replies

  /** The public projection of a user that the handlers send back. */
  datatype Profile = Profile(id: UserId, name: string, email: string, role: Role)

  function ProfileOf(u: UserRecord): Profile
  {
    Profile(u.id, u.name, u.email, u.role)
  }

  datatype Cookie = SetCookie(name: string, value: Token, maxAge: nat) | ClearCookie(name: string)

  datatype Body =
    | Message(message: string)
    | ServerError(message: string, error: string)
    | Created(user: Profile, message: string)
    | UserBody(user: Profile)

  datatype Response = Response(status: nat, body: Body, cookies: seq<Cookie>)

  function Reply(status: nat, message: string): Response
  {
    Response(status, Message(message), [])
  }

  const FIELDS_REQUIRED := "Name, email, and password are required"
  const USER_EXISTS := "User already exists"
  const USER_CREATED := "User created successfully"
  const CREDENTIALS_REQUIRED := "Email and password are required"
  const INVALID_CREDENTIALS := "Invalid email or password"
  const LOGGED_OUT := "Logged out successfully"
  const SERVER_ERROR := "Server error"
  const NO_REFRESH_TOKEN := "No refresh token provided"
  const INVALID_REFRESH_TOKEN := "Invalid refresh token"
  const TOKEN_REFRESHED := "Token refreshed successfully"

  /** `setCookies(res, accessToken, refreshToken)`. */
  function SetCookies(pair: TokenPair): (cs: seq<Cookie>)
    ensures cs == [SetCookie("accessToken", pair.accessToken, 1000 * Lifetime(AccessSecret)),
                   SetCookie("refreshToken", pair.refreshToken, 1000 * Lifetime(RefreshSecret))]
  {
    [SetCookie("accessToken", pair.accessToken, ACCESS_COOKIE_MAX_AGE),
     SetCookie("refreshToken", pair.refreshToken, REFRESH_COOKIE_MAX_AGE)]
  }

  /** The reply of a successful logout: both cookies are cleared. */
  const LOGGED_OUT_REPLY :=
    Response(200, Message(LOGGED_OUT), [ClearCookie("accessToken"), ClearCookie("refreshToken")])

  // -------------------------------------------------------------------- state

  datatype Store = Store(users: map<string, UserRecord>, sessions: Sessions, nextId: nat)

  datatype Step = Step(store: Store, response: Response)

  /** `!req.cookies.refreshToken`. */
  predicate Missing(cookie: Option<Token>)
  {
    cookie.None? || cookie.value == Garbled("")
  }

  /** `User.findOne({ email })`: the query value goes through the same setters as the stored value. */
  function FindByEmail(users: map<string, UserRecord>, email: string): Option<UserRecord>
  {
    var key := NormalizeEmail(email);
    if key in users then Some(users[key]) else None
  }

  // ------------------------------------------------------------------ sign-up

  /**
   * The catch block of `signUp` as written: it reads `error.errors.password.message`,
   * which only exists when the password path failed validation. For any other
   * failure the handler throws a TypeError from inside its catch block and sends
   * no reply.
   */
  datatype Outcome = Replied(response: Response) | Threw(error: string)

  function SignUpCatchAsWritten(errors: map<SchemaPath, string>): (o: Outcome)
    ensures o.Replied? <==> PasswordPath in errors
    ensures o.Replied? ==> o.response.status == 500 && o.response.body == Message(errors[PasswordPath])
  {
    if PasswordPath in errors then Replied(Reply(500, errors[PasswordPath]))
    else Threw("Cannot read properties of undefined (reading 'message')")
  }

  /**
   * The catch block as intended: a 500 carrying the validation message, the
   * password's when the password failed (as written), another failing path's
   * message otherwise.
   */
  function SignUpCatch(errors: map<SchemaPath, string>): (r: Response)
    requires errors != map[]
    ensures r.status == 500 && r.cookies == [] && r.body.Message?
    ensures r.body.message in errors.Values
    ensures PasswordPath in errors ==> r.body.message == errors[PasswordPath]
  {
    if PasswordPath in errors then Reply(500, errors[PasswordPath])
    else if EmailPath in errors then Reply(500, errors[EmailPath])
    else if NamePath in errors then Reply(500, errors[NamePath])
    else
      assert RolePath in errors by {
        var path :| path in errors.Keys;
        assert path.RolePath?;
      }
      Reply(500, errors[RolePath])
  }

  /**
   * The validation errors of `User.create({ name, email, password })` for a
   * non-empty name and no role (so the role takes its default).
   */
  function CreateErrors(name: string, email: string, password: string): (errors: map<SchemaPath, string>)
    requires name != ""
    ensures errors == Validate(name, NormalizeEmail(email), Plain(password), DEFAULT_ROLE)
    ensures errors == map[] <==> NormalizeEmail(email) != "" && |password| >= PASSWORD_MIN_LENGTH
  {
    assert ParseRole(DEFAULT_ROLE).Ok?;
    Validate(name, NormalizeEmail(email), Plain(password), DEFAULT_ROLE)
  }

  /**
   * The steps of `signUp` once both guards have passed: `User.create`, and when it
   * succeeds, the tokens, the session record and the 201 reply.
   */
  function CreateAndIssue(s: Store, name: string, email: string, password: string, now: nat, nonce: nat): (r: Step)
    requires name != "" && NormalizeEmail(email) !in s.users
    ensures r.response.status == 201 <==> CreateErrors(name, email, password) == map[]
    ensures r.response.status != 201 ==> r == Step(s, SignUpCatch(CreateErrors(name, email, password)))
    ensures r.response.status == 201 ==>
      var e := NormalizeEmail(email);
      && r.store.users.Keys == s.users.Keys + {e}
      && (forall other :: other in s.users ==> r.store.users[other] == s.users[other])
      && r.store.nextId == s.nextId + 1
      && var u := r.store.users[e];
      && u.id == s.nextId && u.name == name && u.email == e && u.role == Customer
      && u.password == Hash(Plain(password), GenSalt(nonce)) && ComparePassword(password, u.password)
      && var pair := GenerateTokens(u.id, now);
      && r.store.sessions == StoreRefreshToken(s.sessions, u.id, pair.refreshToken, now)
      && r.response == Response(201, Created(ProfileOf(u), USER_CREATED), SetCookies(pair))
  {
    var e := NormalizeEmail(email);
    var errors := CreateErrors(name, email, password);
    if errors != map[] then
      Step(s, SignUpCatch(errors))
    else
      var u := UserRecord(s.nextId, name, e, Hash(Plain(password), GenSalt(nonce)), Customer);
      var pair := GenerateTokens(u.id, now);
      Step(Store(s.users[e := u], StoreRefreshToken(s.sessions, u.id, pair.refreshToken, now), s.nextId + 1),
           Response(201, Created(ProfileOf(u), USER_CREATED), SetCookies(pair)))
  }

  /** `signUp`: `nonce` is the randomness `bcrypt.genSalt` consumes, `now` the clock `jwt.sign` reads. */
  function SignUp(s: Store, name: string, email: string, password: string, now: nat, nonce: nat): (r: Step)
    ensures name == "" || email == "" || password == "" ==> r == Step(s, Reply(400, FIELDS_REQUIRED))
    ensures name != "" && email != "" && password != "" && NormalizeEmail(email) in s.users ==>
      r == Step(s, Reply(400, USER_EXISTS))
    ensures r.response.status == 201 <==>
      && name != "" && email != "" && NormalizeEmail(email) !in s.users
      && NormalizeEmail(email) != "" && |password| >= PASSWORD_MIN_LENGTH
    ensures r.response.status != 201 ==> r.store == s
    ensures (name != "" && email != "" && password != "" && NormalizeEmail(email) !in s.users
             && r.response.status != 201) ==>
      && CreateErrors(name, email, password) != map[]
      && r.response == SignUpCatch(CreateErrors(name, email, password))
      && r.response.status == 500
    ensures r.response.status == 201 ==>
      var e := NormalizeEmail(email);
      && r.store.users.Keys == s.users.Keys + {e}
      && (forall other :: other in s.users ==> r.store.users[other] == s.users[other])
      && r.store.nextId == s.nextId + 1
      && var u := r.store.users[e];
      && u.id == s.nextId && u.name == name && u.email == e && u.role == Customer
      && u.password == Hash(Plain(password), GenSalt(nonce)) && ComparePassword(password, u.password)
      && var pair := GenerateTokens(u.id, now);
      && r.store.sessions == StoreRefreshToken(s.sessions, u.id, pair.refreshToken, now)
      && r.response == Response(201, Created(ProfileOf(u), USER_CREATED), SetCookies(pair))
  {
    if name == "" || email == "" || password == "" then
      Step(s, Reply(400, FIELDS_REQUIRED))
    else if FindByEmail(s.users, email).Some? then
      Step(s, Reply(400, USER_EXISTS))
    else
      CreateAndIssue(s, name, email, password, now, nonce)
  }

  /** The success branch of `CreateAndIssue`, stated as the step it takes. */
  lemma SignUpCreates(s: Store, name: string, email: string, password: string, now: nat, nonce: nat)
    requires name != "" && NormalizeEmail(email) !in s.users && CreateErrors(name, email, password) == map[]
    ensures var u := UserRecord(s.nextId, name, NormalizeEmail(email), Hash(Plain(password), GenSalt(nonce)), Customer);
      var pair := GenerateTokens(u.id, now);
      CreateAndIssue(s, name, email, password, now, nonce)
        == Step(Store(s.users[u.email := u], StoreRefreshToken(s.sessions, u.id, pair.refreshToken, now), s.nextId + 1),
                Response(201, Created(ProfileOf(u), USER_CREATED), SetCookies(pair)))
  {
  }

  // -------------------------------------------------------------------- login

  /** `login`: an unknown email and a wrong password get the same reply. */
  function Login(s: Store, email: string, password: string, now: nat): (r: Step)
    ensures r.store.users == s.users && r.store.nextId == s.nextId
    ensures email == "" || password == "" ==> r == Step(s, Reply(400, CREDENTIALS_REQUIRED))
    ensures r.response.status == 200 <==>
      && email != "" && password != "" && NormalizeEmail(email) in s.users
      && ComparePassword(password, s.users[NormalizeEmail(email)].password)
    ensures r.response.status != 200 ==> r.store == s
    ensures email != "" && password != "" && r.response.status != 200 ==>
      r.response == Reply(400, INVALID_CREDENTIALS)
    ensures r.response.status == 200 ==>
      var u := s.users[NormalizeEmail(email)];
      var pair := GenerateTokens(u.id, now);
      && r.store.sessions == StoreRefreshToken(s.sessions, u.id, pair.refreshToken, now)
      && r.response == Response(200, UserBody(ProfileOf(u)), SetCookies(pair))
  {
    if email == "" || password == "" then
      Step(s, Reply(400, CREDENTIALS_REQUIRED))
    else
      var user := FindByEmail(s.users, email);
      if user.Some? && ComparePassword(password, user.value.password) then
        var pair := GenerateTokens(user.value.id, now);
        var sessions := StoreRefreshToken(s.sessions, user.value.id, pair.refreshToken, now);
        Step(s.(sessions := sessions), Response(200, UserBody(ProfileOf(user.value)), SetCookies(pair)))
      else
        Step(s, Reply(400, INVALID_CREDENTIALS))
  }

  // ------------------------------------------------------------------- logout

  /**
   * `logout`: the session key of whichever user the token names is deleted, even
   * if that key now holds a newer token. A token that does not verify makes
   * `jwt.verify` throw: 500, and the cookies are not cleared.
   */
  function Logout(s: Store, cookie: Option<Token>, now: nat): (r: Step)
    ensures r.store.users == s.users && r.store.nextId == s.nextId
    ensures Missing(cookie) ==> r == Step(s, LOGGED_OUT_REPLY)
    ensures !Missing(cookie) && Verify(cookie.value, RefreshSecret, now).Ok? ==>
      && r.response == LOGGED_OUT_REPLY
      && r.store.sessions == Del(s.sessions, SessionKey(cookie.value.userId))
    ensures !Missing(cookie) && Verify(cookie.value, RefreshSecret, now).Err? ==>
      && r.store == s
      && r.response == Response(500, ServerError(SERVER_ERROR, Verify(cookie.value, RefreshSecret, now).error.Message()), [])
  {
    if Missing(cookie) then
      Step(s, LOGGED_OUT_REPLY)
    else
      match Verify(cookie.value, RefreshSecret, now)
      case Err(e) => Step(s, Response(500, ServerError(SERVER_ERROR, e.Message()), []))
      case Ok(u) => Step(s.(sessions := Del(s.sessions, SessionKey(u))), LOGGED_OUT_REPLY)
  }

  // ------------------------------------------------------------------ refresh

  /**
   * `refreshToken`: mints a new access token only; neither store changes. A token
   * that does not verify makes `jwt.verify` throw: 500, not 401.
   */
  function Refresh(s: Store, cookie: Option<Token>, now: nat): (r: Step)
    ensures r.store == s
    ensures Missing(cookie) ==> r.response == Reply(401, NO_REFRESH_TOKEN)
    ensures r.response.status == 200 <==>
      && !Missing(cookie) && Verify(cookie.value, RefreshSecret, now).Ok?
      && Get(s.sessions, SessionKey(cookie.value.userId), now) == Some(cookie.value)
    ensures r.response.status == 200 ==>
      r.response == Response(200, Message(TOKEN_REFRESHED),
        [SetCookie("accessToken", Sign(AccessSecret, cookie.value.userId, now), ACCESS_COOKIE_MAX_AGE)])
    ensures (!Missing(cookie) && Verify(cookie.value, RefreshSecret, now).Ok?
             && Get(s.sessions, SessionKey(cookie.value.userId), now) != Some(cookie.value)) ==>
      r.response == Reply(401, INVALID_REFRESH_TOKEN)
    ensures !Missing(cookie) && Verify(cookie.value, RefreshSecret, now).Err? ==>
      r.response == Response(500, ServerError(SERVER_ERROR, Verify(cookie.value, RefreshSecret, now).error.Message()), [])
  {
    if Missing(cookie) then
      Step(s, Reply(401, NO_REFRESH_TOKEN))
    else
      match Verify(cookie.value, RefreshSecret, now)
      case Err(e) => Step(s, Response(500, ServerError(SERVER_ERROR, e.Message()), []))
      case Ok(u) =>
        if Get(s.sessions, SessionKey(u), now) != Some(cookie.value) then
          Step(s, Reply(401, INVALID_REFRESH_TOKEN))
        else
          var accessToken := Sign(AccessSecret, u, now);
          Step(s, Response(200, Message(TOKEN_REFRESHED),
                           [SetCookie("accessToken", accessToken, ACCESS_COOKIE_MAX_AGE)]))
  }

  /** Whether `refreshToken` would accept `t` at time `now`. */
  predicate Accepts(s: Store, t: Token, now: nat)
  {
    Refresh(s, Some(t), now).response.status == 200
  }
}
