/**
 * What the handlers of backend/controllers/auth.controller.js guarantee across
 * calls: the invariant of the two stores, the single-session rule, revocation on
 * logout, and the replies that must not reveal which credential was wrong.
 */
module AuthProperties {
  import opened Wrappers
  import opened UserModel
  import opened Tokens
  import opened SessionStore
  import opened Auth

  // ---------------------------------------------------------------- invariant

  /** A saved user, stored under its own normalised email, with a digest of a long-enough password. */
  ghost predicate UserValid(e: string, u: UserRecord, nextId: nat)
  {
    && u.email == e && IsNormalizedEmail(e) && e != ""
    && u.name != "" && u.id < nextId
    && u.password.Hashed? && u.password.digest.input.Plain?
    && |u.password.digest.input.text| >= PASSWORD_MIN_LENGTH
  }

  ghost predicate Registered(users: map<string, UserRecord>, id: UserId)
  {
    exists e :: e in users && users[e].id == id
  }

  /**
   * A session record holds a refresh token of a registered user, under that user's
   * key, and lives exactly as long as the token.
   */
  ghost predicate SessionValid(key: string, r: SessionRecord, users: map<string, UserRecord>)
  {
    && r.token.Jwt? && r.token.signedWith == RefreshSecret
    && key == SessionKey(r.token.userId)
    && r.token.exp == r.token.iat + REFRESH_LIFETIME
    && r.expiresAt == r.token.exp
    && Registered(users, r.token.userId)
  }

  ghost predicate UsersValid(users: map<string, UserRecord>, nextId: nat)
  {
    && (forall e :: e in users ==> UserValid(e, users[e], nextId))
    && (forall e1, e2 :: e1 in users && e2 in users && users[e1].id == users[e2].id ==> e1 == e2)
  }

  ghost predicate SessionsValid(sessions: Sessions, users: map<string, UserRecord>)
  {
    forall k :: k in sessions ==> SessionValid(k, sessions[k], users)
  }

  /** Users are unique by email and by identifier; every session belongs to a user. */
  ghost predicate Valid(s: Store)
  {
    UsersValid(s.users, s.nextId) && SessionsValid(s.sessions, s.users)
  }

  lemma EmptyStoreValid()
    ensures Valid(Store(map[], map[], 0))
  {
  }

  /** A record written by `storeRefreshToken` for a registered user's fresh refresh token keeps the sessions valid. */
  lemma StoreFreshTokenValid(sessions: Sessions, users: map<string, UserRecord>, u: UserId, now: nat)
    requires SessionsValid(sessions, users)
    requires Registered(users, u)
    ensures SessionsValid(StoreRefreshToken(sessions, u, GenerateTokens(u, now).refreshToken, now), users)
  {
  }

  /** Sessions stay valid when users are only added. */
  lemma SessionsValidGrow(sessions: Sessions, users: map<string, UserRecord>, e: string, u: UserRecord)
    requires SessionsValid(sessions, users) && e !in users
    ensures SessionsValid(sessions, users[e := u])
  {
    var users' := users[e := u];
    forall k | k in sessions
      ensures SessionValid(k, sessions[k], users')
    {
      var id := sessions[k].token.userId;
      var e' :| e' in users && users[e'].id == id;
      assert e' in users' && users'[e'].id == id;
    }
  }

  lemma UsersValidInsert(users: map<string, UserRecord>, nextId: nat, u: UserRecord)
    requires UsersValid(users, nextId)
    requires u.email !in users && u.id == nextId && UserValid(u.email, u, nextId + 1)
    ensures UsersValid(users[u.email := u], nextId + 1)
  {
    var users' := users[u.email := u];
    forall e | e in users'
      ensures UserValid(e, users'[e], nextId + 1)
    {
      if e != u.email {
        assert UserValid(e, users[e], nextId);
      }
    }
    assert forall e :: e in users ==> users[e].id != u.id by {
      forall e | e in users
        ensures users[e].id != u.id
      {
        assert UserValid(e, users[e], nextId);
      }
    }
    forall e1, e2 | e1 in users' && e2 in users' && users'[e1].id == users'[e2].id
      ensures e1 == e2
    {
      if e1 != u.email && e2 != u.email {
        assert users[e1].id == users[e2].id;
      }
    }
  }

  /** Adding a valid user under a new email and the next id keeps the store valid. */
  lemma InsertUserValid(s: Store, u: UserRecord)
    requires Valid(s)
    requires u.email !in s.users && u.id == s.nextId && UserValid(u.email, u, s.nextId + 1)
    ensures Valid(Store(s.users[u.email := u], s.sessions, s.nextId + 1))
    ensures Registered(s.users[u.email := u], u.id)
  {
    var users := s.users[u.email := u];
    UsersValidInsert(s.users, s.nextId, u);
    SessionsValidGrow(s.sessions, s.users, u.email, u);
    assert u.email in users && users[u.email].id == u.id;
  }

  lemma SignUpPreservesValid(s: Store, name: string, email: string, password: string, now: nat, nonce: nat)
    requires Valid(s)
    ensures Valid(SignUp(s, name, email, password, now, nonce).store)
  {
    var r := SignUp(s, name, email, password, now, nonce);
    if r.response.status == 201 {
      var e := NormalizeEmail(email);
      var u := UserRecord(s.nextId, name, e, Hash(Plain(password), GenSalt(nonce)), Customer);
      SignUpCreates(s, name, email, password, now, nonce);
      assert r == CreateAndIssue(s, name, email, password, now, nonce);
      NormalizedShape(email);
      assert UserValid(e, u, s.nextId + 1);
      InsertUserValid(s, u);
      StoreFreshTokenValid(s.sessions, s.users[e := u], u.id, now);
    }
  }

  lemma LoginPreservesValid(s: Store, email: string, password: string, now: nat)
    requires Valid(s)
    ensures Valid(Login(s, email, password, now).store)
  {
    var r := Login(s, email, password, now);
    if r.response.status == 200 {
      var e := NormalizeEmail(email);
      assert Registered(s.users, s.users[e].id);
      StoreFreshTokenValid(s.sessions, s.users, s.users[e].id, now);
    }
  }

  lemma LogoutPreservesValid(s: Store, cookie: Option<Token>, now: nat)
    requires Valid(s)
    ensures Valid(Logout(s, cookie, now).store)
  {
  }

  // ----------------------------------------------------------------- sessions

  /** At most one refresh token per user is accepted at any instant: the one the store holds. */
  lemma OneAcceptedTokenPerUser(s: Store, t1: Token, t2: Token, now: nat)
    requires Accepts(s, t1, now) && Accepts(s, t2, now)
    requires t1.Jwt? && t2.Jwt? && t1.userId == t2.userId
    ensures t1 == t2
  {
  }

  /** An accepted refresh token was issued for the user it names by the refresh secret and has not expired. */
  lemma AcceptedTokenIsStoredRefreshToken(s: Store, t: Token, now: nat)
    requires Valid(s)
    requires Accepts(s, t, now)
    ensures t.Jwt? && t.signedWith == RefreshSecret && now < t.exp
    ensures SessionKey(t.userId) in s.sessions && s.sessions[SessionKey(t.userId)].token == t
    ensures Registered(s.users, t.userId)
  {
  }

  /**
   * When a user's session holds the token issued at `t2`, the token issued at an
   * earlier second `t1` is refused and the one issued at `t2` is accepted.
   */
  lemma NewerSessionWins(s: Store, u: UserId, t1: nat, t2: nat, now: nat)
    requires Get(s.sessions, SessionKey(u), now) == Some(GenerateTokens(u, t2).refreshToken)
    requires t1 < t2 <= now < t1 + REFRESH_LIFETIME
    ensures Refresh(s, Some(GenerateTokens(u, t1).refreshToken), now).response == Reply(401, INVALID_REFRESH_TOKEN)
    ensures Accepts(s, GenerateTokens(u, t2).refreshToken, now)
  {
    assert GenerateTokens(u, t1).refreshToken != GenerateTokens(u, t2).refreshToken;
  }

  /**
   * A second login for the same user, at a later second, overwrites the session:
   * the first login's refresh token is refused while the second's is accepted.
   */
  lemma LaterLoginSupersedesEarlier(s: Store, email: string, password: string, t1: nat, t2: nat, now: nat)
    requires Login(s, email, password, t1).response.status == 200
    requires t1 < t2 <= now < t1 + REFRESH_LIFETIME
    ensures var u := s.users[NormalizeEmail(email)].id;
      var second := Login(Login(s, email, password, t1).store, email, password, t2);
      && second.response.status == 200
      && Refresh(second.store, Some(GenerateTokens(u, t1).refreshToken), now).response == Reply(401, INVALID_REFRESH_TOKEN)
      && Accepts(second.store, GenerateTokens(u, t2).refreshToken, now)
  {
    var u := s.users[NormalizeEmail(email)].id;
    var second := Login(Login(s, email, password, t1).store, email, password, t2);
    assert Get(second.store.sessions, SessionKey(u), now) == Some(GenerateTokens(u, t2).refreshToken);
    NewerSessionWins(second.store, u, t1, t2, now);
  }

  /**
   * A login after sign-up, at a later second, replaces the session sign-up opened:
   * the sign-up's refresh token is refused while the login's is accepted.
   */
  lemma LoginSupersedesSignUpToken(s: Store, name: string, email: string, password: string, t1: nat, nonce: nat,
                                   t2: nat, now: nat)
    requires SignUp(s, name, email, password, t1, nonce).response.status == 201
    requires t1 < t2 <= now < t1 + REFRESH_LIFETIME
    ensures var second := Login(SignUp(s, name, email, password, t1, nonce).store, email, password, t2);
      && second.response.status == 200
      && Refresh(second.store, Some(GenerateTokens(s.nextId, t1).refreshToken), now).response
           == Reply(401, INVALID_REFRESH_TOKEN)
      && Accepts(second.store, GenerateTokens(s.nextId, t2).refreshToken, now)
  {
    SignUpThenLogin(s, name, email, password, t1, nonce, email, t2);
    var s1 := SignUp(s, name, email, password, t1, nonce).store;
    var second := Login(s1, email, password, t2);
    assert s1.users[NormalizeEmail(email)].id == s.nextId;
    assert Get(second.store.sessions, SessionKey(s.nextId), now) == Some(GenerateTokens(s.nextId, t2).refreshToken);
    NewerSessionWins(second.store, s.nextId, t1, t2, now);
  }

  /**
   * Two logins in the same second sign identical payloads, so they produce the
   * same refresh token and the first one stays accepted.
   */
  lemma SameSecondLoginsShareToken(s: Store, email: string, password: string, t: nat, now: nat)
    requires Login(s, email, password, t).response.status == 200
    requires t <= now < t + REFRESH_LIFETIME
    ensures var u := s.users[NormalizeEmail(email)].id;
      var second := Login(Login(s, email, password, t).store, email, password, t);
      Accepts(second.store, GenerateTokens(u, t).refreshToken, now)
  {
    var u := s.users[NormalizeEmail(email)].id;
    var second := Login(Login(s, email, password, t).store, email, password, t);
    assert Get(second.store.sessions, SessionKey(u), now) == Some(GenerateTokens(u, t).refreshToken);
  }

  /** A login never changes whether another user's refresh token is accepted. */
  lemma LoginLeavesOtherUsersSessions(s: Store, email: string, password: string, now: nat, t: Token, later: nat)
    requires Login(s, email, password, now).response.status == 200
    requires t.Jwt? && t.userId != s.users[NormalizeEmail(email)].id
    ensures Accepts(Login(s, email, password, now).store, t, later) == Accepts(s, t, later)
  {
    var sessions := Login(s, email, password, now).store.sessions;
    assert Get(sessions, SessionKey(t.userId), later) == Get(s.sessions, SessionKey(t.userId), later);
  }

  /** After `logout` with a refresh token, `refreshToken` with that token never succeeds. */
  lemma LogoutRevokesRefreshToken(s: Store, t: Token, now: nat, later: nat)
    requires Verify(t, RefreshSecret, now).Ok?
    ensures Logout(s, Some(t), now).response == LOGGED_OUT_REPLY
    ensures !Accepts(Logout(s, Some(t), now).store, t, later)
    ensures Verify(t, RefreshSecret, later).Ok? ==>
      Refresh(Logout(s, Some(t), now).store, Some(t), later).response == Reply(401, INVALID_REFRESH_TOKEN)
  {
    var sessions := Logout(s, Some(t), now).store.sessions;
    assert SessionKey(t.userId) !in sessions;
  }

  /**
   * `logout` deletes the key of the user the token names, so an older refresh
   * token that still verifies ends that user's newer session too.
   */
  lemma LogoutWithOlderTokenEndsCurrentSession(s: Store, older: Token, current: Token, now: nat, later: nat)
    requires Verify(older, RefreshSecret, now).Ok?
    requires current.Jwt? && current.userId == older.userId
    ensures !Accepts(Logout(s, Some(older), now).store, current, later)
  {
    var sessions := Logout(s, Some(older), now).store.sessions;
    assert SessionKey(current.userId) !in sessions;
  }

  /**
   * An access token, or a token whose signature matches neither secret, is never
   * accepted by `refreshToken` nor by `logout`: `jwt.verify` throws, giving 500.
   */
  lemma AccessTokenRejected(s: Store, t: Token, now: nat)
    requires (t.Jwt? && t.signedWith == AccessSecret) || t.Forged?
    ensures Refresh(s, Some(t), now).response == Response(500, ServerError(SERVER_ERROR, "invalid signature"), [])
    ensures Logout(s, Some(t), now) == Step(s, Response(500, ServerError(SERVER_ERROR, "invalid signature"), []))
  {
  }

  // -------------------------------------------------------------- credentials

  /** An unknown email and a wrong password get the identical reply, and neither writes a session. */
  lemma LoginFailuresIndistinguishable(s: Store, unknown: string, p1: string, known: string, wrong: string, t1: nat, t2: nat)
    requires unknown != "" && p1 != "" && NormalizeEmail(unknown) !in s.users
    requires known != "" && wrong != "" && NormalizeEmail(known) in s.users
    requires !ComparePassword(wrong, s.users[NormalizeEmail(known)].password)
    ensures Login(s, unknown, p1, t1) == Login(s, known, wrong, t2) == Step(s, Reply(400, INVALID_CREDENTIALS))
  {
  }

  /**
   * Sign-up with a name, an address that is new and non-empty once normalised, and
   * a long-enough password succeeds and answers with the new profile.
   */
  lemma SignUpSucceeds(s: Store, name: string, email: string, password: string, now: nat, nonce: nat)
    requires name != "" && email != "" && NormalizeEmail(email) != "" && NormalizeEmail(email) !in s.users
    requires |password| >= PASSWORD_MIN_LENGTH
    ensures var r := SignUp(s, name, email, password, now, nonce);
      && r.response.status == 201
      && r.response.body == Created(Profile(s.nextId, name, NormalizeEmail(email), Customer), USER_CREATED)
      && NormalizeEmail(email) in r.store.users
  {
  }

  /**
   * Sign-up with a name, a new non-blank address and a password of one to five
   * characters replies 500 with the schema's minimum-length message and stores nothing.
   */
  lemma ShortPasswordRejected(s: Store, name: string, email: string, password: string, now: nat, nonce: nat)
    requires name != "" && email != "" && NormalizeEmail(email) != "" && NormalizeEmail(email) !in s.users
    requires 0 < |password| < PASSWORD_MIN_LENGTH
    ensures SignUp(s, name, email, password, now, nonce) == Step(s, Reply(500, PASSWORD_TOO_SHORT))
  {
  }

  /** The refresh token sign-up issues is accepted by `refreshToken` until it expires. */
  lemma SignUpTokenAccepted(s: Store, name: string, email: string, password: string, now: nat, nonce: nat, later: nat)
    requires SignUp(s, name, email, password, now, nonce).response.status == 201
    requires now <= later < now + REFRESH_LIFETIME
    ensures Accepts(SignUp(s, name, email, password, now, nonce).store, GenerateTokens(s.nextId, now).refreshToken, later)
  {
    var r := SignUp(s, name, email, password, now, nonce);
    assert Get(r.store.sessions, SessionKey(s.nextId), later) == Some(GenerateTokens(s.nextId, now).refreshToken);
  }

  /** After sign-up, a login with any spelling of the address but another password is refused. */
  lemma WrongPasswordRefused(s: Store, name: string, email: string, password: string, now: nat, nonce: nat,
                             email2: string, wrong: string, later: nat)
    requires SignUp(s, name, email, password, now, nonce).response.status == 201
    requires email2 != "" && wrong != "" && wrong != password && NormalizeEmail(email2) == NormalizeEmail(email)
    ensures var s1 := SignUp(s, name, email, password, now, nonce).store;
      Login(s1, email2, wrong, later) == Step(s1, Reply(400, INVALID_CREDENTIALS))
  {
  }

  /**
   * A successful sign-up is followed by a successful login with the same password
   * and any spelling of the email that normalises to the same address; the login
   * issues tokens for the identity sign-up created.
   */
  lemma SignUpThenLogin(s: Store, name: string, email: string, password: string, now: nat, nonce: nat,
                        email2: string, later: nat)
    requires SignUp(s, name, email, password, now, nonce).response.status == 201
    requires email2 != "" && NormalizeEmail(email2) == NormalizeEmail(email)
    ensures var r := Login(SignUp(s, name, email, password, now, nonce).store, email2, password, later);
      && r.response.status == 200
      && r.response.body == UserBody(Profile(s.nextId, name, NormalizeEmail(email), Customer))
      && Get(r.store.sessions, SessionKey(s.nextId), later) == Some(GenerateTokens(s.nextId, later).refreshToken)
  {
  }

  /** Signing up twice with the same address, in any spelling, is refused the second time. */
  lemma SecondSignUpRefused(s: Store, name: string, email: string, password: string, now: nat, nonce: nat,
                            name2: string, email2: string, password2: string, later: nat, nonce2: nat)
    requires SignUp(s, name, email, password, now, nonce).response.status == 201
    requires name2 != "" && email2 != "" && password2 != "" && NormalizeEmail(email2) == NormalizeEmail(email)
    ensures var s1 := SignUp(s, name, email, password, now, nonce).store;
      SignUp(s1, name2, email2, password2, later, nonce2) == Step(s1, Reply(400, USER_EXISTS))
  {
  }

  // ---------------------------------------------------------------- scenario

  lemma ScenarioLowerPlain()
    ensures Lower("a@x.com") == "a@x.com"
  {
    var plain := "a@x.com";
    forall i | 0 <= i < |plain|
      ensures Lower(plain)[i] == plain[i]
    {
    }
  }

  lemma ScenarioLowerShouted()
    ensures Lower("A@X.COM ") == "a@x.com "
  {
    var shouted, plain := "A@X.COM ", "a@x.com ";
    forall i | 0 <= i < |shouted|
      ensures Lower(shouted)[i] == plain[i]
    {
    }
  }

  lemma ScenarioTrimPlain()
    ensures Trim("a@x.com") == "a@x.com"
  {
    var plain := "a@x.com";
    assert !IsTrimmable(plain[0]) && !IsTrimmable(plain[|plain| - 1]);
    assert TrimStart(plain) == plain && TrimEnd(plain) == plain;
  }

  lemma ScenarioTrimSpaced()
    ensures Trim("a@x.com ") == "a@x.com"
  {
    var plain := "a@x.com";
    assert !IsTrimmable(plain[0]) && !IsTrimmable(plain[|plain| - 1]);
    assert TrimStart(plain + " ") == plain + " ";
    assert (plain + " ")[..|plain|] == plain;
    assert TrimEnd(plain + " ") == plain;
  }

  /** "a@x.com" is already normalised. */
  lemma ScenarioPlainEmail()
    ensures NormalizeEmail("a@x.com") == "a@x.com"
  {
    ScenarioLowerPlain();
    ScenarioTrimPlain();
  }

  /** "A@X.COM " normalises to "a@x.com". */
  lemma ScenarioShoutedEmail()
    ensures NormalizeEmail("A@X.COM ") == "a@x.com"
  {
    ScenarioLowerShouted();
    ScenarioTrimSpaced();
  }

  /** A blank address: not empty, so it passes the handler's `!email` check, but empty once trimmed. */
  lemma ScenarioBlankEmail()
    ensures " " != "" && NormalizeEmail(" ") == ""
  {
    assert Lower(" ") == " ";
    assert TrimStart(" ") == "";
  }

  // ----------------------------------------------------------------- finding

  /**
   * An email that is not empty but normalises to the empty string (white space
   * only, as in `ScenarioBlankEmail`) passes the handler's `!email` check, so only
   * the email path fails validation: the catch block as written throws instead of
   * replying, and the corrected one replies 500 with "Email is required".
   */
  lemma BlankEmailSignUpThrowsAsWritten(s: Store, name: string, email: string, password: string, now: nat, nonce: nat)
    requires name != "" && email != "" && NormalizeEmail(email) == "" && "" !in s.users
    requires |password| >= PASSWORD_MIN_LENGTH
    ensures var errors := CreateErrors(name, email, password);
      && errors == map[EmailPath := EMAIL_REQUIRED]
      && SignUpCatchAsWritten(errors).Threw?
      && SignUpCatch(errors) == Reply(500, EMAIL_REQUIRED)
    ensures SignUp(s, name, email, password, now, nonce) == Step(s, Reply(500, EMAIL_REQUIRED))
  {
    var errors := CreateErrors(name, email, password);
    assert errors.Keys == {EmailPath};
  }
}
