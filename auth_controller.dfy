/**
 * The controller of backend/controllers/auth.controller.js as an object over the
 * two stores it shares: the users collection (keyed by normalised email) and the
 * Redis keyspace. Each handler updates them in place, step by step as the source
 * does, and is proved to agree with the corresponding function of module Auth and
 * to keep the store invariant.
 */
module AuthController {
  import opened Wrappers
  import opened UserModel
  import opened Tokens
  import opened SessionStore
  import opened Auth
  import AuthProperties

  class Controller {
    var users: map<string, UserRecord>
    var sessions: Sessions
    var nextId: nat

    function State(): Store
      reads this
    {
      Store(users, sessions, nextId)
    }

    ghost predicate Valid()
      reads this
    {
      AuthProperties.Valid(State())
    }

    constructor ()
      ensures State() == Store(map[], map[], 0) && Valid()
    {
      users, sessions, nextId := map[], map[], 0;
      AuthProperties.EmptyStoreValid();
    }

    /** `storeRefreshToken`: overwrite the user's session key with the token and restart its TTL. */
    method StoreRefreshToken(u: UserId, t: Token, now: nat)
      modifies this`sessions
      ensures sessions == SessionStore.StoreRefreshToken(old(sessions), u, t, now)
    {
      sessions := Set(sessions, SessionKey(u), t, now);
    }

    /**
     * The step `signUp` and `login` share: `generateTokens` for a registered user,
     * then `storeRefreshToken` with the refresh token. The invariant is kept.
     */
    method IssueTokens(u: UserId, now: nat) returns (pair: TokenPair)
      requires Valid() && AuthProperties.Registered(users, u)
      modifies this`sessions
      ensures Valid()
      ensures pair == GenerateTokens(u, now)
      ensures sessions == SessionStore.StoreRefreshToken(old(sessions), u, pair.refreshToken, now)
    {
      AuthProperties.StoreFreshTokenValid(sessions, users, u, now);
      pair := GenerateTokens(u, now);
      StoreRefreshToken(u, pair.refreshToken, now);
    }

    method SignUp(name: string, email: string, password: string, now: nat, nonce: nat) returns (response: Response)
      requires Valid()
      modifies this
      ensures Valid()
      ensures Step(State(), response) == Auth.SignUp(old(State()), name, email, password, now, nonce)
    {
      ghost var before := State();
      if name == "" || email == "" || password == "" {
        response := Reply(400, FIELDS_REQUIRED);
        assert Auth.SignUp(before, name, email, password, now, nonce) == Step(before, response);
        return;
      }
      var existing := FindByEmail(users, email);
      if existing.Some? {
        response := Reply(400, USER_EXISTS);
        assert Auth.SignUp(before, name, email, password, now, nonce) == Step(before, response);
        return;
      }
      assert Auth.SignUp(before, name, email, password, now, nonce)
          == Auth.CreateAndIssue(before, name, email, password, now, nonce);
      response := CreateAndIssue(name, email, password, now, nonce);
    }

    /** `User.create` for an address not yet registered, then the tokens and the reply when it succeeds. */
    method CreateAndIssue(name: string, email: string, password: string, now: nat, nonce: nat) returns (response: Response)
      requires Valid() && name != "" && NormalizeEmail(email) !in users
      modifies this
      ensures Valid()
      ensures Step(State(), response) == Auth.CreateAndIssue(old(State()), name, email, password, now, nonce)
    {
      ghost var before := State();
      var errors, user := CreateUser(nextId, name, email, password, nonce);
      if errors != map[] {
        response := SignUpCatch(errors);
        assert Auth.CreateAndIssue(before, name, email, password, now, nonce) == Step(before, response);
        return;
      }
      NormalizedShape(email);
      Auth.SignUpCreates(before, name, email, password, now, nonce);
      response := Register(user, now);
    }

    /** The success path of `signUp`: store the new user, then issue and store their tokens. */
    method Register(user: UserRecord, now: nat) returns (response: Response)
      requires Valid()
      requires user.email !in users && user.id == nextId && AuthProperties.UserValid(user.email, user, nextId + 1)
      modifies this
      ensures Valid()
      ensures var pair := GenerateTokens(user.id, now);
        && State() == Store(old(users)[user.email := user],
                            SessionStore.StoreRefreshToken(old(sessions), user.id, pair.refreshToken, now),
                            old(nextId) + 1)
        && response == Response(201, Created(ProfileOf(user), USER_CREATED), SetCookies(pair))
    {
      AuthProperties.InsertUserValid(State(), user);
      users := users[user.email := user];
      nextId := nextId + 1;
      var pair := IssueTokens(user.id, now);
      response := Response(201, Created(ProfileOf(user), USER_CREATED), SetCookies(pair));
    }

    method Login(email: string, password: string, now: nat) returns (response: Response)
      requires Valid()
      modifies this`sessions
      ensures Valid()
      ensures Step(State(), response) == Auth.Login(old(State()), email, password, now)
    {
      ghost var before := State();
      if email == "" || password == "" {
        response := Reply(400, CREDENTIALS_REQUIRED);
        assert Auth.Login(before, email, password, now) == Step(before, response);
        return;
      }
      var user := FindByEmail(users, email);
      if user.None? || !ComparePassword(password, user.value.password) {
        response := Reply(400, INVALID_CREDENTIALS);
        assert Auth.Login(before, email, password, now) == Step(before, response);
        return;
      }
      assert AuthProperties.Registered(users, user.value.id) by {
        assert users[NormalizeEmail(email)] == user.value;
      }
      var pair := IssueTokens(user.value.id, now);
      response := Response(200, UserBody(ProfileOf(user.value)), SetCookies(pair));
      assert Auth.Login(before, email, password, now) == Step(State(), response);
    }

    method Logout(cookie: Option<Token>, now: nat) returns (response: Response)
      requires Valid()
      modifies this`sessions
      ensures Valid()
      ensures Step(State(), response) == Auth.Logout(old(State()), cookie, now)
    {
      ghost var before := State();
      AuthProperties.LogoutPreservesValid(before, cookie, now);
      if !Missing(cookie) {
        var decoded := Verify(cookie.value, RefreshSecret, now);
        if decoded.Err? {
          response := Response(500, ServerError(SERVER_ERROR, decoded.error.Message()), []);
          assert Auth.Logout(before, cookie, now) == Step(before, response);
          return;
        }
        sessions := Del(sessions, SessionKey(decoded.value));
      }
      response := LOGGED_OUT_REPLY;
      assert Auth.Logout(before, cookie, now) == Step(State(), response);
    }

    /** `refreshToken` reads the session store and changes neither store. */
    method RefreshToken(cookie: Option<Token>, now: nat) returns (response: Response)
      ensures response == Auth.Refresh(State(), cookie, now).response
    {
      if Missing(cookie) {
        return Reply(401, NO_REFRESH_TOKEN);
      }
      var decoded := Verify(cookie.value, RefreshSecret, now);
      if decoded.Err? {
        return Response(500, ServerError(SERVER_ERROR, decoded.error.Message()), []);
      }
      var storedToken := Get(sessions, SessionKey(decoded.value), now);
      if storedToken != Some(cookie.value) {
        return Reply(401, INVALID_REFRESH_TOKEN);
      }
      var accessToken := Sign(AccessSecret, decoded.value, now);
      response := Response(200, Message(TOKEN_REFRESHED), [SetCookie("accessToken", accessToken, ACCESS_COOKIE_MAX_AGE)]);
    }
  }

  /**
   * `User.create`: build a document, let it validate and hash on save, and hand
   * back the record that was stored under the given id, or the validation errors.
   */
  method CreateUser(id: UserId, name: string, email: string, password: string, nonce: nat)
    returns (errors: map<SchemaPath, string>, user: UserRecord)
    requires name != ""
    ensures errors == CreateErrors(name, email, password)
    ensures errors == map[] ==>
      user == UserRecord(id, name, NormalizeEmail(email), Hash(Plain(password), GenSalt(nonce)), Customer)
  {
    var doc := new UserDocument(name, email, password, None);
    errors := doc.Save(GenSalt(nonce));
    user := UserRecord(id, doc.name, doc.email, doc.password, Customer);
  }

  /**
   * A client of the controller: sign up at `t1`, log in again at a later second
   * `t2`, and present both refresh tokens at `t3`: only the one issued by the
   * login is honoured.
   */
  method LoginSupersedesSignUpSession(name: string, email: string, password: string, nonce: nat, t1: nat, t2: nat, t3: nat)
    requires name != "" && email != "" && NormalizeEmail(email) != "" && |password| >= PASSWORD_MIN_LENGTH
    requires t1 < t2 <= t3 < t1 + REFRESH_LIFETIME
  {
    var c := new Controller();
    ghost var s0 := c.State();
    var r := c.SignUp(name, email, password, t1, nonce);
    AuthProperties.SignUpSucceeds(s0, name, email, password, t1, nonce);
    assert r.status == 201;
    r := c.Login(email, password, t2);
    AuthProperties.LoginSupersedesSignUpToken(s0, name, email, password, t1, nonce, t2, t3);
    assert r.status == 200;
    r := c.RefreshToken(Some(GenerateTokens(0, t1).refreshToken), t3);
    assert r == Reply(401, INVALID_REFRESH_TOKEN);
    r := c.RefreshToken(Some(GenerateTokens(0, t2).refreshToken), t3);
    assert r.status == 200;
  }

  /**
   * A client of the controller: sign up at `t1`, refresh with the issued refresh
   * token at `t2`, log out at `t3`, and present the same token again at `t4`.
   */
  method LogoutEndsSession(name: string, email: string, password: string, nonce: nat, t1: nat, t2: nat, t3: nat, t4: nat)
    requires name != "" && email != "" && NormalizeEmail(email) != "" && |password| >= PASSWORD_MIN_LENGTH
    requires t1 <= t2 <= t3 <= t4 < t1 + REFRESH_LIFETIME
  {
    var c := new Controller();
    ghost var s0 := c.State();
    var r := c.SignUp(name, email, password, t1, nonce);
    AuthProperties.SignUpSucceeds(s0, name, email, password, t1, nonce);
    assert r.status == 201;
    var token := GenerateTokens(0, t1).refreshToken;
    AuthProperties.SignUpTokenAccepted(s0, name, email, password, t1, nonce, t2);
    r := c.RefreshToken(Some(token), t2);
    assert r.status == 200;
    r := c.Logout(Some(token), t3);
    AuthProperties.LogoutRevokesRefreshToken(c.State(), token, t3, t4);
    assert r == LOGGED_OUT_REPLY;
    r := c.RefreshToken(Some(token), t4);
    assert r == Reply(401, INVALID_REFRESH_TOKEN);
  }
}
