/**
 * The Redis keyspace the controller uses, as a map from key to the stored value
 * and the instant the key's TTL runs out. Redis drops a key once its TTL has
 * elapsed, so a read at or after that instant finds nothing.
 */
module SessionStore {
  import opened Wrappers
  import opened UserModel
  import opened Tokens
  import DecimalText

  const KEY_PREFIX := "refresh_token:"

  /** `"EX", 7 * 24 * 60 * 60`. */
  const SESSION_TTL: nat := 7 * 24 * 60 * 60

  datatype SessionRecord = SessionRecord(token: Token, expiresAt: nat)

  type Sessions = map<string, SessionRecord>

  /** The key `refresh_token:<userId>`. */
  function SessionKey(u: UserId): (k: string)
    ensures |k| > |KEY_PREFIX| && k[..|KEY_PREFIX|] == KEY_PREFIX
  {
    KEY_PREFIX + DecimalText.Text(u)
  }

  /** Different users never share a session key. */
  lemma SessionKeyInjective(u: UserId, v: UserId)
    requires SessionKey(u) == SessionKey(v)
    ensures u == v
  {
    assert DecimalText.Text(u) == SessionKey(u)[|KEY_PREFIX|..];
    assert DecimalText.Text(v) == SessionKey(v)[|KEY_PREFIX|..];
    DecimalText.TextInjective(u, v);
  }

  /** `redis.set(key, value, "EX", SESSION_TTL)` at time `now`: overwrites the key and restarts its TTL. */
  function Set(m: Sessions, key: string, value: Token, now: nat): (m': Sessions)
    ensures m'.Keys == m.Keys + {key}
    ensures m'[key] == SessionRecord(value, now + SESSION_TTL)
    ensures forall k :: k in m && k != key ==> m'[k] == m[k]
  {
    m[key := SessionRecord(value, now + SESSION_TTL)]
  }

  /** `redis.get(key)` at time `now`: the value, or nothing if the key is absent or its TTL has run out. */
  function Get(m: Sessions, key: string, now: nat): Option<Token>
  {
    if key in m && now < m[key].expiresAt then Some(m[key].token) else None
  }

  /** `redis.del(key)`: removing an absent key is not an error. */
  function Del(m: Sessions, key: string): (m': Sessions)
    ensures m'.Keys == m.Keys - {key}
    ensures forall k :: k in m' ==> m'[k] == m[k]
  {
    m - {key}
  }

  /** `storeRefreshToken(userId, refreshToken)`. */
  function StoreRefreshToken(m: Sessions, u: UserId, t: Token, now: nat): (m': Sessions)
    ensures Get(m', SessionKey(u), now) == Some(t)
    ensures m'[SessionKey(u)].expiresAt == now + SESSION_TTL
    ensures forall v, at :: v != u ==> Get(m', SessionKey(v), at) == Get(m, SessionKey(v), at)
    ensures m'.Keys == m.Keys + {SessionKey(u)}
  {
    var m' := Set(m, SessionKey(u), t, now);
    assert forall v :: v != u ==> SessionKey(v) != SessionKey(u) by {
      forall v | SessionKey(v) == SessionKey(u)
        ensures v == u
      {
        SessionKeyInjective(v, u);
      }
    }
    m'
  }

  /** The record written for a refresh token issued at `now` lives exactly as long as the token. */
  lemma SessionTtlMatchesRefreshLifetime(m: Sessions, u: UserId, now: nat)
    ensures var t := GenerateTokens(u, now).refreshToken;
      StoreRefreshToken(m, u, t, now)[SessionKey(u)].expiresAt == t.exp
  {
  }
}
