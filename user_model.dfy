/**
 * The user record of backend/models/user.model.js: its schema rules (required
 * fields, email normalisation, minimum password length, the role enum and its
 * default), the bcrypt pre-save hook and `comparePassword`.
 *
 * bcrypt is abstract here: a digest is the datatype value `Bcrypt(salt, input)`,
 * so hashing is injective in its input for a fixed salt, and two digests made
 * with different salts differ. The randomness of `genSalt` is a parameter.
 */
module UserModel {
  import opened Wrappers

  /** The Mongo `_id` of a user. */
  type UserId = nat

  datatype Role = Customer | Admin

  function RoleName(r: Role): string
  {
    match r
    case Customer => "customer"
    case Admin => "admin"
  }

  /** The role path: an enum of "customer" and "admin" whose default is "customer". */
  const DEFAULT_ROLE := "customer"

  function ParseRole(given: string): (r: Result<Role, string>)
    ensures r.Ok? <==> given in {"customer", "admin"}
    ensures r.Ok? ==> RoleName(r.value) == given
    ensures r.Err? ==> r.error == "`" + given + "` is not a valid enum value for path `role`."
  {
    if given == "customer" then Ok(Customer)
    else if given == "admin" then Ok(Admin)
    else Err("`" + given + "` is not a valid enum value for path `role`.")
  }

  // ---------------------------------------------------------------- passwords

  /** `bcrypt.genSalt(10)`: the cost factor and the random part. */
  datatype Salt = Salt(rounds: nat, nonce: nat)

  const SALT_ROUNDS: nat := 10

  /** Length of every bcrypt digest string. */
  const DIGEST_LENGTH: nat := 60

  function GenSalt(nonce: nat): Salt
  {
    Salt(SALT_ROUNDS, nonce)
  }

  /** What the `password` path holds: a plaintext before the hook has run, a digest after. */
  datatype Password = Plain(text: string) | Hashed(digest: Digest)

  /** A bcrypt digest: the salt it embeds and what was hashed. */
  datatype Digest = Bcrypt(salt: Salt, input: Password)

  function Hash(p: Password, salt: Salt): Password
  {
    Hashed(Bcrypt(salt, p))
  }

  /**
   * `bcrypt.compare(candidate, stored)`: re-hash the candidate with the salt embedded
   * in the stored digest and compare. A value that is not a digest never matches.
   */
  function ComparePassword(candidate: string, stored: Password): (ok: bool)
    ensures ok <==> stored.Hashed? && stored.digest.input == Plain(candidate)
  {
    stored.Hashed? && Hash(Plain(candidate), stored.digest.salt) == stored
  }

  /** The length Mongoose's minlength validator sees for the password path. */
  function PasswordLength(p: Password): nat
  {
    match p
    case Plain(text) => |text|
    case Hashed(_) => DIGEST_LENGTH
  }

  /** A password hashed from plaintext `p` verifies `p` and nothing else, whatever the salt. */
  lemma ComparePasswordOfHash(p: string, q: string, salt: Salt)
    ensures ComparePassword(q, Hash(Plain(p), salt)) <==> q == p
  {
  }

  /**
   * Two salts drawn with different randomness give the same plaintext two different
   * digests, yet both verify it.
   */
  lemma SaltsDistinguishDigests(p: string, n1: nat, n2: nat)
    requires n1 != n2
    ensures Hash(Plain(p), GenSalt(n1)) != Hash(Plain(p), GenSalt(n2))
    ensures ComparePassword(p, Hash(Plain(p), GenSalt(n1))) && ComparePassword(p, Hash(Plain(p), GenSalt(n2)))
  {
  }

  /** Hashing a digest a second time would lock the user out: this is why the hook checks `isModified`. */
  lemma RehashBreaksCompare(p: string, s1: Salt, s2: Salt)
    ensures !ComparePassword(p, Hash(Hash(Plain(p), s1), s2))
  {
  }

  // ------------------------------------------------------ email normalisation

  /** The characters JavaScript's `String.prototype.trim` removes (WhiteSpace and LineTerminator). */
  predicate IsTrimmable(c: char)
  {
    var n := c as int;
    || 0x09 <= n <= 0x0D || n == 0x20 || n == 0xA0 || n == 0x1680 || 0x2000 <= n <= 0x200A
    || n == 0x2028 || n == 0x2029 || n == 0x202F || n == 0x205F || n == 0x3000 || n == 0xFEFF
  }

  function TrimStart(s: string): (r: string)
    ensures |r| <= |s| && r == s[|s| - |r|..]
    ensures forall i :: 0 <= i < |s| - |r| ==> IsTrimmable(s[i])
    ensures r != [] ==> !IsTrimmable(r[0])
  {
    if s != [] && IsTrimmable(s[0]) then TrimStart(s[1..]) else s
  }

  function TrimEnd(s: string): (r: string)
    ensures |r| <= |s| && r == s[..|r|]
    ensures forall i :: |r| <= i < |s| ==> IsTrimmable(s[i])
    ensures r != [] ==> !IsTrimmable(r[|r| - 1])
  {
    if s != [] && IsTrimmable(s[|s| - 1]) then TrimEnd(s[..|s| - 1]) else s
  }

  /** The `trim: true` setter. */
  function Trim(s: string): string
  {
    TrimEnd(TrimStart(s))
  }

  function LowerChar(c: char): char
  {
    if 'A' <= c <= 'Z' then (c as int + 32) as char else c
  }

  /** The `lowercase: true` setter, on ASCII letters. */
  function Lower(s: string): string
  {
    seq(|s|, i requires 0 <= i < |s| => LowerChar(s[i]))
  }

  /** The value the `email` path stores, and the value a query on that path looks for. */
  function NormalizeEmail(s: string): string
  {
    Trim(Lower(s))
  }

  lemma LowerKeepsTrimmable(c: char)
    ensures IsTrimmable(LowerChar(c)) <==> IsTrimmable(c)
  {
  }

  lemma {:induction false} TrimStartOfLower(s: string)
    ensures TrimStart(Lower(s)) == Lower(TrimStart(s))
  {
    if s != [] {
      LowerKeepsTrimmable(s[0]);
      if IsTrimmable(s[0]) {
        assert Lower(s)[1..] == Lower(s[1..]);
        TrimStartOfLower(s[1..]);
      }
    }
  }

  lemma {:induction false} TrimEndOfLower(s: string)
    ensures TrimEnd(Lower(s)) == Lower(TrimEnd(s))
  {
    if s != [] {
      LowerKeepsTrimmable(s[|s| - 1]);
      if IsTrimmable(s[|s| - 1]) {
        assert Lower(s)[..|s| - 1] == Lower(s[..|s| - 1]);
        TrimEndOfLower(s[..|s| - 1]);
      }
    }
  }

  /** The two setters commute, so the order Mongoose applies them in does not matter. */
  lemma SettersCommute(s: string)
    ensures Lower(Trim(s)) == Trim(Lower(s))
  {
    TrimStartOfLower(s);
    TrimEndOfLower(TrimStart(s));
  }

  lemma {:induction false} TrimIdempotent(s: string)
    ensures Trim(Trim(s)) == Trim(s)
  {
    var t := Trim(s);
    assert t == [] || !IsTrimmable(t[0]) by {
      if t != [] {
        var u := TrimStart(s);
        assert t == u[..|t|];
      }
    }
    assert TrimStart(t) == t;
  }

  lemma TrimmedEnds(s: string)
    ensures var t := Trim(s); t != [] ==> !IsTrimmable(t[0]) && !IsTrimmable(t[|t| - 1])
  {
    var u := TrimStart(s);
    var t := TrimEnd(u);
    if t != [] {
      assert t[0] == u[0];
    }
  }

  /** No upper-case ASCII letter and no white space at either end: what the email setters leave. */
  predicate IsNormalizedEmail(e: string)
  {
    && NoCapitals(e)
    && (e != [] ==> !IsTrimmable(e[0]) && !IsTrimmable(e[|e| - 1]))
  }

  predicate NoCapitals(s: string)
  {
    forall i :: 0 <= i < |s| ==> !('A' <= s[i] <= 'Z')
  }

  lemma LowerHasNoCapitals(s: string)
    ensures NoCapitals(Lower(s))
  {
  }

  /** Trimming keeps a slice of its input, so it adds no capital. */
  lemma TrimKeepsNoCapitals(s: string)
    requires NoCapitals(s)
    ensures NoCapitals(Trim(s))
  {
    var u := TrimStart(s);
    var t := TrimEnd(u);
    forall i | 0 <= i < |t|
      ensures !('A' <= t[i] <= 'Z')
    {
      assert t[i] == u[i] == s[|s| - |u| + i];
    }
  }

  /** The stored email has no upper-case ASCII letter and no surrounding white space. */
  lemma NormalizedShape(s: string)
    ensures IsNormalizedEmail(NormalizeEmail(s))
  {
    LowerHasNoCapitals(s);
    TrimKeepsNoCapitals(Lower(s));
    TrimmedEnds(Lower(s));
  }

  /** Exactly the normalised addresses are left unchanged by normalisation. */
  lemma NormalizedIsFixedPoint(e: string)
    ensures IsNormalizedEmail(e) <==> NormalizeEmail(e) == e
  {
    if IsNormalizedEmail(e) {
      assert Lower(e) == e;
      assert TrimStart(e) == e;
    } else {
      NormalizedShape(e);
    }
  }

  /** A stored email is a fixed point: normalising it again changes nothing. */
  lemma NormalizeIdempotent(s: string)
    ensures NormalizeEmail(NormalizeEmail(s)) == NormalizeEmail(s)
  {
    NormalizedShape(s);
    NormalizedIsFixedPoint(NormalizeEmail(s));
  }

  // --------------------------------------------------------------- validation

  const NAME_REQUIRED := "Name is required"
  const EMAIL_REQUIRED := "Email is required"
  const PASSWORD_REQUIRED := "Password is required"
  const PASSWORD_TOO_SHORT := "Password must be at least 6 characters long"
  const PASSWORD_MIN_LENGTH: nat := 6

  /** The schema paths that carry validators; Mongoose keys `error.errors` by their names. */
  datatype SchemaPath = NamePath | EmailPath | PasswordPath | RolePath

  /**
   * Mongoose validation of a document: one message per failing path, keyed by the
   * path, as `error.errors` holds them. A required string is missing when it is
   * empty; the required check comes before minlength on the same path.
   */
  function Validate(name: string, email: string, password: Password, role: string): (errors: map<SchemaPath, string>)
    ensures NamePath in errors <==> name == ""
    ensures NamePath in errors ==> errors[NamePath] == NAME_REQUIRED
    ensures EmailPath in errors <==> email == ""
    ensures EmailPath in errors ==> errors[EmailPath] == EMAIL_REQUIRED
    ensures PasswordPath in errors <==> PasswordLength(password) < PASSWORD_MIN_LENGTH
    ensures PasswordPath in errors ==>
      errors[PasswordPath] == if password == Plain("") then PASSWORD_REQUIRED else PASSWORD_TOO_SHORT
    ensures RolePath in errors <==> ParseRole(role).Err?
    ensures RolePath in errors ==> errors[RolePath] == ParseRole(role).error
  {
    var withName := if name == "" then map[NamePath := NAME_REQUIRED] else map[];
    var withEmail := if email == "" then withName[EmailPath := EMAIL_REQUIRED] else withName;
    var withPassword :=
      if password == Plain("") then withEmail[PasswordPath := PASSWORD_REQUIRED]
      else if PasswordLength(password) < PASSWORD_MIN_LENGTH then withEmail[PasswordPath := PASSWORD_TOO_SHORT]
      else withEmail;
    match ParseRole(role)
    case Ok(_) => withPassword
    case Err(message) => withPassword[RolePath := message]
  }

  // ------------------------------------------------------------------ records

  /** A saved user, as the users collection holds it (cart and timestamps left out). */
  datatype UserRecord = UserRecord(id: UserId, name: string, email: string, password: Password, role: Role)

  /**
   * A user document before and during `save()`: the fields the schema declares,
   * and whether the password path was modified since the last save.
   */
  class UserDocument {
    var name: string
    var email: string
    var password: Password
    var role: string
    var passwordModified: bool

    /** `new User({name, email, password, role})`: setters run and the role default applies. */
    constructor (name: string, email: string, password: string, role: Option<string>)
      ensures this.name == name && this.email == NormalizeEmail(email)
      ensures this.password == Plain(password) && passwordModified
      ensures this.role == if role.Some? then role.value else DEFAULT_ROLE
    {
      this.name := name;
      this.email := NormalizeEmail(email);
      this.password := Plain(password);
      this.role := if role.Some? then role.value else DEFAULT_ROLE;
      this.passwordModified := true;
    }

    /** The pre-save hook: hash the password only when its path was modified. */
    method PreSave(salt: Salt)
      modifies this`password
      ensures passwordModified ==> password == Hash(old(password), salt)
      ensures !passwordModified ==> password == old(password)
    {
      if !passwordModified {
        return;
      }
      password := Hash(password, salt);
    }

    /**
     * `save()`: validation first, then the pre-save hook; on success the
     * document is no longer modified. A failed validation changes nothing.
     */
    method Save(salt: Salt) returns (errors: map<SchemaPath, string>)
      modifies this
      ensures errors == Validate(old(name), old(email), old(password), old(role))
      ensures errors != map[] ==> unchanged(this)
      ensures errors == map[] ==>
        && name == old(name) && email == old(email) && role == old(role) && !passwordModified
        && password == if old(passwordModified) then Hash(old(password), salt) else old(password)
    {
      errors := Validate(name, email, password, role);
      if errors != map[] {
        return;
      }
      PreSave(salt);
      passwordModified := false;
    }
  }
}
