/**
 * Registration and login (Controllers/AuthController.cs).  The `Users` table
 * is a sequence of records in insertion order.  The password hashing library
 * is a pair of functions supplied by the caller, and the random salt of each
 * hash, the clock and the fresh token id are parameters.  Of the issued JSON
 * Web Token only the content is modelled (issuer, audience, claims, expiry,
 * signing key and algorithm); its serialization and signature are not.
 */
module Auth {
  import opened Base
  import opened Models

  const InvalidData := "Datos inválidos"
  const AlreadyRegistered := "El usuario o correo ya está registrado"
  const RegisteredMessage := "Usuario registrado exitosamente"
  const InvalidCredentials := "Credenciales inválidas"
  const LoginSucceeded := "Login exitoso"

  /** The salt a hash embeds; chosen at random by the library. */
  type Salt = nat

  /** A salted password hash and the check that recomputes it. */
  datatype Hasher = Hasher(hash: (string, Salt) -> string, verify: (string, string) -> bool)

  /** The one property assumed of the library: a password verifies against its own hash. */
  ghost predicate Sound(h: Hasher) {
    forall password, salt :: h.verify(password, h.hash(password, salt))
  }

  /** The `Jwt:Key`, `Jwt:Issuer` and `Jwt:Audience` configuration entries, each possibly absent. */
  datatype Config = Config(key: Option<string>, issuer: Option<string>, audience: Option<string>)

  const DefaultSigningKey := "SuperSecretKey@345"
  const DefaultIssuer := "yourapi.com"
  const DefaultAudience := "yourapi.com"

  /** Registered claim names of section 4.1.2 (sub) and 4.1.7 (jti) of RFC 7519, and .NET's name claim type. */
  const SubClaim := "sub"
  const JtiClaim := "jti"
  const NameClaim := "http://schemas.xmlsoap.org/ws/2005/05/identity/claims/name"

  /** HMAC using SHA-256, "HS256" of section 3.2 of RFC 7518. */
  const HmacSha256 := "HS256"

  const SecondsPerHour := 3600

  datatype Claim = Claim(claimType: string, value: string)

  /**
   * The content of an issued token: `iss` and `aud` (sections 4.1.1 and 4.1.3
   * of RFC 7519), the private claims, `exp` (section 4.1.4) in seconds, and
   * the key and algorithm it is signed with.
   */
  datatype Token = Token(
    issuer: string,
    audience: string,
    claims: seq<Claim>,
    expires: int,
    signingKey: string,
    algorithm: string)

  /** The value of the first claim of the given type. */
  function ClaimValue(claims: seq<Claim>, claimType: string): Option<string> {
    if |claims| == 0 then None
    else if claims[0].claimType == claimType then Some(claims[0].value)
    else ClaimValue(claims[1..], claimType)
  }

  /**
   * The token issued to `user` at time `now` (seconds) with token id `jti`:
   * subject and name are the username, the token id is `jti`, it expires one
   * hour later, and issuer, audience and key come from the configuration or
   * fall back to their defaults.
   */
  function GenerateToken(user: User, config: Config, now: int, jti: string): (t: Token)
    ensures ClaimValue(t.claims, SubClaim) == Some(user.username)
    ensures ClaimValue(t.claims, NameClaim) == Some(user.username)
    ensures ClaimValue(t.claims, JtiClaim) == Some(jti)
    ensures t.expires - now == SecondsPerHour
    ensures config.issuer.Some? ==> t.issuer == config.issuer.value
    ensures config.issuer.None? ==> t.issuer == DefaultIssuer
    ensures config.audience.Some? ==> t.audience == config.audience.value
    ensures config.audience.None? ==> t.audience == DefaultAudience
    ensures config.key.Some? ==> t.signingKey == config.key.value
    ensures config.key.None? ==> t.signingKey == DefaultSigningKey
    ensures t.algorithm == HmacSha256
  {
    assert SubClaim != NameClaim && JtiClaim != NameClaim;
    var claims := [
      Claim(SubClaim, user.username),
      Claim(JtiClaim, jti),
      Claim(NameClaim, user.username)
    ];
    assert ClaimValue(claims[2..], NameClaim) == Some(user.username);
    assert ClaimValue(claims[1..], NameClaim) == Some(user.username);
    Token(
      config.issuer.GetOr(DefaultIssuer),
      config.audience.GetOr(DefaultAudience),
      claims,
      now + SecondsPerHour,
      config.key.GetOr(DefaultSigningKey),
      HmacSha256)
  }

  /** The position `FirstOrDefault(u => u.Username == name)` stops at, if any. */
  function FirstNamed(users: seq<User>, name: string): (r: Option<nat>)
    ensures r.None? <==> forall k :: 0 <= k < |users| ==> users[k].username != name
    ensures r.Some? ==> IsFirst(users, (u: User) => u.username == name, r.value)
  {
    FirstIndex(users, (u: User) => u.username == name)
  }

  /** Some stored user has the same username or the same email as `u`. */
  predicate Conflicts(users: seq<User>, u: User)
    ensures Conflicts(users, u) <==>
              (exists k :: 0 <= k < |users| && users[k].username == u.username)
              || (exists k :: 0 <= k < |users| && users[k].email == u.email)
    ensures (UniqueAccounts(users) && !Conflicts(users, u)
             && forall k :: 0 <= k < |users| ==> users[k].id != u.id)
            ==> UniqueAccounts(users + [u])
  {
    exists k :: 0 <= k < |users| && (users[k].username == u.username || users[k].email == u.email)
  }

  /** No two users share a username. */
  ghost predicate UniqueUsernames(users: seq<User>) {
    forall i, j :: 0 <= i < j < |users| ==> users[i].username != users[j].username
  }

  /** No two users share a username, an email or an id. */
  ghost predicate UniqueAccounts(users: seq<User>) {
    && UniqueUsernames(users)
    && forall i, j :: 0 <= i < j < |users| ==>
         users[i].email != users[j].email && users[i].id != users[j].id
  }

  /** The record registration stores: the store-assigned id and the hash, never the plaintext. */
  function StoredUser(u: User, hasher: Hasher, salt: Salt, newId: Int32): (r: User)
    ensures r.username == u.username && r.email == u.email && r.id == newId
    ensures Sound(hasher) ==> hasher.verify(u.password, r.password)
  {
    u.(id := newId, password := hasher.hash(u.password, salt))
  }

  /** With unique usernames, the user found by name is the only one with that name. */
  lemma FirstNamedIsTheOne(users: seq<User>, k: nat)
    requires UniqueUsernames(users) && k < |users|
    ensures FirstNamed(users, users[k].username) == Some(k)
  {
  }

  class AuthController {
    var users: seq<User>

    /** Registration is the only way users are added, so their names and emails stay unique. */
    ghost predicate Valid()
      reads this
    {
      UniqueAccounts(users)
    }

    /** The controller works on the table as the database holds it. */
    constructor(store: seq<User>)
      requires UniqueAccounts(store)
      ensures Valid() && users == store
    {
      users := store;
    }

    /**
     * 400 "Datos inválidos" for an invalid body; 400 "already registered"
     * when some user has the same username or the same email; otherwise
     * appends the user with its password replaced by the salted hash under the
     * store-assigned `newId` and answers 200.  Failures change nothing.
     */
    method Register(user: User, isEmail: string -> bool, hasher: Hasher, salt: Salt, newId: Int32)
      returns (r: AuthResponse)
      requires Valid()
      requires forall k :: 0 <= k < |users| ==> users[k].id != newId
      modifies this
      ensures Valid()
      ensures !ValidUser(user, isEmail) ==> r == BadRequest(InvalidData) && users == old(users)
      ensures ValidUser(user, isEmail) && Conflicts(old(users), user) ==>
                r == BadRequest(AlreadyRegistered) && users == old(users)
      ensures ValidUser(user, isEmail) && !Conflicts(old(users), user) ==>
                && r == Ok(RegisteredMessage)
                && users == old(users) + [StoredUser(user, hasher, salt, newId)]
    {
      if !ValidUser(user, isEmail) {
        return BadRequest(InvalidData);
      }
      if Conflicts(users, user) {
        return BadRequest(AlreadyRegistered);
      }
      var stored := StoredUser(user, hasher, salt, newId);
      users := users + [stored];
      return Ok(RegisteredMessage);
    }

    /**
     * 400 for an invalid request.  Otherwise the first user with the given
     * username is looked up: no such user, and a password the hash does not
     * verify, give the very same 401 "Credenciales inválidas"; a verified
     * password gives 200 with the token issued to that user.  Nothing changes.
     */
    method Login(credentials: LoginRequest, hasher: Hasher, config: Config, now: int, jti: string)
      returns (r: AuthResponse)
      ensures !ValidLogin(credentials) ==> r == BadRequest(InvalidData)
      ensures ValidLogin(credentials) && FirstNamed(users, credentials.username).None? ==>
                r == Unauthorized(InvalidCredentials)
      ensures ValidLogin(credentials) && FirstNamed(users, credentials.username).Some? ==>
                var user := users[FirstNamed(users, credentials.username).value];
                if hasher.verify(credentials.password, user.password)
                then r == OkWithToken(LoginSucceeded, GenerateToken(user, config, now, jti))
                else r == Unauthorized(InvalidCredentials)
      ensures r.OkWithToken? <==>
                ValidLogin(credentials)
                && exists k :: IsFirst(users, (u: User) => u.username == credentials.username, k)
                               && hasher.verify(credentials.password, users[k].password)
      ensures r.OkWithToken? ==> ClaimValue(r.token.claims, SubClaim) == Some(credentials.username)
    {
      if !ValidLogin(credentials) {
        return BadRequest(InvalidData);
      }
      var found := FirstNamed(users, credentials.username);
      if found.None? {
        return Unauthorized(InvalidCredentials);
      }
      var user := users[found.value];
      if !hasher.verify(credentials.password, user.password) {
        return Unauthorized(InvalidCredentials);
      }
      var token := GenerateToken(user, config, now, jti);
      return OkWithToken(LoginSucceeded, token);
    }
  }

  /** The action results of the two endpoints. */
  datatype AuthResponse =
    | Ok(message: string)                           // 200 after registration
    | OkWithToken(message: string, token: Token)    // 200 after login
    | BadRequest(message: string)                   // 400
    | Unauthorized(message: string)                 // 401
  {
    function StatusCode(): int {
      match this
      case Ok(_) => 200
      case OkWithToken(_, _) => 200
      case BadRequest(_) => 400
      case Unauthorized(_) => 401
    }
  }

  /**
   * A user who has just registered can log in with the same username and
   * password, and the token names them as its subject.
   */
  method RegisterThenLogin(
    a: AuthController, user: User, isEmail: string -> bool, hasher: Hasher, salt: Salt,
    newId: Int32, config: Config, now: int, jti: string)
    returns (registered: AuthResponse, loggedIn: AuthResponse)
    requires a.Valid() && Sound(hasher)
    requires forall k :: 0 <= k < |a.users| ==> a.users[k].id != newId
    requires ValidUser(user, isEmail) && !Conflicts(a.users, user)
    modifies a
    ensures registered == Ok(RegisteredMessage)
    ensures loggedIn.OkWithToken? && loggedIn.StatusCode() == 200
    ensures ClaimValue(loggedIn.token.claims, SubClaim) == Some(user.username)
    ensures loggedIn.token.expires == now + SecondsPerHour
  {
    registered := a.Register(user, isEmail, hasher, salt, newId);
    ValidUserCanLogIn(user, isEmail);
    FirstNamedIsTheOne(a.users, |a.users| - 1);
    loggedIn := a.Login(LoginRequest(user.username, user.password), hasher, config, now, jti);
  }
}
