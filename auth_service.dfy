/**
 * Registration and login over the user store. Password hashing and token signing are
 * not looked inside: they are supplied as functions, with only the properties the
 * service relies on stated as predicates over them.
 */
module AuthService {
  import opened Wrappers
  import opened Models
  import opened Database
  import opened Js
  import Text

  /** `bcrypt.hashSync(password, salt)` and `bcrypt.compareSync(password, hash)`. */
  datatype Hasher = Hasher(hash: (string, string) -> string, compare: (string, string) -> bool)

  /** A password always matches its own hash, whatever the salt. */
  ghost predicate SoundHasher(h: Hasher)
  {
    forall p, salt :: h.compare(p, h.hash(p, salt))
  }

  /** The fields of a token payload; jsonwebtoken adds `iat` and `exp` (in seconds). */
  type Claims = map<string, Value>

  /** `expiresIn: '24h'`, in seconds. */
  const ExpiresInSeconds := 24 * 60 * 60

  /** The payload `verify` returns for a token signed over `p` at `iat`. */
  function Stamped(p: Claims, iat: int): (r: Claims)
    ensures "iat" in r && "exp" in r
    ensures forall k :: k in r <==> k in p || k == "iat" || k == "exp"
    ensures forall k :: k in p && k != "iat" && k != "exp" ==> r[k] == p[k]
  {
    p["iat" := Num(iat as real)]["exp" := Num((iat + ExpiresInSeconds) as real)]
  }

  /**
   * `jwt.sign(payload, secret, { expiresIn: '24h' })` at time `iat` and `jwt.verify(token, secret)`
   * at time `now` (both in seconds), the secret fixed; None is a thrown verification error.
   */
  datatype Signer = Signer(sign: (Claims, int) -> string, verify: (string, int) -> Option<Claims>)

  /** A token verifies, to its own payload stamped with `iat` and `exp`, until it expires. */
  ghost predicate SoundSigner(s: Signer)
  {
    forall p, iat, now :: iat <= now < iat + ExpiresInSeconds ==> s.verify(s.sign(p, iat), now) == Some(Stamped(p, iat))
  }

  /** `{ id: user._id, email: user.email }`. */
  function TokenClaims(id: Id, email: Value): (c: Claims)
    ensures c.Keys == {"id", "email"} && c["id"] == Str(id) && c["email"] == email
  {
    map["id" := Str(id), "email" := email]
  }

  datatype PublicUser = PublicUser(id: Id, email: Value)

  /** `{ user: { id, email }, token }`. */
  datatype Session = Session(user: PublicUser, token: string)

  /** The session issued to a stored user at time `iat`. */
  function SessionFor(u: User, signer: Signer, iat: int): (s: Session)
    ensures s.user == PublicUser(u.id, u.email)
    ensures s.token == signer.sign(TokenClaims(u.id, u.email), iat)
  {
    Session(PublicUser(u.id, u.email), signer.sign(TokenClaims(u.id, u.email), iat))
  }

  const EmailTaken: Error := StatusError(400, "Email already registered")
  /** One message for an unknown email and for a wrong password. */
  const InvalidCredentials: Error := StatusError(401, "Invalid credentials, please check your email or password")

  /** `String(password).trim()`, applied before hashing and before comparing. */
  function PasswordText(password: Value, co: Coercions): string
  {
    Text.Trim(ToStr(password, co))
  }

  /**
   * `register(email, password)`: refuse an email that is already stored; otherwise store the
   * email with the hash of the trimmed password under a fresh id and return the session.
   * `salt` is what `genSaltSync` gave; the failures are what the two store calls would throw.
   */
  method Register(users: UserCollection, hasher: Hasher, signer: Signer, co: Coercions,
                  email: Value, password: Value, salt: string, newId: Id, iat: int,
                  findFailure: Option<Error>, saveFailure: Option<Error>)
    returns (r: Result<Session, Error>)
    requires users.Fresh(newId)
    modifies users
    ensures findFailure.Some? ==> r == Err(findFailure.value) && users.docs == old(users.docs)
    ensures findFailure.None? && UserIndex(old(users.docs), email).Some? ==>
      r == Err(EmailTaken) && users.docs == old(users.docs)
    ensures findFailure.None? && UserIndex(old(users.docs), email).None? && saveFailure.Some? ==>
      r == Err(saveFailure.value) && users.docs == old(users.docs)
    ensures findFailure.None? && UserIndex(old(users.docs), email).None? && saveFailure.None? ==>
      var u := User(newId, email, hasher.hash(PasswordText(password, co), salt));
      users.docs == old(users.docs) + [u] && r == Ok(SessionFor(u, signer, iat))
  {
    if findFailure.Some? {
      return Err(findFailure.value);
    }
    var existing := UserIndex(users.docs, email);
    if existing.Some? {
      return Err(EmailTaken);
    }
    var passwordStr := PasswordText(password, co);
    var hashed := hasher.hash(passwordStr, salt);
    var saved := users.Save(email, hashed, newId, saveFailure);
    if saved.Err? {
      return Err(saved.error);
    }
    var token := signer.sign(TokenClaims(saved.value.id, saved.value.email), iat);
    r := Ok(Session(PublicUser(saved.value.id, saved.value.email), token));
  }

  /**
   * `login(email, password)`: the first user with that email, if the trimmed password
   * matches its hash; an unknown email and a wrong password fail alike.
   */
  function Login(docs: seq<User>, hasher: Hasher, signer: Signer, co: Coercions,
                 email: Value, password: Value, iat: int, findFailure: Option<Error>): (r: Result<Session, Error>)
    ensures findFailure.Some? ==> r == Err(findFailure.value)
    ensures findFailure.None? && r.Err? ==> r.error == InvalidCredentials
    ensures findFailure.None? && UserIndex(docs, email).None? ==> r == Err(InvalidCredentials)
    ensures findFailure.None? && UserIndex(docs, email).Some? ==>
      var u := docs[UserIndex(docs, email).value];
      r == (if hasher.compare(PasswordText(password, co), u.password) then Ok(SessionFor(u, signer, iat))
            else Err(InvalidCredentials))
    ensures r.Ok? ==> exists u :: u in docs && u.email == email && r.value == SessionFor(u, signer, iat)
  {
    if findFailure.Some? then Err(findFailure.value)
    else match UserIndex(docs, email)
      case None => Err(InvalidCredentials)
      case Some(i) =>
        if hasher.compare(PasswordText(password, co), docs[i].password)
        then Ok(SessionFor(docs[i], signer, iat))
        else Err(InvalidCredentials)
  }

  /** A user appended after every user with another email logs in with any password its hash accepts. */
  lemma LoginAsAppended(docs: seq<User>, hasher: Hasher, signer: Signer, co: Coercions,
                        u: User, password: Value, iat: int)
    requires UserIndex(docs, u.email).None?
    requires hasher.compare(PasswordText(password, co), u.password)
    ensures Login(docs + [u], hasher, signer, co, u.email, password, iat, None) == Ok(SessionFor(u, signer, iat))
  {
    UserIndexOfAppended(docs, u);
    assert (docs + [u])[|docs|] == u;
  }

  /**
   * After a registration that stored a user, logging in with the same email and password
   * succeeds, for that user.
   */
  lemma RegisterThenLogin(docs: seq<User>, hasher: Hasher, signer: Signer, co: Coercions,
                          email: Value, password: Value, salt: string, newId: Id, iat: int)
    requires SoundHasher(hasher)
    requires UserIndex(docs, email).None?
    ensures var u := User(newId, email, hasher.hash(PasswordText(password, co), salt));
      Login(docs + [u], hasher, signer, co, email, password, iat, None) == Ok(SessionFor(u, signer, iat))
  {
    var u := User(newId, email, hasher.hash(PasswordText(password, co), salt));
    assert hasher.compare(PasswordText(password, co), u.password);
    LoginAsAppended(docs, hasher, signer, co, u, password, iat);
  }

  /** The password typed with whitespace around it is read as the bare password. */
  lemma PaddedPasswordText(w1: string, secret: string, w2: string, co: Coercions)
    requires Text.AllWhitespace(w1) && Text.AllWhitespace(w2) && Text.Trimmed(secret)
    ensures PasswordText(Str(w1 + secret + w2), co) == secret
  {
    Text.TrimOfPadded(w1, secret, w2);
  }

  /** Surrounding whitespace does not matter: the padded password logs in as the registered one. */
  lemma PaddedPasswordLogsIn(docs: seq<User>, hasher: Hasher, signer: Signer, co: Coercions, email: Value,
                             w1: string, secret: string, w2: string, salt: string, newId: Id, iat: int)
    requires SoundHasher(hasher)
    requires UserIndex(docs, email).None?
    requires Text.AllWhitespace(w1) && Text.AllWhitespace(w2) && Text.Trimmed(secret)
    ensures var u := User(newId, email, hasher.hash(secret, salt));
      Login(docs + [u], hasher, signer, co, email, Str(w1 + secret + w2), iat, None) == Ok(SessionFor(u, signer, iat))
  {
    var u := User(newId, email, hasher.hash(secret, salt));
    PaddedPasswordText(w1, secret, w2, co);
    assert hasher.compare(secret, u.password);
    LoginAsAppended(docs, hasher, signer, co, u, Str(w1 + secret + w2), iat);
  }

  /**
   * A failed login tells nothing about which check failed: the error for an unknown email is
   * the error for a known email with a wrong password.
   */
  lemma LoginFailuresIndistinguishable(docs: seq<User>, hasher: Hasher, signer: Signer, co: Coercions,
                                       unknown: Value, known: Value, password: Value, iat: int)
    requires UserIndex(docs, unknown).None? && UserIndex(docs, known).Some?
    requires !hasher.compare(PasswordText(password, co), docs[UserIndex(docs, known).value].password)
    ensures Login(docs, hasher, signer, co, unknown, password, iat, None)
         == Login(docs, hasher, signer, co, known, password, iat, None)
  {
  }
}
