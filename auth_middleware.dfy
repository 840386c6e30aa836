/**
 * The bearer-token check in front of the campaign routes: take the token out of the
 * Authorization header, verify it, and either pass the request on with the user id
 * taken from the token or answer 401.
 */
module AuthMiddleware {
  import opened Wrappers
  import opened Js
  import opened Http
  import opened Text
  import opened AuthService

  const BearerPrefix := "Bearer "
  const PleaseAuthenticate := "Please authenticate"

  /**
   * `req.header('Authorization')?.replace('Bearer ', '')`: the first occurrence of "Bearer "
   * is removed, wherever it is; None is a missing header.
   */
  function ExtractToken(header: Option<string>): (r: Option<string>)
    ensures header.None? <==> r.None?
    ensures header.Some? && IndexOf(header.value, BearerPrefix).None? ==> r == header
    ensures header.Some? && IndexOf(header.value, BearerPrefix).Some? ==>
      var i := IndexOf(header.value, BearerPrefix).value;
      r == Some(header.value[..i] + header.value[i + |BearerPrefix|..])
  {
    match header
    case None => None
    case Some(h) =>
      assert forall a: string, b: string {:trigger a + b} :: a + "" + b == a + b by {
        forall a: string, b: string ensures a + "" + b == a + b { assert a + "" == a; }
      }
      Some(ReplaceFirst(h, BearerPrefix, ""))
  }

  /** For the header the front end sends, `Bearer ${token}`, the token comes back unchanged. */
  lemma ExtractFromBearerHeader(token: string)
    ensures ExtractToken(Some(BearerPrefix + token)) == Some(token)
  {
    var h := BearerPrefix + token;
    assert StartsWith(h, BearerPrefix) by { assert h[..|BearerPrefix|] == BearerPrefix; }
    assert IndexOf(h, BearerPrefix) == Some(0);
    assert h[..0] + "" + h[|BearerPrefix|..] == token;
  }

  /**
   * The scheme name is matched with its case: a lower-case `bearer ` header is passed on whole,
   * so the token handed to `verify` still carries the scheme.
   */
  lemma LowerCaseSchemeNotStripped(token: string)
    requires IndexOf("bearer " + token, BearerPrefix).None?
    ensures ExtractToken(Some("bearer " + token)) == Some("bearer " + token)
  {
  }

  /** The payload of a token that verified, or None when the request is refused with a 401. */
  function Decode(header: Option<string>, signer: Signer, now: int): (r: Option<Claims>)
    ensures ExtractToken(header).None? || ExtractToken(header) == Some("") ==> r.None?
    ensures ExtractToken(header).Some? && ExtractToken(header) != Some("") ==> r == signer.verify(ExtractToken(header).value, now)
  {
    match ExtractToken(header)
    case None => None
    case Some(t) => if t == "" then None else signer.verify(t, now)
  }

  /** What the middleware does: call `next` with `req.userId` set, or answer 401. */
  datatype Outcome = Next(userId: Value) | Refuse(response: Response<()>)

  /** A claim of the decoded payload, undefined when absent. */
  function Claim(c: Claims, name: string): (v: Value)
    ensures name in c ==> v == c[name]
    ensures name !in c ==> v == Undefined
  {
    if name in c then c[name] else Undefined
  }

  /** The middleware as written: `req.userId = decoded.userId`. */
  function AuthenticateAsWritten(header: Option<string>, signer: Signer, now: int): (r: Outcome)
    ensures Decode(header, signer, now).None? <==> r == Refuse(WithMessage(401, PleaseAuthenticate))
    ensures Decode(header, signer, now).Some? ==> r == Next(Claim(Decode(header, signer, now).value, "userId"))
  {
    match Decode(header, signer, now)
    case None => Refuse(WithMessage(401, PleaseAuthenticate))
    case Some(decoded) => Next(Claim(decoded, "userId"))
  }

  /**
   * Tokens are signed over `{ id, email }`, so as written the user id the middleware passes on
   * is undefined for every token the service issues.
   */
  lemma AsWrittenUserIdUndefined(signer: Signer, id: Models.Id, email: Value, iat: int, now: int)
    requires SoundSigner(signer)
    requires iat <= now < iat + ExpiresInSeconds
    requires signer.sign(TokenClaims(id, email), iat) != ""
    ensures AuthenticateAsWritten(Some(BearerPrefix + signer.sign(TokenClaims(id, email), iat)), signer, now) == Next(Undefined)
  {
    var token := signer.sign(TokenClaims(id, email), iat);
    ExtractFromBearerHeader(token);
    assert signer.verify(token, now) == Some(Stamped(TokenClaims(id, email), iat));
  }

  /** The middleware with the claim the tokens carry: `req.userId = decoded.id`. */
  function Authenticate(header: Option<string>, signer: Signer, now: int): (r: Outcome)
    ensures Decode(header, signer, now).None? <==> r == Refuse(WithMessage(401, PleaseAuthenticate))
    ensures Decode(header, signer, now).Some? ==> r == Next(Claim(Decode(header, signer, now).value, "id"))
  {
    match Decode(header, signer, now)
    case None => Refuse(WithMessage(401, PleaseAuthenticate))
    case Some(decoded) => Next(Claim(decoded, "id"))
  }

  /** A token issued at login or registration, sent back before it expires, passes the request on as its user. */
  lemma IssuedTokenAuthenticates(signer: Signer, id: Models.Id, email: Value, iat: int, now: int)
    requires SoundSigner(signer)
    requires iat <= now < iat + ExpiresInSeconds
    requires signer.sign(TokenClaims(id, email), iat) != ""
    ensures Authenticate(Some(BearerPrefix + signer.sign(TokenClaims(id, email), iat)), signer, now) == Next(Str(id))
  {
    var token := signer.sign(TokenClaims(id, email), iat);
    ExtractFromBearerHeader(token);
    assert signer.verify(token, now) == Some(Stamped(TokenClaims(id, email), iat));
  }

  /** A missing header, an empty token and a token that fails to verify get the same 401. */
  lemma RefusalsAlike(signer: Signer, now: int, bad: string)
    requires bad != "" && signer.verify(bad, now).None?
    ensures Authenticate(None, signer, now) == Refuse(WithMessage(401, PleaseAuthenticate))
    ensures Authenticate(Some(""), signer, now) == Refuse(WithMessage(401, PleaseAuthenticate))
    ensures Authenticate(Some(BearerPrefix), signer, now) == Refuse(WithMessage(401, PleaseAuthenticate))
    ensures Authenticate(Some(BearerPrefix + bad), signer, now) == Refuse(WithMessage(401, PleaseAuthenticate))
  {
    ExtractFromBearerHeader("");
    assert BearerPrefix + "" == BearerPrefix;
    ExtractFromBearerHeader(bad);
  }

  /** The request object, of which the middleware sets one field. */
  class Request {
    var userId: Value

    constructor ()
      ensures userId == Undefined
    {
      userId := Undefined;
    }
  }

  /**
   * Runs the middleware as written on a request: on success it sets `req.userId` to the
   * token's `userId` claim and reports that `next` is called (once); otherwise the request
   * is left as it was and the 401 is returned.
   */
  method Run(req: Request, header: Option<string>, signer: Signer, now: int)
    returns (callsNext: bool, response: Option<Response<()>>)
    modifies req
    ensures callsNext <==> Decode(header, signer, now).Some?
    ensures callsNext ==> response.None? && req.userId == Claim(Decode(header, signer, now).value, "userId")
    ensures !callsNext ==> response == Some(WithMessage(401, PleaseAuthenticate)) && req.userId == old(req.userId)
  {
    var outcome := AuthenticateAsWritten(header, signer, now);
    match outcome {
      case Next(userId) =>
        req.userId := userId;
        callsNext, response := true, None;
      case Refuse(resp) =>
        callsNext, response := false, Some(resp);
    }
  }

  /**
   * The middleware as written, given a token issued at login or registration: it calls `next`,
   * but with `req.userId` undefined.
   */
  method RunWithIssuedToken(req: Request, signer: Signer, id: Models.Id, email: Value, iat: int, now: int)
    returns (callsNext: bool)
    requires SoundSigner(signer)
    requires iat <= now < iat + ExpiresInSeconds
    requires signer.sign(TokenClaims(id, email), iat) != ""
    modifies req
    ensures callsNext && req.userId == Undefined
  {
    var token := signer.sign(TokenClaims(id, email), iat);
    AsWrittenUserIdUndefined(signer, id, email, iat, now);
    var response;
    callsNext, response := Run(req, Some(BearerPrefix + token), signer, now);
  }
}
