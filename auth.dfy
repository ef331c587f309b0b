/**
 * The `verifyToken` middleware: the bearer token is taken from the
 * `Authorization` header (the header form of section 2.1 of RFC 6750), the
 * signing secret must be configured, and the token is checked by the JWT
 * library, which enters the model as an oracle `verify(token, secret)`.
 * On success the request carries the decoded user and the next handler
 * runs once; otherwise a JSON error reply is sent and it does not run.
 */
module Auth {
  import opened Wrappers
  import opened Text

  /** What the JWT library does with a token: a decoded payload, or a thrown error's `name`. */
  datatype Verdict = Decoded(id: int, telegramId: string) | Failed(name: string)

  /** `req.user`. */
  datatype Principal = Principal(id: int, telegramId: string)

  /** An error reply: status, `error` code and `message`. */
  datatype AuthError = AuthError(status: int, error: string, message: string)

  const NoToken := AuthError(401, "No token provided", "Authentication token is missing. Please login again.")
  const NoSecret := AuthError(500, "Server configuration error",
                              "Server authentication is misconfigured. Please contact support.")

  /** A header that starts with `Bearer ` splits into `Bearer` and at least one more field. */
  lemma BearerFields(h: string)
    requires StartsWith(h, "Bearer ")
    ensures |Split(h, ' ')| >= 2
    ensures Split(h, ' ')[0] == "Bearer"
    ensures Split(h, ' ')[1] == Split(h[7..], ' ')[0]
  {
    assert h[..7] == "Bearer ";
    assert h[6] == ' ';
    assert forall j :: 0 <= j < 6 ==> h[j] != ' ';
    assert IndexOf(h, ' ') == 6 by {
      assert h[..7] == "Bearer ";
    }
    assert h[..6] == "Bearer";
  }

  /**
   * `authHeader?.startsWith('Bearer ') ? authHeader.split(' ')[1] : null`:
   * the text between the first and the second space of a bearer header.
   */
  function BearerToken(header: Option<string>): (token: Option<string>)
    ensures token.Some? <==> header.Some? && StartsWith(header.value, "Bearer ")
    ensures token.Some? ==> ' ' !in token.value
  {
    if header.Some? && StartsWith(header.value, "Bearer ") then
      BearerFields(header.value);
      SplitJoin(header.value, ' ');
      Some(Split(header.value, ' ')[1])
    else None
  }

  /** A header built as `Bearer <token>` from a token without spaces gives that token back. */
  lemma BearerRoundTrip(token: string)
    requires ' ' !in token
    ensures BearerToken(Some("Bearer " + token)) == Some(token)
  {
    var h := "Bearer " + token;
    assert StartsWith(h, "Bearer ") by { assert h[..7] == "Bearer "; }
    BearerFields(h);
    assert h[7..] == token;
    SplitNoSeparator(token, ' ');
  }

  /** Only a header that starts with `Bearer ` carries a token; any other scheme or no header does not. */
  lemma NonBearerHasNoToken(header: Option<string>)
    requires header.None? || !StartsWith(header.value, "Bearer ")
    ensures BearerToken(header) == None
  {
  }

  /** The `catch` on a failed verification: the error's name picks the code, all with status 401. */
  function FailureReply(name: string): (e: AuthError)
    ensures e.status == 401
    ensures e.error == "token_expired" <==> name == "TokenExpiredError"
    ensures e.error == "invalid_token" <==> name == "JsonWebTokenError"
    ensures e.error == "authentication_failed" <==> name != "TokenExpiredError" && name != "JsonWebTokenError"
  {
    if name == "TokenExpiredError" then
      AuthError(401, "token_expired", "Your session has expired. Please login again.")
    else if name == "JsonWebTokenError" then
      AuthError(401, "invalid_token", "Invalid authentication token. Please login again.")
    else AuthError(401, "authentication_failed", "Authentication failed. Please login again.")
  }

  /** `!token` and `!process.env.JWT_SECRET`: absent or empty. */
  predicate Missing(s: Option<string>) {
    s.None? || s == Some("")
  }

  /** The middleware's decision: the request's user, or the error reply. */
  function Authentication(header: Option<string>, secret: Option<string>, verify: (string, string) -> Verdict)
    : (r: Result<Principal, AuthError>)
  {
    var token := BearerToken(header);
    if Missing(token) then Err(NoToken)
    else if Missing(secret) then Err(NoSecret)
    else match verify(token.value, secret.value)
      case Decoded(id, tid) => Ok(Principal(id, tid))
      case Failed(name) => Err(FailureReply(name))
  }

  /**
   * The decision's cases: no (or an empty) bearer token is 401 before the
   * secret is looked at; a missing secret is 500 before any verification;
   * otherwise the request is let through exactly when the oracle decodes
   * the header's token under the secret, with the payload's id and
   * Telegram id, and every refusal of the oracle is a 401.
   */
  lemma AuthenticationCases(header: Option<string>, secret: Option<string>, verify: (string, string) -> Verdict)
    ensures var r := Authentication(header, secret, verify);
      && (Missing(BearerToken(header)) ==> r == Err(NoToken))
      && (!Missing(BearerToken(header)) && Missing(secret) ==> r == Err(NoSecret))
      && (r.Ok? <==> !Missing(BearerToken(header)) && !Missing(secret)
                     && verify(BearerToken(header).value, secret.value).Decoded?)
      && (r.Ok? ==> var v := verify(BearerToken(header).value, secret.value);
                    r.value == Principal(v.id, v.telegramId))
      && (r.Err? ==> r.error.status == 401 || r.error == NoSecret)
  {
  }

  /** The request and response objects as far as the middleware touches them. */
  class Exchange {
    /** `req.user`. */
    var user: Option<Principal>
    /** How many times `next()` has been called. */
    var nextCalls: nat
    /** The error reply sent, if any. */
    var reply: Option<AuthError>

    constructor ()
      ensures user.None? && nextCalls == 0 && reply.None?
    {
      user, nextCalls, reply := None, 0, None;
    }
  }

  /**
   * `verifyToken(req, res, next)`: on success `req.user` is set and `next`
   * is called once with no reply sent; on failure the error is sent and
   * neither `req.user` nor the `next` count changes.
   */
  method VerifyToken(x: Exchange, header: Option<string>, secret: Option<string>, verify: (string, string) -> Verdict)
    modifies x
    ensures Authentication(header, secret, verify).Ok? ==>
      && x.user == Some(Authentication(header, secret, verify).value)
      && x.nextCalls == old(x.nextCalls) + 1 && x.reply == old(x.reply)
    ensures Authentication(header, secret, verify).Err? ==>
      && x.user == old(x.user) && x.nextCalls == old(x.nextCalls)
      && x.reply == Some(Authentication(header, secret, verify).error)
  {
    var token := BearerToken(header);
    if Missing(token) {
      x.reply := Some(NoToken);
      return;
    }
    if Missing(secret) {
      x.reply := Some(NoSecret);
      return;
    }
    var decoded := verify(token.value, secret.value);
    if decoded.Failed? {
      x.reply := Some(FailureReply(decoded.name));
      return;
    }
    x.user := Some(Principal(decoded.id, decoded.telegramId));
    x.nextCalls := x.nextCalls + 1;
  }
}
