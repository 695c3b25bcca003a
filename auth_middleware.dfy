/**
 * The bearer-token guard in front of the protected routes
 * (internal/middleware/auth_middleware.go). The header is classified by a
 * pure function; the handler then aborts the request or stores the
 * verified payload and lets the chain continue. Token verification is a
 * parameter.
 */
module AuthMiddleware {
  import opened Common
  import opened Strings

  const AuthorizationHeader := "Authorization"
  const AuthorizationBearer := "Bearer"
  const AuthPayloadKey := "auth_payload"

  const StatusUnauthorized := 401

  const MissingTokenMessage := "authorization header is required"
  const InvalidFormatMessage := "authorization header must be in format: Bearer <token>"

  /** What the Authorization header holds. */
  datatype HeaderClass = Missing | Malformed | BearerToken(token: string)

  /**
   * An empty header is missing; otherwise it must split on white space into
   * exactly two fields, the first "Bearer" in any letter case, and the token
   * is the second field.
   */
  function Classify(header: string): (c: HeaderClass)
    ensures c == Missing <==> header == ""
    ensures c.BearerToken? <==>
      header != "" && |Fields(header)| == 2 && EqualFoldAscii(Fields(header)[0], AuthorizationBearer)
    ensures c.BearerToken? ==> c.token == Fields(header)[1] && |c.token| > 0 && NoSpace(c.token)
  {
    if |header| == 0 then Missing
    else
      var parts := Fields(header);
      if |parts| != 2 || !EqualFoldAscii(parts[0], AuthorizationBearer) then Malformed
      else BearerToken(parts[1])
  }

  /** A header of nothing but white space is malformed, not missing. */
  lemma BlankHeaderIsMalformed(header: string)
    requires header != "" && AllSpace(header)
    ensures Classify(header) == Malformed
  {
    FieldsEmptyIffBlank(header);
  }

  /**
   * The well-formed headers: the scheme in any letter case, white space,
   * a token, with any white space around; the token comes back unchanged.
   */
  lemma BearerHeader(w1: string, scheme: string, w2: string, token: string, w3: string)
    requires AllSpace(w1) && AllSpace(w2) && AllSpace(w3) && |w2| > 0
    requires EqualFoldAscii(scheme, AuthorizationBearer)
    requires |token| > 0 && NoSpace(token)
    ensures Classify(w1 + scheme + w2 + token + w3) == BearerToken(token)
  {
    assert NoSpace(scheme) by {
      forall i | 0 <= i < |scheme| ensures !IsSpace(scheme[i]) {
        assert LowerChar(scheme[i]) == LowerChar(AuthorizationBearer[i]);
      }
    }
    FieldsOfTwoWords(w1, scheme, w2, token, w3);
  }

  /** Any other scheme is refused, whatever the token. */
  lemma OtherSchemeIsMalformed(w1: string, scheme: string, w2: string, token: string, w3: string)
    requires AllSpace(w1) && AllSpace(w2) && AllSpace(w3) && |w2| > 0
    requires |scheme| > 0 && NoSpace(scheme) && !EqualFoldAscii(scheme, AuthorizationBearer)
    requires |token| > 0 && NoSpace(token)
    ensures Classify(w1 + scheme + w2 + token + w3) == Malformed
  {
    FieldsOfTwoWords(w1, scheme, w2, token, w3);
  }

  // ---------------------------------------------------------------------
  // The handler
  // ---------------------------------------------------------------------

  /** What the token verifier answers: the payload, or the error's text. */
  datatype Verified<P> = Verified(payload: P) | Refused(message: string)

  /** An aborted request: the HTTP status and the JSON body's code and message. */
  datatype Abort = Abort(status: int, code: string, message: string)

  /** The middleware's decision: abort with a body, or admit with the payload. */
  datatype Verdict<P> = Reject(abort: Abort) | Admit(payload: P)

  function Authenticate<P>(header: string, verify: string -> Verified<P>): (v: Verdict<P>)
    ensures v.Reject? ==> v.abort.status == StatusUnauthorized
    ensures v.Admit? <==> Classify(header).BearerToken? && verify(Classify(header).token).Verified?
    ensures v.Admit? ==> v.payload == verify(Classify(header).token).payload
  {
    match Classify(header)
    case Missing => Reject(Abort(StatusUnauthorized, "MISSING_TOKEN", MissingTokenMessage))
    case Malformed => Reject(Abort(StatusUnauthorized, "INVALID_TOKEN_FORMAT", InvalidFormatMessage))
    case BearerToken(token) =>
      match verify(token)
      case Refused(message) => Reject(Abort(StatusUnauthorized, "INVALID_TOKEN", message))
      case Verified(payload) => Admit(payload)
  }

  /**
   * The three refusals, checked in order: no header, a malformed one, and a
   * token the verifier refuses (its error text becomes the message).
   */
  lemma RefusalCodes<P>(header: string, verify: string -> Verified<P>)
    ensures var v := Authenticate(header, verify);
      && (header == "" ==> v == Reject(Abort(StatusUnauthorized, "MISSING_TOKEN", MissingTokenMessage)))
      && (Classify(header) == Malformed ==>
            v == Reject(Abort(StatusUnauthorized, "INVALID_TOKEN_FORMAT", InvalidFormatMessage)))
      && (Classify(header).BearerToken? && verify(Classify(header).token).Refused? ==>
            v == Reject(Abort(StatusUnauthorized, "INVALID_TOKEN", verify(Classify(header).token).message)))
  {
  }

  /** The parts of the gin context the middleware reads and writes. */
  class GinContext<P> {
    /** request headers by canonical name */
    var headers: map<string, string>
    /** values handlers share through `Set`/`Get` */
    var keys: map<string, P>
    var aborted: Option<Abort>
    /** whether `Next` ran the rest of the chain */
    var proceeded: bool

    constructor (headers: map<string, string>)
      ensures this.headers == headers && keys == map[] && aborted == None && !proceeded
    {
      this.headers := headers;
      keys := map[];
      aborted := None;
      proceeded := false;
    }

    /** `GetHeader`: the header's value, or "" when absent. */
    function GetHeader(name: string): (h: string)
      reads this
      ensures name !in headers ==> h == ""
      ensures name in headers ==> h == headers[name]
    {
      if name in headers then headers[name] else ""
    }
  }

  /**
   * The handler `AuthMiddleware` returns: a refused request is aborted with
   * its status and body and nothing is stored; an admitted one gets the
   * payload under "auth_payload" and continues.
   */
  method Handle<P>(c: GinContext<P>, verify: string -> Verified<P>)
    modifies c`keys, c`aborted, c`proceeded
    ensures var v := Authenticate(old(c.GetHeader(AuthorizationHeader)), verify);
      && (v.Reject? ==> c.aborted == Some(v.abort) && c.keys == old(c.keys) && c.proceeded == old(c.proceeded))
      && (v.Admit? ==> c.keys == old(c.keys)[AuthPayloadKey := v.payload] && c.proceeded
                       && c.aborted == old(c.aborted))
  {
    var verdict := Authenticate(c.GetHeader(AuthorizationHeader), verify);
    match verdict
    case Reject(abort) =>
      c.aborted := Some(abort);
    case Admit(payload) =>
      c.keys := c.keys[AuthPayloadKey := payload];
      c.proceeded := true;
  }
}
