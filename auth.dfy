/**
 * The backend's request authentication: the Authorization header must be
 * "Bearer " followed by a Firebase ID token, and the token must verify;
 * both failures are HTTP 401 with their own detail text. The Firebase
 * verifier is a parameter: it returns the decoded claims, or None where
 * it raises.
 */
module Auth {
  import opened Wrappers
  import opened Values

  /** An HTTP error response: status code and detail text. */
  datatype HttpError = HttpError(status: int, detail: string)

  /** The decoded claims of a verified token. */
  type Claims = map<string, Value>

  const BearerPrefix: string := "Bearer "
  const Unauthorized: int := 401
  const InvalidHeader: string := "Invalid authorization header"
  const InvalidToken: string := "Invalid token"

  predicate StartsWith(s: string, prefix: string) {
    |prefix| <= |s| && s[..|prefix|] == prefix
  }

  /**
   * The token part of the header: everything after "Bearer ", or a 401
   * "Invalid authorization header" when the header does not start with it.
   * A header is exactly the prefix followed by the token it yields.
   */
  function BearerToken(authorization: string): (r: Result<string, HttpError>)
    ensures r.Success? <==> StartsWith(authorization, BearerPrefix)
    ensures r.Success? ==> BearerPrefix + r.value == authorization
    ensures r.Failure? ==> r.error == HttpError(Unauthorized, InvalidHeader)
  {
    if StartsWith(authorization, BearerPrefix) then
      var token := authorization[7..];
      assert BearerPrefix + token == authorization by {
        assert authorization == authorization[..7] + authorization[7..];
      }
      Success(token)
    else Failure(HttpError(Unauthorized, InvalidHeader))
  }

  /**
   * verify_firebase_token: the claims the verifier decodes from the
   * header's token; a malformed header is rejected before the verifier is
   * consulted, and a token the verifier refuses is a 401 "Invalid token".
   */
  function VerifyFirebaseToken(authorization: string, verify: string -> Option<Claims>): (r: Result<Claims, HttpError>)
    ensures r.Success? <==> BearerToken(authorization).Success? && verify(BearerToken(authorization).value).Some?
    ensures r.Success? ==> Some(r.value) == verify(BearerToken(authorization).value)
    ensures r.Failure? ==> r.error.status == Unauthorized
    ensures r.Failure? ==>
              (r.error.detail == InvalidHeader <==> !StartsWith(authorization, BearerPrefix))
  {
    match BearerToken(authorization)
    case Failure(e) => Failure(e)
    case Success(token) =>
      match verify(token)
      case None => Failure(HttpError(Unauthorized, InvalidToken))
      case Some(claims) => Success(claims)
  }

  /** The verifier is handed exactly the text after "Bearer ": whatever token is sent is the one checked. */
  lemma TokenRoundTrip(token: string)
    ensures BearerToken(BearerPrefix + token) == Success(token)
  {
    var h := BearerPrefix + token;
    assert h[..|BearerPrefix|] == BearerPrefix;
    assert h[7..] == token;
  }

  /** A header without the prefix is refused the same way whatever the verifier would say. */
  lemma MalformedHeaderIgnoresVerifier(authorization: string, v1: string -> Option<Claims>, v2: string -> Option<Claims>)
    requires !StartsWith(authorization, BearerPrefix)
    ensures VerifyFirebaseToken(authorization, v1) == VerifyFirebaseToken(authorization, v2)
              == Failure(HttpError(Unauthorized, InvalidHeader))
  {
  }

  /** The three cases the backend's tests exercise: a wrong prefix, a refused token and a good one. */
  lemma AuthExamples(verify: string -> Option<Claims>)
    requires verify("bad-token") == None
    requires verify("good-token") == Some(map["uid" := Str("abc"), "email" := Str("a@b.com")])
    ensures VerifyFirebaseToken("NotBearer xyz", verify) == Failure(HttpError(401, "Invalid authorization header"))
    ensures VerifyFirebaseToken("Bearer bad-token", verify) == Failure(HttpError(401, "Invalid token"))
    ensures VerifyFirebaseToken("Bearer good-token", verify).Success? &&
            VerifyFirebaseToken("Bearer good-token", verify).value["uid"] == Str("abc")
  {
    TokenRoundTrip("bad-token");
    TokenRoundTrip("good-token");
    assert !StartsWith("NotBearer xyz", BearerPrefix) by {
      assert "NotBearer xyz"[0] != BearerPrefix[0];
    }
  }
}
