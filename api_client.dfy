/** The frontend's shared HTTP client: a request interceptor that attaches
    the store's token as a bearer `Authorization` header. */
module ApiClient {
  import opened Common
  import opened Text
  import opened AuthMiddleware

  /** The axios request configuration an interceptor receives and returns. */
  class RequestConfig {
    var headers: map<string, string>

    constructor (headers: map<string, string>)
      ensures this.headers == headers
    {
      this.headers := headers;
    }
  }

  /** `"Bearer " + token`, the value the client sends. */
  function BearerValue(token: string): string {
    "Bearer " + token
  }

  /** The request interceptor: with a truthy token in the store, set
      `Authorization` on the passed configuration; hand the same object back. */
  method Intercept(config: RequestConfig, token: Option<string>) returns (r: RequestConfig)
    modifies config
    ensures r == config
    ensures Truthy(token) ==> config.headers == old(config.headers)["Authorization" := BearerValue(token.value)]
    ensures !Truthy(token) ==> config.headers == old(config.headers)
  {
    if Truthy(token) {
      config.headers := config.headers["Authorization" := BearerValue(token.value)];
    }
    return config;
  }

  /** A promise as the interceptor chain sees it. */
  datatype Settled<T, E> = Resolved(value: T) | Rejected(error: E)

  /** The error half of the interceptor: the error is passed on untouched. */
  function OnRequestError<T, E>(error: E): (p: Settled<T, E>)
    ensures p.Rejected? && p.error == error
  {
    Rejected(error)
  }

  /** The header the client writes is the one the gateway reads: for a token
      without spaces, `split(' ')[1]` gives the token back. */
  lemma {:induction false} BearerRoundTrip(token: string)
    requires token != "" && ' ' !in token
    ensures TokenOf(BearerValue(token)) == Some(token)
  {
    assert BearerValue(token) == "Bearer" + [' '] + token;
    SplitTwoWords("Bearer", token, ' ');
  }

  /** With the client's header the gateway hands exactly that token to the
      verifier (HTTP header names are case-insensitive; the gateway sees
      them lower-cased). */
  lemma GatewayVerifiesClientToken(secret: string, headers: map<string, string>, token: string,
                                   verify: (string, string) -> Verification)
    requires secret != "" && token != "" && ' ' !in token
    ensures VerifyToken(Some(secret), headers["authorization" := BearerValue(token)], verify)
         == FromVerification(verify(token, secret))
  {
    BearerRoundTrip(token);
  }
}
