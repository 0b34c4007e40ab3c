/**
 * The request headers `HarlequinWherobotsConnection.__init__` builds from the credentials:
 * they go with the catalog hierarchy request, every schema request and a direct connection.
 */
module Connection {
  import opened Wrappers

  /** Python truthiness of an optional string: None and "" are both false. */
  predicate Truthy(s: Option<string>) {
    s.Some? && s.value != ""
  }

  /**
   * The headers for a token and an API key: a token gives an "Authorization: Bearer <token>"
   * header; only when there is no token does an API key give an "X-API-Key" header; with
   * neither there are no headers.
   */
  function AuthHeaders(token: Option<string>, apiKey: Option<string>): (headers: map<string, string>)
    ensures "Authorization" in headers <==> Truthy(token)
    ensures "Authorization" in headers ==> headers["Authorization"] == "Bearer " + token.value
    ensures "X-API-Key" in headers <==> !Truthy(token) && Truthy(apiKey)
    ensures "X-API-Key" in headers ==> headers["X-API-Key"] == apiKey.value
    ensures forall name | name in headers :: name == "Authorization" || name == "X-API-Key"
  {
    if Truthy(token) then map["Authorization" := "Bearer " + token.value]
    else if Truthy(apiKey) then map["X-API-Key" := apiKey.value]
    else map[]
  }

  /** At most one credential header is ever sent. */
  lemma OneCredentialHeader(token: Option<string>, apiKey: Option<string>)
    ensures |AuthHeaders(token, apiKey)| <= 1
    ensures !("Authorization" in AuthHeaders(token, apiKey) && "X-API-Key" in AuthHeaders(token, apiKey))
  {
    var headers := AuthHeaders(token, apiKey);
    if Truthy(token) {
      assert headers.Keys == {"Authorization"};
    } else if Truthy(apiKey) {
      assert headers.Keys == {"X-API-Key"};
    } else {
      assert headers.Keys == {};
    }
  }

  /** When a token is given, the API key makes no difference to the headers. */
  lemma TokenWins(token: Option<string>, apiKey: Option<string>)
    requires Truthy(token)
    ensures AuthHeaders(token, apiKey) == AuthHeaders(token, None)
  {
  }
}
