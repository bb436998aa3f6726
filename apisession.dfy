/** The API session: the base URL chosen at creation, the authorisation
    token obtained from the authorizations endpoint, and the HTTP client
    every request goes through. */
module ApiSession {
  import opened Wire
  import opened Transport

  const STAGING_URL: string := "https://tracking-staging.scurri.co.uk/api/v1"
  const LIVE_URL: string := "https://tracking.scurri.co.uk/api/v1"
  const AUTH_URI: string := "/authorizations"

  /** The base URL for a session: staging only when asked for. */
  function BaseUrl(staging: bool): (url: string)
    ensures url == STAGING_URL <==> staging
    ensures url == LIVE_URL <==> !staging
  {
    if staging then STAGING_URL else LIVE_URL
  }

  /** The request that asks for a token: a POST of the credentials to the
      authorizations endpoint, with no headers of the library's own. */
  function AuthRequest(baseUrl: string, username: string, password: string): HttpRequest
  {
    HttpRequest("POST", baseUrl + AUTH_URI, map[], Some(map["username" := username, "password" := password]))
  }

  /** The new token read from the authorizations endpoint's response, or
      the exception raised instead. A body that is not JSON, or a JSON
      object without "token", is InvalidAuthRequestResponse carrying the
      raw text; subscripting any other JSON value raises a TypeError, which
      is not caught. The token is taken verbatim, whatever its JSON type. */
  function TokenFrom(resp: HttpResponse): (r: Result<Json>)
    ensures r.Ok? <==> resp.json.Some? && resp.json.value.JObject? && "token" in resp.json.value.fields
    ensures r.Ok? ==> r.value == resp.json.value.fields["token"]
    ensures resp.json.None? ==> r == Err(InvalidAuthRequestResponse(resp.text))
    ensures resp.json.Some? && resp.json.value.JObject? && "token" !in resp.json.value.fields ==>
              r == Err(InvalidAuthRequestResponse(resp.text))
    ensures resp.json.Some? && !resp.json.value.JObject? ==> r == Err(TypeError)
  {
    match resp.json
    case None => Err(InvalidAuthRequestResponse(resp.text))
    case Some(body) =>
      match Subscript(body, "token")
      case Ok(token) => Ok(token)
      case Err(KeyError(_)) => Err(InvalidAuthRequestResponse(resp.text))
      case Err(e) => Err(e)
  }

  /** The headers that authorise a request, for the session's current
      token (JSON null is Python's None: no token). */
  function AuthHeaders(token: Json): (r: Result<Headers>)
    ensures token == JNull ==> r == Err(NotAuthorized)
    ensures r.Ok? <==> token.JStr?
    ensures token.JStr? ==> r == Ok(map["Authorization" := "Token " + token.s])
    ensures r.Ok? ==> r.value.Keys == {"Authorization"}
  {
    match token
    case JNull => Err(NotAuthorized)
    case JStr(t) => Ok(map["Authorization" := "Token " + t])
    case _ => Err(Unsupported(token))  // Python formats the value with str()
  }

  class Session {
    const baseUrl: string
    /** The authorisation token; JNull until a token has been obtained. */
    var token: Json
    /** The HTTP client all requests of this session go through. */
    const client: HttpClient

    constructor (staging: bool, server: HttpRequest -> HttpResponse)
      ensures baseUrl == BaseUrl(staging)
      ensures baseUrl == STAGING_URL <==> staging
      ensures token == JNull && AuthHeaders(token) == Err(NotAuthorized)
      ensures fresh(client) && client.respond == server && client.sent == []
    {
      baseUrl := BaseUrl(staging);
      token := JNull;
      client := new HttpClient(server);
    }

    /** Ask the authorizations endpoint for a token. Exactly one request is
        sent; the token changes only when the response carries one, and is
        left as it was when an exception is raised. */
    method Auth(username: string, password: string) returns (err: Option<Error>)
      modifies this, client
      ensures client.sent == old(client.sent) + [AuthRequest(baseUrl, username, password)]
      ensures var outcome := TokenFrom(client.respond(AuthRequest(baseUrl, username, password)));
              && (outcome.Ok? ==> token == outcome.value && err == None)
              && (outcome.Err? ==> token == old(token) && err == Some(outcome.error))
    {
      var url := baseUrl + AUTH_URI;
      var response := client.Request(HttpRequest("POST", url, map[], Some(map["username" := username, "password" := password])));
      var outcome := TokenFrom(response);
      if outcome.Ok? {
        token := outcome.value;
        err := None;
      } else {
        err := Some(outcome.error);
      }
    }
  }

  /** After an authorisation whose response carries the string token `t`,
      the session's headers are exactly `Authorization: Token t`; a
      response that carries a JSON null "token" succeeds yet leaves the
      session unauthorised. */
  lemma AuthorisedHeaders(resp: HttpResponse, t: string)
    requires TokenFrom(resp).Ok?
    ensures TokenFrom(resp) == Ok(JStr(t)) ==> AuthHeaders(TokenFrom(resp).value) == Ok(map["Authorization" := "Token " + t])
    ensures TokenFrom(resp).value == JNull ==> AuthHeaders(TokenFrom(resp).value) == Err(NotAuthorized)
  {
  }
}
