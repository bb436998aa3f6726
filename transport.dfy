/** The HTTP client the session holds. The network is not modelled: the
    client answers every request through a fixed oracle and keeps the list
    of requests it was asked to send, so that the number, order and content
    of the calls the library makes can be stated. */
module Transport {
  import opened Wire

  type Headers = map<string, string>

  /** The JSON body a request carries (`json=` in the HTTP client). */
  type Body = map<string, string>

  datatype HttpRequest = HttpRequest(verb: string, url: string, headers: Headers, body: Option<Body>)

  /** A response: its raw text, and what `response.json()` decodes it to
      (None when the text is not JSON and `json()` raises). */
  datatype HttpResponse = HttpResponse(text: string, json: Option<Json>)

  class HttpClient {
    /** The server, as a function from the request sent to the response received. */
    const respond: HttpRequest -> HttpResponse
    /** Every request sent so far, oldest first. */
    var sent: seq<HttpRequest>

    constructor (server: HttpRequest -> HttpResponse)
      ensures respond == server && sent == []
    {
      respond := server;
      sent := [];
    }

    /** Send one request and return the server's response. */
    method Request(req: HttpRequest) returns (resp: HttpResponse)
      modifies this
      ensures sent == old(sent) + [req]
      ensures resp == respond(req)
    {
      sent := sent + [req];
      resp := respond(req);
    }
  }
}
