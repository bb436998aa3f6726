/** Requests to the tracking API: the endpoint table, one authorised HTTP
    exchange, single-item requests, and paginated requests that follow each
    page's `next` link until it is null and concatenate the pages' results. */
module Request {
  import opened Wire
  import opened Transport
  import opened ApiSession

  // ---------------------------------------------------------------------
  // The page envelope

  /** One page of a paginated response, its four members copied verbatim. */
  datatype Page = Page(count: Json, next: Json, previous: Json, results: Json)

  /** The members a page must have, in the order they are read. */
  const EnvelopeKeys: seq<string> := ["count", "next", "previous", "results"]

  /** The page held by a decoded response. A missing member is a KeyError
      for the first one absent, in the order count, next, previous,
      results (not an InvalidResponse). */
  function Envelope(data: Dict): (r: Result<Page>)
    ensures r.Ok? <==> "count" in data && "next" in data && "previous" in data && "results" in data
    ensures r.Ok? <==> forall i :: 0 <= i < |EnvelopeKeys| ==> EnvelopeKeys[i] in data
    ensures r.Ok? ==> r.value == Page(data["count"], data["next"], data["previous"], data["results"])
    ensures r.Err? ==> exists i :: 0 <= i < |EnvelopeKeys| && r.error == KeyError(EnvelopeKeys[i]) &&
                                   EnvelopeKeys[i] !in data &&
                                   forall j :: 0 <= j < i ==> EnvelopeKeys[j] in data
  {
    assert EnvelopeKeys == ["count", "next", "previous", "results"];
    if "count" !in data then assert EnvelopeKeys[0] == "count"; Err(KeyError("count"))
    else if "next" !in data then assert EnvelopeKeys[1] == "next"; Err(KeyError("next"))
    else if "previous" !in data then assert EnvelopeKeys[2] == "previous"; Err(KeyError("previous"))
    else if "results" !in data then assert EnvelopeKeys[3] == "results"; Err(KeyError("results"))
    else Ok(Page(data["count"], data["next"], data["previous"], data["results"]))
  }

  // ---------------------------------------------------------------------
  // Endpoints

  /** The request classes. `Base` stands for the abstract classes
      (BaseRequest, SingleRequest, PaginatedRequest), which define neither
      a URI nor a method. */
  datatype Endpoint =
    | Base
    | Carriers
    | Carrier
    | CarrierTrackings
    | Trackings
    | TrackingByPackageId
    | TrackingByTrackingNumber
  {
    /** The classes that derive from PaginatedRequest. */
    predicate IsPaginated() {
      this == Base || this == Carriers || this == CarrierTrackings || this == Trackings
    }

    /** The classes that derive from SingleRequest. */
    predicate IsSingle() {
      this == Base || this == Carrier || this == TrackingByPackageId || this == TrackingByTrackingNumber
    }

    /** The `method` class attribute as the classes declare it: the abstract
        classes only annotate it, and CarrierRequest never sets it. */
    function DeclaredMethod(): (m: Option<string>)
      ensures m.None? <==> this == Base || this == Carrier
      ensures m.Some? ==> m.value == "GET"
    {
      if this == Base || this == Carrier then None else Some("GET")
    }

    /** The `method` attribute with CarrierRequest's omission corrected:
        every concrete endpoint is a GET. */
    function Method(): (m: Option<string>)
      ensures m.None? <==> this == Base
      ensures m.Some? ==> m.value == "GET"
      ensures this != Carrier ==> m == DeclaredMethod()
    {
      if this == Base then None else Some("GET")
    }

    /** The extra headers of a request: no class adds any. */
    function Headers(): (h: Headers)
      ensures |h| == 0
    {
      map[]
    }

    /** The path parameters the URI template reads. */
    function Params(): (ks: set<string>)
      ensures ks <= {"carrier_slug", "package_id", "tracking_number"}
    {
      match this
      case Carrier => {"carrier_slug"}
      case CarrierTrackings => {"carrier_slug"}
      case TrackingByPackageId => {"package_id"}
      case TrackingByTrackingNumber => {"carrier_slug", "tracking_number"}
      case _ => {}
    }

    /** The path of the endpoint, relative to the session's base URL. The
        abstract classes raise NotImplementedError; a missing parameter is
        a KeyError; parameters the template does not read are ignored. */
    function Uri(params: map<string, string>): (r: Result<string>)
      ensures this == Base ==> r == Err(NotImplemented)
      ensures this != Base ==> (r.Ok? <==> Params() <= params.Keys)
      ensures r.Ok? ==> |r.value| > 0 && r.value[0] == '/'
      ensures r.Err? && this != Base ==> r.error.KeyError? && r.error.key in Params() && r.error.key !in params
    {
      match this
      case Base => Err(NotImplemented)
      case Carriers => Ok("/carriers")
      case Carrier =>
        if "carrier_slug" !in params then Err(KeyError("carrier_slug"))
        else Ok("/carriers/" + params["carrier_slug"])
      case CarrierTrackings =>
        if "carrier_slug" !in params then Err(KeyError("carrier_slug"))
        else Ok("/carriers/" + params["carrier_slug"] + "/trackings")
      case Trackings => Ok("/trackings")
      case TrackingByPackageId =>
        if "package_id" !in params then Err(KeyError("package_id"))
        else Ok("/trackings/" + params["package_id"])
      case TrackingByTrackingNumber =>
        if "carrier_slug" !in params then Err(KeyError("carrier_slug"))
        else if "tracking_number" !in params then Err(KeyError("tracking_number"))
        else Ok("/carriers/" + params["carrier_slug"] + "/trackings/" + params["tracking_number"])
    }
  }

  /** The pieces of `s` between slashes. */
  function Split(s: string): (parts: seq<string>)
    ensures |parts| > 0
    decreases |s|
  {
    if s == [] then [""]
    else
      var rest := Split(s[1..]);
      if s[0] == '/' then [""] + rest else [[s[0]] + rest[0]] + rest[1..]
  }

  lemma {:induction false} SplitNoSlash(a: string)
    requires '/' !in a
    ensures Split(a) == [a]
    decreases |a|
  {
    if a != [] {
      assert a[0] in a;
      assert forall c :: c in a[1..] ==> c in a;
      SplitNoSlash(a[1..]);
      assert [a[0]] + a[1..] == a;
    }
  }

  lemma {:induction false} SplitJoin(a: string, b: string)
    requires '/' !in a
    ensures Split(a + "/" + b) == [a] + Split(b)
    decreases |a|
  {
    if a == [] {
      assert a + "/" + b == "/" + b;
      assert ("/" + b)[1..] == b;
    } else {
      assert a[0] in a;
      assert forall c :: c in a[1..] ==> c in a;
      assert (a + "/" + b)[0] == a[0];
      assert (a + "/" + b)[1..] == a[1..] + "/" + b;
      SplitJoin(a[1..], b);
      assert [a[0]] + a[1..] == a;
    }
  }

  /** The endpoint and path parameters a path was built from: the inverse
      of the URI templates. */
  function Route(path: string): Option<(Endpoint, map<string, string>)>
  {
    if |path| == 0 || path[0] != '/' then None else RouteSegments(Split(path[1..]))
  }

  /** The endpoint whose template has the segments `segs`. */
  function RouteSegments(segs: seq<string>): Option<(Endpoint, map<string, string>)>
  {
    if |segs| == 1 then
      if segs[0] == "carriers" then Some((Carriers, map[]))
      else if segs[0] == "trackings" then Some((Trackings, map[]))
      else None
    else if |segs| == 2 then
      if segs[0] == "carriers" then Some((Carrier, map["carrier_slug" := segs[1]]))
      else if segs[0] == "trackings" then Some((TrackingByPackageId, map["package_id" := segs[1]]))
      else None
    else if |segs| == 3 then
      if segs[0] == "carriers" && segs[2] == "trackings" then Some((CarrierTrackings, map["carrier_slug" := segs[1]]))
      else None
    else if |segs| == 4 then
      if segs[0] == "carriers" && segs[2] == "trackings" then
        Some((TrackingByTrackingNumber, map["carrier_slug" := segs[1], "tracking_number" := segs[3]]))
      else None
    else None
  }

  /** The parameters of `params` that endpoint `e` reads. */
  function Used(e: Endpoint, params: map<string, string>): map<string, string>
  {
    map k | k in params && k in e.Params() :: params[k]
  }

  lemma SplitTwo(a: string, b: string)
    requires '/' !in a && '/' !in b
    ensures Split(a + "/" + b) == [a, b]
  {
    SplitJoin(a, b);
    SplitNoSlash(b);
  }

  lemma SplitThree(a: string, b: string, c: string)
    requires '/' !in a && '/' !in b && '/' !in c
    ensures Split(a + "/" + (b + "/" + c)) == [a, b, c]
  {
    SplitJoin(a, b + "/" + c);
    SplitTwo(b, c);
  }

  lemma SplitFour(a: string, b: string, c: string, d: string)
    requires '/' !in a && '/' !in b && '/' !in c && '/' !in d
    ensures Split(a + "/" + (b + "/" + (c + "/" + d))) == [a, b, c, d]
  {
    SplitJoin(a, b + "/" + (c + "/" + d));
    SplitThree(b, c, d);
  }

  /** A path is a slash followed by its segments. */
  lemma RouteOfPath(rest: string)
    ensures Route("/" + rest) == RouteSegments(Split(rest))
  {
    assert ("/" + rest)[1..] == rest;
  }

  lemma RouteCarriers()
    ensures Route("/carriers") == Some((Carriers, map[]))
  {
    SplitNoSlash("carriers");
    RouteOfPath("carriers");
  }

  lemma RouteTrackings()
    ensures Route("/trackings") == Some((Trackings, map[]))
  {
    SplitNoSlash("trackings");
    RouteOfPath("trackings");
  }

  lemma RouteCarrier(slug: string)
    requires '/' !in slug
    ensures Route("/carriers/" + slug) == Some((Carrier, map["carrier_slug" := slug]))
  {
    SplitTwo("carriers", slug);
    RouteOfPath("carriers" + "/" + slug);
    assert "/carriers/" + slug == "/" + ("carriers" + "/" + slug);
  }

  lemma RoutePackage(id: string)
    requires '/' !in id
    ensures Route("/trackings/" + id) == Some((TrackingByPackageId, map["package_id" := id]))
  {
    SplitTwo("trackings", id);
    RouteOfPath("trackings" + "/" + id);
    assert "/trackings/" + id == "/" + ("trackings" + "/" + id);
  }

  lemma RouteCarrierTrackings(slug: string)
    requires '/' !in slug
    ensures Route("/carriers/" + slug + "/trackings") == Some((CarrierTrackings, map["carrier_slug" := slug]))
  {
    SplitThree("carriers", slug, "trackings");
    RouteOfPath("carriers" + "/" + (slug + "/" + "trackings"));
    assert "/carriers/" == "/" + "carriers" + "/" && "/trackings" == "/" + "trackings";
    Regroup3("/", "carriers", "/", slug, "trackings");
  }

  /** Regroups the path of the "/carriers/{slug}/trackings" template into
      the separator-joined segments that RouteOfPath splits. */
  lemma Regroup3(a: string, b: string, c: string, x: string, d: string)
    ensures (a + b + c) + x + (c + d) == a + (b + c + (x + c + d))
  {
  }

  /** Regroups the path of the "/carriers/{slug}/trackings/{number}" template
      into the separator-joined segments that RouteOfPath splits. */
  lemma Regroup4(a: string, b: string, c: string, x: string, d: string, y: string)
    ensures (a + b + c) + x + (c + d + c) + y == a + (b + c + (x + c + (d + c + y)))
  {
  }

  lemma RouteTrackingNumber(slug: string, number: string)
    requires '/' !in slug && '/' !in number
    ensures Route("/carriers/" + slug + "/trackings/" + number) ==
              Some((TrackingByTrackingNumber, map["carrier_slug" := slug, "tracking_number" := number]))
  {
    SplitFour("carriers", slug, "trackings", number);
    RouteOfPath("carriers" + "/" + (slug + "/" + ("trackings" + "/" + number)));
    assert "/carriers/" == "/" + "carriers" + "/" && "/trackings/" == "/" + "trackings" + "/";
    Regroup4("/", "carriers", "/", slug, "trackings", number);
  }

  /** The parameters an endpoint reads, when all are present. */
  lemma UsedParams(e: Endpoint, params: map<string, string>)
    requires e.Params() <= params.Keys
    ensures e.Params() == {} ==> Used(e, params) == map[]
    ensures e.Params() == {"carrier_slug"} ==> Used(e, params) == map["carrier_slug" := params["carrier_slug"]]
    ensures e.Params() == {"package_id"} ==> Used(e, params) == map["package_id" := params["package_id"]]
    ensures e.Params() == {"carrier_slug", "tracking_number"} ==>
              Used(e, params) == map["carrier_slug" := params["carrier_slug"], "tracking_number" := params["tracking_number"]]
  {
  }

  /** The six templates are distinct and lose nothing: as long as no path
      parameter holds a slash, the endpoint and the parameters it read can
      be recovered from the path. */
  lemma RouteInvertsUri(e: Endpoint, params: map<string, string>)
    requires e.Uri(params).Ok?
    requires forall k :: k in e.Params() && k in params ==> '/' !in params[k]
    ensures Route(e.Uri(params).value) == Some((e, Used(e, params)))
  {
    UsedParams(e, params);
    match e
    case Carriers => RouteCarriers();
    case Trackings => RouteTrackings();
    case Carrier => RouteCarrier(params["carrier_slug"]);
    case TrackingByPackageId => RoutePackage(params["package_id"]);
    case CarrierTrackings => RouteCarrierTrackings(params["carrier_slug"]);
    case TrackingByTrackingNumber => RouteTrackingNumber(params["carrier_slug"], params["tracking_number"]);
  }

  /** The templates do no validation: a carrier slug holding a slash names
      a different endpoint's path. */
  lemma SlashInSlugAliases(slug: string)
    ensures Carrier.Uri(map["carrier_slug" := slug + "/trackings"]) == CarrierTrackings.Uri(map["carrier_slug" := slug])
  {
    assert "/carriers/" + (slug + "/trackings") == "/carriers/" + slug + "/trackings";
  }

  // ---------------------------------------------------------------------
  // One authorised exchange

  /** The combined request headers: the session's headers with the call's
      headers laid over them, so the call's value wins on a shared key. */
  function Merge(auth: Headers, headers: Headers): (m: Headers)
    ensures m.Keys == auth.Keys + headers.Keys
    ensures forall k :: k in headers ==> m[k] == headers[k]
    ensures forall k :: k in auth && k !in headers ==> m[k] == auth[k]
  {
    auth + headers
  }

  /** The mapping a response decodes to: `dict(response.json())`, or
      InvalidResponse with the URI and raw text when the body is not JSON or
      not convertible to a dict. */
  function Decode(uri: string, resp: HttpResponse): (r: Result<Dict>)
    ensures resp.json.None? ==> r == Err(InvalidResponse(uri, resp.text))
    ensures resp.json.Some? && resp.json.value.JObject? ==> r == Ok(resp.json.value.fields)
    ensures r.Ok? ==> resp.json.Some? && ToDict(resp.json.value) == r
    ensures resp.json.Some? && ToDict(resp.json.value).Ok? ==> r == ToDict(resp.json.value)
    ensures r.Err? ==> || r.error == InvalidResponse(uri, resp.text)
                       || (resp.json.Some? && ToDict(resp.json.value) == Err(r.error) && r.error.Unsupported?)
    ensures resp.json.Some? && ToDict(resp.json.value).Err? && !ToDict(resp.json.value).error.Unsupported? ==>
              r == Err(InvalidResponse(uri, resp.text))
  {
    match resp.json
    case None => Err(InvalidResponse(uri, resp.text))
    case Some(body) =>
      match ToDict(body)
      case Ok(d) => Ok(d)
      case Err(Unsupported(v)) => Err(Unsupported(v))
      case Err(_) => Err(InvalidResponse(uri, resp.text))
  }

  /** What a call sent (oldest first) and what it returned. */
  datatype Call<T> = Call(sent: seq<HttpRequest>, result: Result<T>)

  /** One exchange, for the session's headers `auth`: no request at all
      when the session has no usable token; otherwise exactly one request,
      with the merged headers, and its response decoded, with no retry. */
  function Exchange(auth: Result<Headers>, respond: HttpRequest -> HttpResponse,
                    verb: string, uri: string, headers: Headers, data: Option<Body>): (c: Call<Dict>)
    ensures auth.Err? ==> c == Call([], Err(auth.error))
    ensures auth.Ok? ==> c.sent == [HttpRequest(verb, uri, Merge(auth.value, headers), data)]
    ensures auth.Ok? ==> c.result == Decode(uri, respond(c.sent[0]))
  {
    match auth
    case Err(e) => Call([], Err(e))
    case Ok(h) =>
      var req := HttpRequest(verb, uri, Merge(h, headers), data);
      Call([req], Decode(uri, respond(req)))
  }

  /** `BaseRequest._make_request`. */
  method MakeRequest(session: Session, verb: string, uri: string, headers: Headers, data: Option<Body>)
    returns (r: Result<Dict>)
    modifies session.client
    ensures var c := Exchange(AuthHeaders(session.token), session.client.respond, verb, uri, headers, data);
            session.client.sent == old(session.client.sent) + c.sent && r == c.result
  {
    var auth := AuthHeaders(session.token);
    if auth.Err? {
      return Err(auth.error);
    }
    var response := session.client.Request(HttpRequest(verb, uri, Merge(auth.value, headers), data));
    r := Decode(uri, response);
  }

  // ---------------------------------------------------------------------
  // Single-item requests

  /** `SingleRequest.request` for an endpoint whose `method` attribute is
      `attr`. The attribute is read first, then the URI is built, then the
      exchange is made; `parse_response` returns the mapping unchanged. */
  function SingleCall(attr: Option<string>, e: Endpoint, baseUrl: string, auth: Result<Headers>,
                      respond: HttpRequest -> HttpResponse, data: Option<Body>,
                      params: map<string, string>): (c: Call<Dict>)
    ensures attr.None? ==> c == Call([], Err(AttributeError("method")))
    ensures attr.Some? && e.Uri(params).Err? ==> c == Call([], Err(e.Uri(params).error))
    ensures attr.Some? && e.Uri(params).Ok? && auth.Err? ==> c == Call([], Err(auth.error))
    ensures |c.sent| <= 1
    ensures |c.sent| == 1 <==> attr.Some? && e.Uri(params).Ok? && auth.Ok?
    ensures |c.sent| == 1 ==>
              c.sent[0] == HttpRequest(attr.value, baseUrl + e.Uri(params).value, Merge(auth.value, e.Headers()), data)
    ensures |c.sent| == 1 ==> c.result == Decode(c.sent[0].url, respond(c.sent[0]))
    ensures c.result.Ok? ==> |c.sent| == 1
  {
    match attr
    case None => Call([], Err(AttributeError("method")))
    case Some(verb) =>
      match e.Uri(params)
      case Err(err) => Call([], Err(err))
      case Ok(path) => Exchange(auth, respond, verb, baseUrl + path, e.Headers(), data)
  }

  /** `SingleRequest.request`. */
  method SingleRequest(e: Endpoint, session: Session, data: Option<Body>, params: map<string, string>)
    returns (r: Result<Dict>)
    requires e.IsSingle()
    modifies session.client
    ensures var c := SingleCall(e.Method(), e, session.baseUrl, AuthHeaders(session.token),
                                session.client.respond, data, params);
            session.client.sent == old(session.client.sent) + c.sent && r == c.result
  {
    var verb := e.Method();
    if verb.None? {
      return Err(AttributeError("method"));
    }
    var path := e.Uri(params);
    if path.Err? {
      return Err(path.error);
    }
    r := MakeRequest(session, verb.value, session.baseUrl + path.value, e.Headers(), data);
  }

  // ---------------------------------------------------------------------
  // Paginated requests

  /** What stays the same across the pages of one paginated request. */
  datatype Context = Context(auth: Result<Headers>, respond: HttpRequest -> HttpResponse,
                             verb: string, headers: Headers, data: Option<Body>)

  /** What one page fetch decides: stop with an error, stop after this
      page (its `next` is null), or go on at the URL in `next`. */
  datatype PageStep = Failed(error: Error) | LastPage(page: Page) | NextPage(page: Page, url: string)

  datatype Fetch = Fetch(sent: seq<HttpRequest>, step: PageStep)

  /** The request every page fetch of a walk sends to `url`. */
  function PageRequest(ctx: Context, url: string): HttpRequest
    requires ctx.auth.Ok?
  {
    HttpRequest(ctx.verb, url, Merge(ctx.auth.value, ctx.headers), ctx.data)
  }

  /** One turn of the pagination loop at `url`: no request without a
      usable token; otherwise one request, whose page stops the loop when
      its `next` is null and continues it at `next` when that is a string.
      A `next` that is neither is passed on to the HTTP client as the next
      URL, which the model does not represent. */
  function FetchPage(ctx: Context, url: string): (f: Fetch)
    ensures |f.sent| <= 1
    ensures !f.step.Failed? ==> |f.sent| == 1 && f.sent[0].url == url
    ensures f.step.LastPage? ==> f.step.page.next == JNull
    ensures f.step.NextPage? ==> f.step.page.next == JStr(f.step.url)
    ensures ctx.auth.Err? ==> f == Fetch([], Failed(ctx.auth.error))
    ensures ctx.auth.Ok? ==> f.sent == [PageRequest(ctx, url)]
    ensures ctx.auth.Ok? ==>
              var p := PageOf(ctx, PageRequest(ctx, url));
              && (p.Err? ==> f.step == Failed(p.error))
              && (p.Ok? && p.value.next == JNull ==> f.step == LastPage(p.value))
              && (p.Ok? && p.value.next.JStr? ==> f.step == NextPage(p.value, p.value.next.s))
              && (p.Ok? && p.value.next != JNull && !p.value.next.JStr? ==> f.step == Failed(Unsupported(p.value.next)))
  {
    var c := Exchange(ctx.auth, ctx.respond, ctx.verb, url, ctx.headers, ctx.data);
    var step :=
      match c.result
      case Err(e) => Failed(e)
      case Ok(d) =>
        match Envelope(d)
        case Err(e) => Failed(e)
        case Ok(p) =>
          if p.next == JNull then LastPage(p)
          else if p.next.JStr? then NextPage(p, p.next.s)
          else Failed(Unsupported(p.next));
    Fetch(c.sent, step)
  }

  /** The chain of pages starting at `url` ends within `n` fetches. */
  predicate StopsWithin(ctx: Context, url: string, n: nat)
    decreases n
  {
    n > 0 &&
    var f := FetchPage(ctx, url);
    (f.step.NextPage? ==> StopsWithin(ctx, f.step.url, n - 1))
  }

  /** What a paginated walk sent and the pages it collected. */
  datatype Trace = Trace(sent: seq<HttpRequest>, pages: Result<seq<Page>>)

  /** `pages` collected and `sent` already sent before the walk `t`. */
  function Extend(pages: seq<Page>, sent: seq<HttpRequest>, t: Trace): Trace
  {
    Trace(sent + t.sent, match t.pages
                         case Ok(ps) => Ok(pages + ps)
                         case Err(e) => Err(e))
  }

  /** The page a request's response holds. */
  function PageOf(ctx: Context, req: HttpRequest): Result<Page>
  {
    match Decode(req.url, ctx.respond(req))
    case Err(e) => Err(e)
    case Ok(d) => Envelope(d)
  }

  /** The pagination loop from `url`: one request per page, the first to
      `url` and each later one to the previous page's `next`, verbatim,
      all with the same method, headers and body; it stops right after the
      first page whose `next` is null, with no limit on the number of
      pages. `n` only bounds the proof of termination. */
  function Walk(ctx: Context, url: string, ghost n: nat): (t: Trace)
    requires StopsWithin(ctx, url, n)
    decreases n
    ensures |t.sent| <= n
    ensures forall i :: 0 <= i < |t.sent| ==>
              ctx.auth.Ok? && t.sent[i] == HttpRequest(ctx.verb, t.sent[i].url, Merge(ctx.auth.value, ctx.headers), ctx.data)
    ensures t.sent != [] ==> t.sent[0].url == url
    ensures t.pages.Ok? ==> |t.pages.value| == |t.sent| > 0
  {
    var f := FetchPage(ctx, url);
    match f.step
    case Failed(e) => Trace(f.sent, Err(e))
    case LastPage(p) => Trace(f.sent, Ok([p]))
    case NextPage(p, next) => Extend([p], f.sent, Walk(ctx, next, n - 1))
  }

  /** A fetch that does not fail sent one request, whose response holds the page fetched. */
  lemma FetchPageIsPageOf(ctx: Context, url: string)
    ensures var f := FetchPage(ctx, url);
            !f.step.Failed? ==> |f.sent| == 1 && PageOf(ctx, f.sent[0]) == Ok(f.step.page)
  {
  }

  /** A walk that goes on after its first page: the first request and page,
      then the walk from `next`. */
  lemma WalkUnfold(ctx: Context, url: string, n: nat)
    requires StopsWithin(ctx, url, n) && FetchPage(ctx, url).step.NextPage?
    ensures var f := FetchPage(ctx, url);
            var t := Walk(ctx, url, n);
            var rest := Walk(ctx, f.step.url, n - 1);
            && StopsWithin(ctx, f.step.url, n - 1)
            && t.sent == f.sent + rest.sent
            && (t.pages.Ok? <==> rest.pages.Ok?)
            && (t.pages.Ok? ==> t.pages.value == [f.step.page] + rest.pages.value)
            && |f.sent| == 1
            && (forall i :: 0 < i < |t.sent| ==> t.sent[i] == rest.sent[i - 1])
            && (t.pages.Ok? ==> forall i :: 0 < i < |t.pages.value| ==> t.pages.value[i] == rest.pages.value[i - 1])
  {
  }

  /** Request `i` of `sent` was answered with page `i` of `pages`, for every `i`. */
  predicate PagesMatch(ctx: Context, sent: seq<HttpRequest>, pages: seq<Page>)
  {
    |sent| == |pages| && forall i :: 0 <= i < |sent| ==> PageOf(ctx, sent[i]) == Ok(pages[i])
  }

  lemma PagesMatchCons(ctx: Context, req: HttpRequest, p: Page, sent: seq<HttpRequest>, pages: seq<Page>)
    requires PageOf(ctx, req) == Ok(p) && PagesMatch(ctx, sent, pages)
    ensures PagesMatch(ctx, [req] + sent, [p] + pages)
  {
    forall i | 0 < i < |sent| + 1 ensures PageOf(ctx, ([req] + sent)[i]) == Ok(([p] + pages)[i]) {
      assert ([req] + sent)[i] == sent[i - 1];
      assert ([p] + pages)[i] == pages[i - 1];
    }
  }

  /** On success, page `i` is the envelope of the response to request `i`. */
  lemma {:induction false} WalkPagesAreResponses(ctx: Context, url: string, n: nat)
    requires StopsWithin(ctx, url, n) && Walk(ctx, url, n).pages.Ok?
    ensures PagesMatch(ctx, Walk(ctx, url, n).sent, Walk(ctx, url, n).pages.value)
    decreases n
  {
    var f := FetchPage(ctx, url);
    FetchPageIsPageOf(ctx, url);
    if f.step.NextPage? {
      WalkUnfold(ctx, url, n);
      var rest := Walk(ctx, f.step.url, n - 1);
      WalkPagesAreResponses(ctx, f.step.url, n - 1);
      PagesMatchCons(ctx, f.sent[0], f.step.page, rest.sent, rest.pages.value);
      assert f.sent == [f.sent[0]];
    }
  }

  /** On success, every request after the first goes to the previous page's
      `next`, verbatim; the last page's `next` is null and no earlier one is. */
  lemma {:induction false} WalkFollowsNext(ctx: Context, url: string, n: nat)
    requires StopsWithin(ctx, url, n)
    requires Walk(ctx, url, n).pages.Ok?
    ensures var t := Walk(ctx, url, n);
            && (forall i :: 1 <= i < |t.sent| ==> t.pages.value[i - 1].next == JStr(t.sent[i].url))
            && t.pages.value[|t.pages.value| - 1].next == JNull
            && (forall i :: 0 <= i < |t.pages.value| - 1 ==> t.pages.value[i].next != JNull)
    decreases n
  {
    var f := FetchPage(ctx, url);
    if f.step.NextPage? {
      WalkUnfold(ctx, url, n);
      WalkFollowsNext(ctx, f.step.url, n - 1);
      var rest := Walk(ctx, f.step.url, n - 1);
      var t := Walk(ctx, url, n);
      forall i | 1 <= i < |t.sent| ensures t.pages.value[i - 1].next == JStr(t.sent[i].url) {
        if i > 1 {
          assert t.sent[i] == rest.sent[i - 1];
          assert t.pages.value[i - 1] == rest.pages.value[i - 2];
        }
      }
    }
  }

  /** Every fetch of a walk but the last went on to a next page; the last
      one decides the outcome: the walk succeeds exactly when it stopped on
      a null `next`, and fails with the error that fetch failed with. No
      request is sent only when there is no usable token. */
  lemma {:induction false} WalkSteps(ctx: Context, url: string, n: nat)
    requires StopsWithin(ctx, url, n)
    ensures var t := Walk(ctx, url, n);
            && (t.sent == [] <==> ctx.auth.Err?)
            && (ctx.auth.Err? ==> t.pages == Err(ctx.auth.error))
            && (forall i :: 0 <= i < |t.sent| - 1 ==> FetchPage(ctx, t.sent[i].url).step.NextPage?)
            && (t.sent != [] ==>
                  var last := FetchPage(ctx, t.sent[|t.sent| - 1].url).step;
                  && (t.pages.Ok? <==> last.LastPage?)
                  && (t.pages.Err? ==> last == Failed(t.pages.error)))
    decreases n
  {
    var t := Walk(ctx, url, n);
    WalkChain(ctx, url, n);
    forall i | 0 <= i < |t.sent| - 1 ensures FetchPage(ctx, t.sent[i].url).step.NextPage? {
      assert t.sent[i + 1] == t.sent[i + 1];
    }
    var f := FetchPage(ctx, url);
    if f.step.NextPage? {
      WalkUnfold(ctx, url, n);
      WalkSteps(ctx, f.step.url, n - 1);
      var rest := Walk(ctx, f.step.url, n - 1);
      assert t.sent[|t.sent| - 1] == rest.sent[|rest.sent| - 1];
    }
  }

  /** Each request of `sent` after the first went to the `next` of the page
      fetched by the request before it, verbatim. */
  ghost predicate Chained(ctx: Context, sent: seq<HttpRequest>)
  {
    forall i {:trigger sent[i + 1]} :: 0 <= i < |sent| - 1 ==>
      var step := FetchPage(ctx, sent[i].url).step;
      step.NextPage? && step.url == sent[i + 1].url
  }

  /** A request whose page leads to the first of a chain of requests starts
      a longer chain. */
  lemma ChainedCons(ctx: Context, r: HttpRequest, rest: seq<HttpRequest>)
    requires Chained(ctx, rest)
    requires rest != [] ==> FetchPage(ctx, r.url).step.NextPage? && FetchPage(ctx, r.url).step.url == rest[0].url
    ensures Chained(ctx, [r] + rest)
  {
    var s := [r] + rest;
    forall i | 0 <= i < |s| - 1
      ensures FetchPage(ctx, s[i].url).step.NextPage? && FetchPage(ctx, s[i].url).step.url == s[i + 1].url
    {
      if i > 0 {
        var j := i - 1;
        assert s[i] == rest[j] && s[i + 1] == rest[j + 1];
      }
    }
  }

  /** Whether or not the walk succeeds, every request after the first went
      to the `next` of the page fetched by the request before it, verbatim. */
  lemma {:induction false} WalkChain(ctx: Context, url: string, n: nat)
    requires StopsWithin(ctx, url, n)
    ensures Chained(ctx, Walk(ctx, url, n).sent)
    decreases n
  {
    if |Walk(ctx, url, n).sent| >= 2 {
      var next := WalkSentUnfold(ctx, url, n);
      WalkChain(ctx, next, n - 1);
      ChainedCons(ctx, PageRequest(ctx, url), Walk(ctx, next, n - 1).sent);
    }
  }

  /** A walk of two or more requests went on after its first page, to
      `next`: its requests are the first page request, then the walk's
      from `next`. */
  lemma WalkSentUnfold(ctx: Context, url: string, n: nat) returns (next: string)
    requires StopsWithin(ctx, url, n) && |Walk(ctx, url, n).sent| >= 2
    ensures FetchPage(ctx, url).step.NextPage? && FetchPage(ctx, url).step.url == next
    ensures StopsWithin(ctx, next, n - 1)
    ensures Walk(ctx, url, n).sent == [PageRequest(ctx, url)] + Walk(ctx, next, n - 1).sent
  {
    next := FetchPage(ctx, url).step.url;
  }

  /** One turn of the loop: how the walk from `url` continues, given what
      the turn fetched, for a walk that has already collected `pages`. */
  lemma WalkStep(ctx: Context, url: string, n: nat, pages: seq<Page>, sent: seq<HttpRequest>, whole: Trace)
    requires StopsWithin(ctx, url, n)
    requires whole == Extend(pages, sent, Walk(ctx, url, n))
    ensures var f := FetchPage(ctx, url);
            && (f.step.Failed? ==> whole == Trace(sent + f.sent, Err(f.step.error)))
            && (f.step.LastPage? ==> whole == Trace(sent + f.sent, Ok(pages + [f.step.page])))
            && (f.step.NextPage? ==>
                  StopsWithin(ctx, f.step.url, n - 1) &&
                  whole == Extend(pages + [f.step.page], sent + f.sent, Walk(ctx, f.step.url, n - 1)))
  {
    var f := FetchPage(ctx, url);
    if f.step.NextPage? {
      ExtendTwice(pages, sent, f.step.page, f.sent, Walk(ctx, f.step.url, n - 1));
    }
  }

  /** Regrouping a concatenation. Called as a lemma, rather than asserted
      inline, so that the loop of CollectPages sees only this one instance. */
  lemma AppendAssoc<T>(a: seq<T>, b: seq<T>, c: seq<T>)
    ensures (a + b) + c == a + (b + c)
  {
  }

  /** Extending a walk twice is extending it once with both prefixes. */
  lemma ExtendTwice(pages: seq<Page>, sent: seq<HttpRequest>, p: Page, more: seq<HttpRequest>, t: Trace)
    ensures Extend(pages, sent, Extend([p], more, t)) == Extend(pages + [p], sent + more, t)
  {
    assert sent + (more + t.sent) == (sent + more) + t.sent;
    if t.pages.Ok? {
      assert pages + ([p] + t.pages.value) == (pages + [p]) + t.pages.value;
    }
  }

  // ---------------------------------------------------------------------
  // Concatenating the pages

  /** `parse_responses`: the pages' results extended into one list, in page
      order; iterating a page's `results` may fail (see Wire.Iterate), and
      the first failing page decides the error. */
  function Flatten(pages: seq<Page>): (r: Result<seq<Json>>)
    decreases |pages|
  {
    if pages == [] then Ok([])
    else
      match Iterate(pages[0].results)
      case Err(e) => Err(e)
      case Ok(items) =>
        match Flatten(pages[1..])
        case Err(e) => Err(e)
        case Ok(rest) => Ok(items + rest)
  }

  /** Flattening one more page extends the flattened prefix. */
  lemma {:induction false} FlattenSnoc(pages: seq<Page>, p: Page)
    ensures Flatten(pages + [p]) ==
              match Flatten(pages)
              case Err(e) => Err(e)
              case Ok(xs) => (match Iterate(p.results)
                              case Err(e) => Err(e)
                              case Ok(ys) => Ok(xs + ys))
    decreases |pages|
  {
    if pages == [] {
      assert [] + [p] == [p];
      assert [p][1..] == [];
      assert Flatten([p][1..]) == Ok([]);
      if Iterate(p.results).Ok? {
        var ys := Iterate(p.results).value;
        assert ys + [] == [] + ys;
      }
    } else {
      assert (pages + [p])[0] == pages[0];
      assert (pages + [p])[1..] == pages[1..] + [p];
      FlattenSnoc(pages[1..], p);
      if Iterate(pages[0].results).Ok? && Flatten(pages[1..]).Ok? && Iterate(p.results).Ok? {
        var items := Iterate(pages[0].results).value;
        assert items + (Flatten(pages[1..]).value + Iterate(p.results).value)
            == (items + Flatten(pages[1..]).value) + Iterate(p.results).value;
      }
    }
  }

  /** The number of items a page contributes (none if its results cannot be iterated). */
  function Size(p: Page): nat
  {
    if Iterate(p.results).Ok? then |Iterate(p.results).value| else 0
  }

  /** The number of items the pages contribute together. */
  function TotalSize(pages: seq<Page>): nat
    decreases |pages|
  {
    if pages == [] then 0 else Size(pages[0]) + TotalSize(pages[1..])
  }

  /** Concatenation succeeds exactly when every page's results can be iterated. */
  lemma {:induction false} FlattenOk(pages: seq<Page>)
    ensures Flatten(pages).Ok? <==> forall i :: 0 <= i < |pages| ==> Iterate(pages[i].results).Ok?
    decreases |pages|
  {
    if pages != [] {
      FlattenOk(pages[1..]);
      assert forall i :: 0 <= i < |pages| - 1 ==> pages[1..][i] == pages[i + 1];
      if forall i :: 0 <= i < |pages| ==> Iterate(pages[i].results).Ok? {
        assert Iterate(pages[0].results).Ok?;
      }
    }
  }

  /** The concatenation holds every item of every page, in page order and
      then in order within the page: item `j` of page `i` sits after all
      the items of the pages before it. */
  lemma {:induction false} FlattenOrder(pages: seq<Page>, i: nat, j: nat)
    requires Flatten(pages).Ok? && i < |pages|
    requires Iterate(pages[i].results).Ok? && j < |Iterate(pages[i].results).value|
    ensures |Flatten(pages).value| == TotalSize(pages)
    ensures TotalSize(pages[..i]) + j < |Flatten(pages).value|
    ensures Flatten(pages).value[TotalSize(pages[..i]) + j] == Iterate(pages[i].results).value[j]
    decreases |pages|
  {
    FlattenSizeOnly(pages);
    var items := Iterate(pages[0].results).value;
    var rest := Flatten(pages[1..]).value;
    assert Flatten(pages).value == items + rest;
    if i == 0 {
      assert pages[..0] == [];
    } else {
      assert pages[1..][i - 1] == pages[i];
      FlattenOrder(pages[1..], i - 1, j);
      assert pages[..i][1..] == pages[1..][..i - 1];
      assert TotalSize(pages[..i]) == Size(pages[0]) + TotalSize(pages[1..][..i - 1]);
    }
  }

  /** The concatenation has as many items as the pages together. */
  lemma {:induction false} FlattenSizeOnly(pages: seq<Page>)
    requires Flatten(pages).Ok?
    ensures |Flatten(pages).value| == TotalSize(pages)
    decreases |pages|
  {
    if pages != [] {
      FlattenSizeOnly(pages[1..]);
    }
  }

  /** `PaginatedRequest.parse_responses`. */
  method ParseResponses(responses: seq<Page>) returns (r: Result<seq<Json>>)
    ensures r == Flatten(responses)
  {
    var results: seq<Json> := [];
    for i := 0 to |responses|
      invariant Flatten(responses[..i]) == Ok(results)
    {
      FlattenSnoc(responses[..i], responses[i]);
      assert responses[..i + 1] == responses[..i] + [responses[i]];
      var items := Iterate(responses[i].results);
      if items.Err? {
        FlattenErrorPrefix(responses[..i + 1], responses[i + 1..]);
        assert responses[..i + 1] + responses[i + 1..] == responses;
        return Err(items.error);
      }
      results := results + items.value;
    }
    assert responses[..|responses|] == responses;
    r := Ok(results);
  }

  /** An error in a prefix of the pages is the error of all of them. */
  lemma {:induction false} FlattenErrorPrefix(pages: seq<Page>, more: seq<Page>)
    requires Flatten(pages).Err?
    ensures Flatten(pages + more) == Flatten(pages)
    decreases |pages|
  {
    assert pages != [];
    assert (pages + more)[0] == pages[0];
    assert (pages + more)[1..] == pages[1..] + more;
    if Iterate(pages[0].results).Ok? {
      FlattenErrorPrefix(pages[1..], more);
    }
  }

  // ---------------------------------------------------------------------
  // The paginated request

  /** The pagination of endpoint `e` ends within `n` pages (or fails before
      the first request). */
  predicate PaginationStops(e: Endpoint, baseUrl: string, auth: Result<Headers>,
                            respond: HttpRequest -> HttpResponse, data: Option<Body>,
                            params: map<string, string>, n: nat)
  {
    e.Uri(params).Ok? && e.Method().Some? ==>
      StopsWithin(Context(auth, respond, e.Method().value, e.Headers(), data), baseUrl + e.Uri(params).value, n)
  }

  /** The result of a paginated request once its walk has ended: the
      walk's error, or the concatenation of its pages' results. */
  function Conclude(t: Trace): Call<seq<Json>>
  {
    match t.pages
    case Err(err) => Call(t.sent, Err(err))
    case Ok(pages) => Call(t.sent, Flatten(pages))
  }

  /** `PaginatedRequest.request`: the URI is built first, then the `method`
      attribute is read on the first turn of the loop, then the pages are
      walked from `baseUrl + uri` and their results concatenated. */
  function PaginatedCall(e: Endpoint, baseUrl: string, auth: Result<Headers>,
                         respond: HttpRequest -> HttpResponse, data: Option<Body>,
                         params: map<string, string>, ghost n: nat): (c: Call<seq<Json>>)
    requires PaginationStops(e, baseUrl, auth, respond, data, params, n)
    ensures e.Uri(params).Err? ==> c == Call([], Err(e.Uri(params).error))
    ensures e.Uri(params).Ok? && e.Method().None? ==> c == Call([], Err(AttributeError("method")))
    ensures e.Uri(params).Ok? && e.Method().Some? && auth.Err? ==> c == Call([], Err(auth.error))
    ensures |c.sent| <= n
    ensures c.sent != [] ==> c.sent[0].url == baseUrl + e.Uri(params).value
    ensures forall i :: 0 <= i < |c.sent| ==>
              && auth.Ok? && e.Method().Some?
              && c.sent[i] == HttpRequest(e.Method().value, c.sent[i].url, Merge(auth.value, e.Headers()), data)
    ensures c.result.Ok? ==> |c.sent| > 0
  {
    match e.Uri(params)
    case Err(err) => Call([], Err(err))
    case Ok(path) =>
      match e.Method()
      case None => Call([], Err(AttributeError("method")))
      case Some(verb) =>
        Conclude(Walk(Context(auth, respond, verb, e.Headers(), data), baseUrl + path, n))
  }

  /** The requests `c.sent` and result `c.result` of a paginated call in
      context `ctx`: nothing is sent exactly when the token is unusable;
      every request but the last went on to a next page, and the following
      request went to that page's `next`, verbatim; a success ended on a
      null `next`; when the last request stopped on a null `next`, the
      result is the concatenation of the results of pages that answer the
      requests one for one; when it failed, the result is its error. */
  ghost predicate Concludes(ctx: Context, c: Call<seq<Json>>)
  {
    && (c.sent == [] <==> ctx.auth.Err?)
    && Chained(ctx, c.sent)
    && (c.sent != [] ==>
          var last := FetchPage(ctx, c.sent[|c.sent| - 1].url).step;
          && (c.result.Ok? ==> last.LastPage?)
          && (last.LastPage? ==> exists pages :: PagesMatch(ctx, c.sent, pages) && c.result == Flatten(pages))
          && (last.Failed? ==> c.result == Err(last.error)))
  }

  /** What a paginated request returns once its URI and method are known:
      every request but the last went on to a next page, and the following
      request went to that page's `next`, verbatim; when the last
      stopped on a null `next`, the result is the concatenation of the
      results of pages that answer the requests one for one; when it
      failed, the result is its error. */
  lemma PaginatedCallResult(e: Endpoint, baseUrl: string, auth: Result<Headers>,
                            respond: HttpRequest -> HttpResponse, data: Option<Body>,
                            params: map<string, string>, n: nat)
    requires PaginationStops(e, baseUrl, auth, respond, data, params, n)
    requires e.Uri(params).Ok? && e.Method().Some?
    ensures Concludes(Context(auth, respond, e.Method().value, e.Headers(), data),
                      PaginatedCall(e, baseUrl, auth, respond, data, params, n))
  {
    var ctx := Context(auth, respond, e.Method().value, e.Headers(), data);
    var url := baseUrl + e.Uri(params).value;
    WalkConclusion(ctx, url, n);
    assert PaginatedCall(e, baseUrl, auth, respond, data, params, n) == Conclude(Walk(ctx, url, n));
  }

  /** The conclusion of a walk: see PaginatedCallResult. */
  lemma WalkConclusion(ctx: Context, url: string, n: nat)
    requires StopsWithin(ctx, url, n)
    ensures Concludes(ctx, Conclude(Walk(ctx, url, n)))
  {
    var t := Walk(ctx, url, n);
    WalkSteps(ctx, url, n);
    WalkChain(ctx, url, n);
    if t.pages.Ok? {
      WalkPagesAreResponses(ctx, url, n);
      assert PagesMatch(ctx, t.sent, t.pages.value);
    }
  }

  /** One turn of the `while True` loop: fetch the page at `url` and
      decide whether to stop or go on. */
  method FetchStep(session: Session, verb: string, url: string, headers: Headers, data: Option<Body>, ghost ctx: Context)
    returns (step: PageStep)
    requires ctx == Context(AuthHeaders(session.token), session.client.respond, verb, headers, data)
    modifies session.client
    ensures session.client.sent == old(session.client.sent) + FetchPage(ctx, url).sent
    ensures step == FetchPage(ctx, url).step
  {
    var d := MakeRequest(session, verb, url, headers, data);
    if d.Err? {
      return Failed(d.error);
    }
    var page := Envelope(d.value);
    if page.Err? {
      return Failed(page.error);
    }
    if page.value.next == JNull {
      return LastPage(page.value);
    }
    if !page.value.next.JStr? {
      return Failed(Unsupported(page.value.next));
    }
    step := NextPage(page.value, page.value.next.s);
  }

  /** The `while True` loop of `PaginatedRequest.request`: fetch the page
      at `uri`, append it, and follow its `next` until one is null. */
  method CollectPages(session: Session, verb: string, uri: string, headers: Headers, data: Option<Body>,
                      ghost ctx: Context, ghost n: nat)
    returns (responses: Result<seq<Page>>)
    requires ctx == Context(AuthHeaders(session.token), session.client.respond, verb, headers, data)
    requires StopsWithin(ctx, uri, n)
    modifies session.client
    ensures session.client.sent == old(session.client.sent) + Walk(ctx, uri, n).sent
    ensures responses == Walk(ctx, uri, n).pages
  {
    ghost var whole := Walk(ctx, uri, n);
    ghost var remaining := n;
    ghost var sentSoFar: seq<HttpRequest> := [];
    var pages: seq<Page> := [];
    var target := uri;
    assert [] + whole.sent == whole.sent;
    assert whole.pages.Ok? ==> [] + whole.pages.value == whole.pages.value;
    assert Extend(pages, sentSoFar, Walk(ctx, target, remaining)) == whole;
    while true
      invariant ctx.auth == AuthHeaders(session.token) && ctx.respond == session.client.respond
      invariant StopsWithin(ctx, target, remaining)
      invariant session.client.sent == old(session.client.sent) + sentSoFar
      invariant whole == Extend(pages, sentSoFar, Walk(ctx, target, remaining))
      decreases remaining
    {
      ghost var f := FetchPage(ctx, target);
      WalkStep(ctx, target, remaining, pages, sentSoFar, whole);
      var step := FetchStep(session, verb, target, headers, data, ctx);
      AppendAssoc(old(session.client.sent), sentSoFar, f.sent);
      sentSoFar := sentSoFar + f.sent;
      assert session.client.sent == old(session.client.sent) + sentSoFar;
      match step
      case Failed(e) =>
        assert whole.sent == sentSoFar && whole.pages == Err(e);
        return Err(e);
      case LastPage(p) =>
        assert whole.sent == sentSoFar && whole.pages == Ok(pages + [p]);
        return Ok(pages + [p]);
      case NextPage(p, next) =>
        pages := pages + [p];
        target := next;
        remaining := remaining - 1;
    }
  }

  /** `PaginatedRequest.request`. */
  method PaginatedRequest(e: Endpoint, session: Session, data: Option<Body>, params: map<string, string>, ghost n: nat)
    returns (r: Result<seq<Json>>)
    requires e.IsPaginated()
    requires PaginationStops(e, session.baseUrl, AuthHeaders(session.token), session.client.respond, data, params, n)
    modifies session.client
    ensures var c := PaginatedCall(e, session.baseUrl, AuthHeaders(session.token), session.client.respond, data, params, n);
            session.client.sent == old(session.client.sent) + c.sent && r == c.result
  {
    var path := e.Uri(params);
    if path.Err? {
      return Err(path.error);
    }
    var uri := session.baseUrl + path.value;
    var verb := e.Method();
    if verb.None? {
      return Err(AttributeError("method"));
    }
    ghost var ctx := Context(AuthHeaders(session.token), session.client.respond, verb.value, e.Headers(), data);
    var responses := CollectPages(session, verb.value, uri, e.Headers(), data, ctx, n);
    if responses.Err? {
      return Err(responses.error);
    }
    r := ParseResponses(responses.value);
  }

  // ---------------------------------------------------------------------
  // Whole requests

  /** A single page whose `next` is null: one request, and the result is
      that page's results. */
  lemma OnePage(ctx: Context, url: string, p: Page)
    requires ctx.auth.Ok? && PageOf(ctx, PageRequest(ctx, url)) == Ok(p)
    requires p.next == JNull && Iterate(p.results).Ok?
    ensures StopsWithin(ctx, url, 1)
    ensures Conclude(Walk(ctx, url, 1)) == Call([PageRequest(ctx, url)], Ok(Iterate(p.results).value))
  {
    assert FetchPage(ctx, url) == Fetch([PageRequest(ctx, url)], LastPage(p));
    assert [p][1..] == [];
    assert Flatten([p]) == Ok(Iterate(p.results).value + []);
    assert Iterate(p.results).value + [] == Iterate(p.results).value;
  }

  /** Two pages, the first linking to `next` and the second ending the
      chain: two requests, the second to `next` verbatim, and the results
      of the first page followed by those of the second. */
  lemma TwoPages(ctx: Context, url: string, next: string, p1: Page, p2: Page)
    requires ctx.auth.Ok?
    requires PageOf(ctx, PageRequest(ctx, url)) == Ok(p1) && p1.next == JStr(next)
    requires PageOf(ctx, PageRequest(ctx, next)) == Ok(p2) && p2.next == JNull
    requires Iterate(p1.results).Ok? && Iterate(p2.results).Ok?
    ensures StopsWithin(ctx, url, 2)
    ensures Conclude(Walk(ctx, url, 2)) ==
              Call([PageRequest(ctx, url), PageRequest(ctx, next)],
                   Ok(Iterate(p1.results).value + Iterate(p2.results).value))
  {
    OnePage(ctx, next, p2);
    assert Walk(ctx, url, 2) == Extend([p1], [PageRequest(ctx, url)], Walk(ctx, next, 1));
    assert [p1, p2][1..] == [p2];
    assert [p2][1..] == [];
  }

  /** A session without a token sends nothing: every request fails with
      NotAuthorized before any HTTP call. */
  lemma NoTokenNoRequest(e: Endpoint, baseUrl: string, respond: HttpRequest -> HttpResponse,
                         data: Option<Body>, params: map<string, string>, n: nat)
    requires e.Uri(params).Ok? && e.Method().Some?
    requires PaginationStops(e, baseUrl, AuthHeaders(JNull), respond, data, params, n)
    ensures SingleCall(e.Method(), e, baseUrl, AuthHeaders(JNull), respond, data, params) == Call([], Err(NotAuthorized))
    ensures PaginatedCall(e, baseUrl, AuthHeaders(JNull), respond, data, params, n) == Call([], Err(NotAuthorized))
  {
  }

  /** CarrierRequest as written: the class sets no `method`, so reading it
      raises AttributeError before any request is sent, whatever the
      session, the server and the parameters. */
  lemma CarrierRequestAsWritten(baseUrl: string, auth: Result<Headers>, respond: HttpRequest -> HttpResponse,
                                data: Option<Body>, params: map<string, string>)
    ensures SingleCall(Carrier.DeclaredMethod(), Carrier, baseUrl, auth, respond, data, params)
            == Call([], Err(AttributeError("method")))
  {
  }

  /** CarrierRequest corrected: one GET to `/carriers/{carrier_slug}`
      under the base URL, with the session's headers, whose decoded
      response is the result. */
  lemma CarrierRequestCorrected(baseUrl: string, auth: Result<Headers>, respond: HttpRequest -> HttpResponse,
                                data: Option<Body>, params: map<string, string>)
    requires auth.Ok? && "carrier_slug" in params
    ensures var c := SingleCall(Carrier.Method(), Carrier, baseUrl, auth, respond, data, params);
            var req := HttpRequest("GET", baseUrl + "/carriers/" + params["carrier_slug"], auth.value, data);
            c == Call([req], Decode(req.url, respond(req)))
  {
    assert Merge(auth.value, Carrier.Headers()) == auth.value;
    assert baseUrl + ("/carriers/" + params["carrier_slug"]) == baseUrl + "/carriers/" + params["carrier_slug"];
  }
}
