# scurri tracking client, modelled in Dafny

scurri is a small Python client for the Scurri tracking API. This project
models its core:

- **The API session** (`scurri/apisession.py`). It picks the base URL,
  holds the authorisation token obtained from `/authorizations`, and turns
  the token into request headers.
- **The request engine** (`scurri/request.py`). It covers:
  - the six endpoint URI templates;
  - one authorised HTTP exchange, whose JSON body is read with `dict()`;
  - single-item requests;
  - paginated requests. These follow each page's `next` link until it is
    null, then concatenate the pages' `results`.
- **The domain mapper** (`scurri/models.py`). It builds carriers, tracking
  events and tracked packages from decoded JSON.

The modules are:

- `wire.dfy` (`Wire`): decoded JSON values and the client's exceptions as
  a `Result` error type. It also models the Python built-ins the client
  applies to decoded JSON: subscripting, iteration and `dict()`.
- `transport.dfy` (`Transport`): the HTTP client. A fixed oracle answers
  every request, and the client keeps a log of every request it was asked
  to send. This lets the contracts state the number, order and content of
  the calls.
- `apisession.dfy` (`ApiSession`): the `Session` class. Its `token` field
  changes in place when `Auth` runs.
- `request.dfy` (`Request`): the endpoint datatype, the exchange, and the
  two request kinds.
  - Each state-changing method is proved against a function of its
    inputs: `MakeRequest` against `Exchange`, `SingleRequest` against
    `SingleCall`, `CollectPages` against `Walk`, `ParseResponses` against
    `Flatten`, and `PaginatedRequest` against `PaginatedCall`.
  - Lemmas then state what those functions promise.
- `models.dfy` (`Models`): the three model constructors, as functions.

The paginated loop in the code is an unbounded `while True`. It has no
retry and no page ceiling, and the model follows the code. The loop's
methods take a ghost bound `n` and require that the page chain ends within
`n` fetches. This bound only serves the termination proof: no page limit
is modelled.

The five files are verified together, with or without
`--warn-contradictory-assumptions`:

    dafny verify --resource-limit 2000000 --verification-time-limit 0 wire.dfy transport.dfy apisession.dfy request.dfy models.dfy

## Model

| member | source | states |
|---|---|---|
| Wire.Subscript | scurri/models.py:18-21 | `data[key]` succeeds exactly on an object holding the key, with the value stored there. A missing key is a KeyError naming it. Any other JSON value is a TypeError. |
| Wire.Iterate | scurri/request.py:128-129 | Extending a list with a JSON value yields an array's items in order, or a string's characters. The scalars are a TypeError. |
| Wire.ToDict | scurri/request.py:58 | `dict(body)` copies an object. It builds an array from its pairs. It accepts only the empty string. The scalars are a TypeError. |
| Wire.DictFromPairsOk | scurri/request.py:58 | `dict()` over an array succeeds exactly when every element is a key-value pair. |
| Wire.DictFromPairsKeys | scurri/request.py:58 | The keys of the dict built from pairs are exactly the pairs' keys. |
| Wire.DictFromPairsLastWins | scurri/request.py:58 | Each key of the built dict maps to the value of the last pair carrying that key. |
| Transport.HttpClient.constructor | scurri/apisession.py:28 | A new client has sent nothing and answers through the given server. |
| Transport.HttpClient.Request | scurri/request.py:51-56 | Sending a request appends exactly that request to the log and returns the server's answer to it. |
| ApiSession.BaseUrl | scurri/apisession.py:21-26 | The base URL is the staging URL exactly when staging is asked for, and the live URL exactly otherwise. |
| ApiSession.Session.constructor | scurri/apisession.py:21-28 | A new session has the chosen base URL and no token, so its headers fail with NotAuthorized. Its client is fresh and has sent nothing. |
| ApiSession.TokenFrom | scurri/apisession.py:44-48 | A token is read exactly when the body is a JSON object with "token", and it is taken verbatim. A body that is not JSON, or an object without "token", is InvalidAuthRequestResponse carrying the raw text. Any other JSON body is an uncaught TypeError. |
| ApiSession.Session.Auth | scurri/apisession.py:30-48 | Exactly one POST is sent to `base_url + "/authorizations"` with the username and password as body. The token becomes the response's token on success. On an exception the token is left unchanged. |
| ApiSession.AuthHeaders | scurri/apisession.py:50-54 | No token is NotAuthorized. A string token T gives exactly `{"Authorization": "Token " + T}`. |
| ApiSession.AuthorisedHeaders | scurri/apisession.py:46-54 | After an authorisation that returns the string token T, the headers are `Authorization: Token T`. A JSON null token leaves the session unauthorised. |
| Request.Envelope | scurri/request.py:17-22 | A page needs all of count, next, previous and results, which are copied verbatim. A missing member is a KeyError for the first one absent, in that order. |
| Request.Endpoint.DeclaredMethod | scurri/request.py:133-199 | As declared, every endpoint class is a GET except CarrierRequest and the abstract classes, which set no `method`. |
| Request.Endpoint.Method | scurri/request.py:133-199 | The corrected `method`: every concrete endpoint is a GET. It agrees with the declared one everywhere except CarrierRequest. |
| Request.Endpoint.Headers | scurri/request.py:35-38 | No endpoint adds headers of its own. |
| Request.Endpoint.Uri | scurri/request.py:139-199 | The abstract classes raise NotImplementedError (lines 30-33). For a concrete endpoint, a path starting with "/" is built exactly when every parameter its template reads is present. Otherwise the result is a KeyError for a missing one. |
| Request.RouteInvertsUri | scurri/request.py:139-199 | The six templates are distinct and lose nothing. When no parameter holds a slash, parsing the path gives back the endpoint and exactly the parameters it read. |
| Request.SlashInSlugAliases | scurri/request.py:148-163 | The templates do not validate parameters. A carrier slug ending in "/trackings" yields the path of the carrier-trackings endpoint. |
| Request.Merge | scurri/request.py:50 | The merged headers hold both sets of keys. On a shared key the call's own header wins. |
| Request.Decode | scurri/request.py:57-60 | A body that is JSON and converts with `dict()` is returned as exactly that mapping, and a success is always such a conversion. A JSON object is returned unchanged. A body that is not JSON, or whose conversion raises, is InvalidResponse carrying the URI and the raw text. The only other error is the `Unsupported` conversion result itself. |
| Request.Exchange | scurri/request.py:41-60 | With no usable token, nothing is sent. Otherwise exactly one request is sent, with the merged headers and the given method, URI and body, and its response is decoded. There is no retry. |
| Request.MakeRequest | scurri/request.py:41-60 | Sends what Exchange sends, appended to the client's log, and returns Exchange's result. |
| Request.SingleCall | scurri/request.py:66-88 | The `method` attribute is read first: a missing one is an AttributeError, and nothing is sent. At most one request is sent. One is sent exactly when the method exists, the URI builds and the token is usable. That request goes to `base_url + uri(params)` with the endpoint's headers, and its decoded response is the result (parse_response is the identity). With a method, a URI that fails to build gives exactly that error, and an unusable token gives exactly the token's error, both with nothing sent. |
| Request.SingleRequest | scurri/request.py:71-88 | Sends and returns what SingleCall states, for the endpoint's corrected method (Request.Endpoint.Method). For CarrierRequest it therefore sends a GET, where the code as written raises AttributeError (see Findings). |
| Request.FetchPage | scurri/request.py:107-119 | One turn of the loop. With no usable token it fails with the token's error and sends nothing. Otherwise it sends exactly the page request for the current URL, and its outcome is fixed by that request's envelope: an envelope error fails the turn, a null `next` is the last page, a string `next` continues to that URL verbatim. |
| Request.Walk | scurri/request.py:104-119 | The walk sends at most `n` requests, the first to the starting URL. All requests share the method, merged headers and body. On success it holds one page per request, and at least one page. |
| Request.WalkPagesAreResponses | scurri/request.py:107-116 | On success, page i is the envelope of the response to request i, for every i. |
| Request.WalkSteps | scurri/request.py:106-119 | A walk sends nothing exactly when the token is unusable, and then fails with its error. Every request but the last went on to a next page. The walk succeeds exactly when the last request reached the last page, and a failed walk failed on its last request, with that request's error. |
| Request.WalkChain | scurri/request.py:106-119 | On every walk, failed or not, each request after the first goes to the `next` of the page fetched by the request before it, verbatim, and that fetch went on to a next page. |
| Request.WalkFollowsNext | scurri/request.py:105-119 | On success, every request after the first goes to the previous page's `next`, verbatim. The last page's `next` is null and no earlier page's is. |
| Request.FetchStep | scurri/request.py:107-119 | One turn of the loop on the session. It sends what FetchPage sends and decides what FetchPage decides. |
| Request.CollectPages | scurri/request.py:104-119 | The `while True` loop sends exactly the requests of Walk, appended to the client's log, and collects exactly Walk's pages or error. |
| Request.FlattenOk | scurri/request.py:127-130 | Concatenation succeeds exactly when every page's results can be iterated. |
| Request.FlattenOrder | scurri/request.py:127-130 | The concatenation has as many items as all pages together. Item j of page i sits at the position after all the items of earlier pages: page order first, then order within the page. |
| Request.FlattenSizeOnly | scurri/request.py:127-130 | The concatenation has as many items as all pages together. |
| Request.ParseResponses | scurri/request.py:122-130 | The loop that extends the results list computes exactly the concatenation of the pages' results, or the first page's failure. |
| Request.PaginatedCall | scurri/request.py:94-120 | The URI is built before anything else, and its KeyError stops the request with nothing sent. A missing `method` does the same. With no token, the result is NotAuthorized and nothing is sent. All requests share the method, merged headers and body. The first goes to `base_url + uri(params)`. Success needs at least one request. |
| Request.PaginatedCallResult | scurri/request.py:104-130 | With the URI built and a method: nothing is sent exactly when the token is unusable. Every request but the last went on to a next page, and every request after the first went to that page's `next`, verbatim, whether or not the call succeeds. A successful call ended on a null `next`. When the last request reached a null `next`, the result is the concatenation of pages that answer the sent requests one for one. When the last failed, the result is its error. |
| Request.PaginatedRequest | scurri/request.py:94-120 | Sends and returns what PaginatedCall states. |
| Request.OnePage | scurri/request.py:106-120 | A first page whose `next` is null ends the loop after exactly one request, and the result is that page's results. |
| Request.TwoPages | scurri/request.py:106-130 | A page linking to a second page whose `next` is null gives exactly two requests, the second to the link verbatim. The result is the first page's results followed by the second's. |
| Request.NoTokenNoRequest | scurri/request.py:49 | Without a token, both kinds of request fail with NotAuthorized before any HTTP call. |
| Request.CarrierRequestAsWritten | scurri/request.py:144-151 | As written, CarrierRequest raises AttributeError for `method` on every call and sends nothing. |
| Request.CarrierRequestCorrected | scurri/request.py:144-151 | With `method` set to GET, CarrierRequest sends one GET to `base_url + "/carriers/" + carrier_slug` with the session's headers, and returns its decoded response. |
| Models.Fields | scurri/models.py:18-21 | Reading a list of required keys succeeds exactly when every key can be read, with the values in key order. The first key that fails decides the error. |
| Models.CarrierFrom | scurri/models.py:17-21 | A carrier is built exactly when slug, name, url and trackings_url are all present. Its tracking URL comes from "trackings_url". A missing key is a KeyError for the first absent key, in source order. |
| Models.FieldsFirstMissing | scurri/models.py:18-21 | On an object, reading the required keys fails with a KeyError for the first absent key. |
| Models.TrackingEventFrom | scurri/models.py:34-40 | An event is built exactly when the five keys are present, the timestamp parses and "location" is present. The fields are copied verbatim and the timestamp is parsed. |
| Models.TrackingEventFromError | scurri/models.py:34-40 | On an object, the error is, in the order the fields are read: a KeyError for the first absent key of the five, else InvalidTimestamp of the timestamp, else a KeyError for "location". |
| Models.EventsFrom | scurri/models.py:61-63 | On success there is one event per element. |
| Models.EventsFromOk | scurri/models.py:61-63 | The events are built exactly when every element maps. |
| Models.EventsFromEach | scurri/models.py:61-63 | On success, event i is the one built from element i, for every i. |
| Models.EventsFromFirstFailure | scurri/models.py:61-63 | On failure, the error is that of the first element that does not map, and every earlier element maps. |
| Models.TrackedPackageFrom | scurri/models.py:54-63 | A package is built exactly when its keys are present, created_at parses, "events" is iterable and every event maps. The fields are copied verbatim, created_at is parsed, and the events are the element-wise mapping of "events". |
| Models.TrackedPackageFromError | scurri/models.py:54-63 | On an object, the error is, in the order the fields are read: a KeyError for the first absent of id, tracking_number, url and created_at; else InvalidTimestamp of created_at; else a KeyError for the first absent of carrier, carrier_url and events; else the error of iterating "events"; else the error of building the events. |
| Models.EventsPreserveOrder | scurri/models.py:61-63 | For an "events" array, the package has one event per element, and event i is built from element i. |

## Left out

- The network is not modelled. `requests.Session` is replaced by an oracle
  from request to response. Transport exceptions (connection errors,
  timeouts) are not represented.
- Retries and a page ceiling are not modelled, because the code has
  neither. The client declares TooManyRequestsError and
  TooManyRequestAtemptsError, but nothing raises them.
- Non-termination is not modelled. The client loops forever on a page
  chain that never reaches a null `next`. PaginatedRequest, CollectPages,
  Walk and PaginatedCall therefore require the chain to end within a
  ghost bound `n`.
- Object key order is not modelled: JSON objects are maps. The operations
  whose outcome depends on that order return an `Unsupported` error
  instead.
- Wire.Iterate: iterating a non-empty JSON object (Python yields its keys
  in insertion order) is `Unsupported`.
- Wire.PairOf: a two-key object used as a key-value pair is `Unsupported`,
  and so is a non-string scalar used as a key.
- Request.FetchPage: a `next` that is neither null nor a string is
  `Unsupported`. Python would hand it to the HTTP client as the next URL.
- ApiSession.AuthHeaders: a token that is neither a string nor null gives
  `Unsupported`. Python would format it with `str()`.
- Floating-point JSON numbers are not represented. JSON numbers are
  integers here.
- Path parameters are strings. Python formats any value with `str()`
  inside the f-string templates.
- The staging flag is a `bool`. The code compares it with `is True`, so a
  truthy non-bool value selects the live URL, which the type cannot
  express.
- The date-time parser (`dateutil.isoparse`) is a parameter of the model
  constructors. A parse failure is an `InvalidTimestamp` error, standing
  for whatever exception the parser raises.
- The facade in `scurri/api.py` is not part of this model. It only
  delegates to the request classes and the model constructors. The
  not-found exceptions `BaseNotFoundError`, `CarrierNotFound` and
  `PackageNotFound` are declared in `scurri/exceptions.py` and expected by
  the facade's tests (`tests/test_api.py`), but no code raises them.
- `scurri/exceptions.py` is replaced by the `Error` datatype. Exception
  messages are not modelled.
- `scurri/__init__.py` (re-exports) and `test.py` (a live demo script)
  are not part of this model.

## Findings

| source | as written | input that shows it | evidently intended | confidence | as-written member | corrected member |
|---|---|---|---|---|---|---|
| scurri/request.py:144-151 | CarrierRequest sets no `method` class attribute. `method` is only annotated at line 28, so `cls.method` at line 83 raises AttributeError. | Any call of `CarrierRequest.request`, e.g. with `params={"carrier_slug": "dpd"}` and an authorised session. | `method = "GET"`, as on every other endpoint class. | not executed | Request.CarrierRequestAsWritten (over Request.Endpoint.DeclaredMethod) | Request.CarrierRequestCorrected (over Request.Endpoint.Method, which Request.SingleRequest uses) |
