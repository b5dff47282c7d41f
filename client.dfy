/** The request layer of the operator's API client: URL joining, the
    classification of a response into a result or an exception, and the client
    object whose operations each send requests through an abstract transport and
    record them in a trace. */
module Client {
  import opened Json
  import opened Specs

  datatype Verb = GET | POST | PUT | DELETE

  /** One request as sent: verb, full URL and JSON body (`None` for no body). */
  datatype Request = Request(verb: Verb, url: string, body: Option<map<string, Value>>)

  /** What the transport hands back: a response with status code, reason phrase
      and decoded body (`None` when the body is empty), or a transport-level
      `RequestException` (connection refused, timeout, ...). */
  datatype Reply =
    | Response(code: int, reason: string, body: Option<Value>)
    | Unreachable(detail: string)

  /** The HTTP library and the remote API, as a function of the request. */
  type Transport = Request -> Reply

  /** The exceptions that can escape a client call or a handler's `try` block. */
  datatype Failure =
    | Invalid(error: SpecError)                     // ValueError from spec parsing
    | Rejected(detail: string)                      // kopf.PermanentError raised for a 422
    | HttpError(code: int, reason: string, url: string)  // requests.HTTPError from raise_for_status
    | TransportError(detail: string)                // any other requests.RequestException
    | NoId(body: Value)                             // KeyError / TypeError from `body['id']`
    | NoRouteId                                     // kopf.PermanentError: no route id in status

  /** In the model only spec parsing raises `ValueError`; the 422 error is a
      `kopf.PermanentError`, which is not a `ValueError`. A response body that is
      not JSON, which would also raise one, is not part of the model. */
  predicate IsValueError(f: Failure) {
    f.Invalid?
  }

  /** `str(e)` for each failure. Texts that come from Python's runtime follow CPython 3.11. */
  function Text(f: Failure): string {
    match f
    case Invalid(e) => Message(e)
    case Rejected(detail) => "API validation failed: " + detail
    case HttpError(code, reason, url) =>
      IntToString(code) + (if code < 500 then " Client Error: " else " Server Error: ")
      + reason + " for url: " + url
    case TransportError(detail) => detail
    case NoId(body) =>
      (match body
       case Obj(_) => "'id'"
       case List(_) => "list indices must be integers or slices, not str"
       case Str(_) => "string indices must be integers, not 'str'"
       case Null => "'NoneType' object is not subscriptable"
       case Num(_) => "'int' object is not subscriptable"
       case Bool(_) => "'bool' object is not subscriptable")
    case NoRouteId => "No route ID found in status"
  }

  /** The text of an `HTTPError` starts with the three-digit status code, says
      whether the client or the server is at fault, and ends with the URL. */
  lemma HttpErrorText(code: int, reason: string, url: string)
    requires IsErrorStatus(code)
    ensures var t := Text(HttpError(code, reason, url));
      var kind := if code < 500 then " Client Error: " else " Server Error: ";
      && |t| >= 3 + |kind| + |url|
      && IsDecimal(t[..3]) && DecimalValue(t[..3]) == code
      && t[3..3 + |kind|] == kind
      && t[|t| - |url|..] == url
  {
    var digits := IntToString(code);
    var kind := if code < 500 then " Client Error: " else " Server Error: ";
    assert digits == NatToString(code / 10) + [DigitChar(code % 10)];
    assert NatToString(code / 10) == NatToString(code / 100) + [DigitChar(code / 10 % 10)];
    assert |digits| == 3;
    var t := digits + kind + reason + " for url: " + url;
    assert Text(HttpError(code, reason, url)) == t;
    assert t[..3] == digits;
    assert t[3..3 + |kind|] == kind;
    assert t[|t| - |url|..] == url;
  }

  /** The status codes `raise_for_status` raises for. */
  predicate IsErrorStatus(code: int) {
    400 <= code < 600
  }

  /** The detail a 422 message carries: the decoded body, or the raw (empty) text
      when there is no JSON body. */
  function RejectionDetail(body: Option<Value>): string {
    if body.Some? then Show(body.value) else ""
  }

  /** The response handling of `_make_request`. */
  function Classify(req: Request, reply: Reply): (r: Result<Value, Failure>)
    ensures r.Ok? <==> reply.Response? && reply.code != 422 && !IsErrorStatus(reply.code)
    ensures r.Ok? && reply.body.None? ==> r.value == Obj(map[])
    ensures r.Ok? && reply.body.Some? ==> r.value == reply.body.value
    ensures reply.Response? && reply.code == 422 ==>
      r == Err(Rejected(RejectionDetail(reply.body)))
      && Text(r.error) == "API validation failed: " + RejectionDetail(reply.body)
    ensures reply.Response? && reply.code != 422 && IsErrorStatus(reply.code) ==>
      r == Err(HttpError(reply.code, reply.reason, req.url))
    ensures reply.Unreachable? ==> r == Err(TransportError(reply.detail))
    ensures r.Err? ==> !IsValueError(r.error)
  {
    match reply
    case Unreachable(detail) => Err(TransportError(detail))
    case Response(code, reason, body) =>
      if code == 422 then Err(Rejected(RejectionDetail(body)))
      else if IsErrorStatus(code) then Err(HttpError(code, reason, req.url))
      else Ok(if body.Some? then body.value else Obj(map[]))
  }

  /** `body['id']`: the id of a decoded object, or the exception indexing raises. */
  function IdOf(body: Value): (r: Result<Value, Failure>)
    ensures r.Ok? <==> body.Obj? && "id" in body.fields
    ensures r.Ok? ==> r.value == body.fields["id"]
    ensures r.Err? ==> r.error == NoId(body)
  {
    if body.Obj? && "id" in body.fields then Ok(body.fields["id"]) else Err(NoId(body))
  }

  /** The id of a successful response, or the failure of the request or of the indexing. */
  function ResultId(r: Result<Value, Failure>): Result<Value, Failure> {
    if r.Err? then Err(r.error) else IdOf(r.value)
  }

  // ---------------------------------------------------------------- URLs

  /** `s.rstrip('/')`. */
  function RStripSlash(s: string): (r: string)
    ensures |r| <= |s| && r == s[..|r|]
    ensures r == [] || r[|r| - 1] != '/'
    ensures forall i | |r| <= i < |s| :: s[i] == '/'
  {
    if s != [] && s[|s| - 1] == '/' then RStripSlash(s[..|s| - 1]) else s
  }

  /** `s.lstrip('/')`. */
  function LStripSlash(s: string): (r: string)
    ensures |r| <= |s| && r == s[|s| - |r|..]
    ensures r == [] || r[0] != '/'
    ensures forall i | 0 <= i < |s| - |r| :: s[i] == '/'
  {
    if s != [] && s[0] == '/' then LStripSlash(s[1..]) else s
  }

  /** `f"{base}/{endpoint.lstrip('/')}"`. */
  function JoinUrl(base: string, endpoint: string): string {
    base + "/" + LStripSlash(endpoint)
  }

  /** The joined URL keeps the stripped base as a prefix and has exactly one
      slash at the join: the base never ends with one and the endpoint part never
      starts with one. */
  lemma NoDoubleSlashAtJoin(netbirdUrl: string, endpoint: string)
    ensures var base := RStripSlash(netbirdUrl);
      var url := JoinUrl(base, endpoint);
      && |url| > |base|
      && url[..|base|] == base
      && url[|base|] == '/'
      && (|base| == 0 || url[|base| - 1] != '/')
      && (|url| == |base| + 1 || url[|base| + 1] != '/')
  {
    var base := RStripSlash(netbirdUrl);
    var e := LStripSlash(endpoint);
    assert JoinUrl(base, endpoint) == base + "/" + e;
    SlashJoin(base, e);
  }

  /** Gluing a part that does not end in a slash to one that does not start with
      one puts exactly one slash between them. */
  lemma SlashJoin(base: string, e: string)
    requires base == [] || base[|base| - 1] != '/'
    requires e == [] || e[0] != '/'
    ensures var url := base + "/" + e;
      && |url| == |base| + 1 + |e|
      && url[..|base|] == base
      && url[|base|] == '/'
      && (|base| == 0 || url[|base| - 1] != '/')
      && (|url| == |base| + 1 || url[|base| + 1] != '/')
  {
    var url := base + "/" + e;
    assert url[..|base|] == base;
    assert |base| == 0 || url[|base| - 1] == base[|base| - 1];
    assert |e| == 0 || url[|base| + 1] == e[0];
  }

  /** Leading slashes on the endpoint do not matter. */
  lemma {:induction false} LeadingSlashIrrelevant(base: string, endpoint: string)
    ensures JoinUrl(base, "/" + endpoint) == JoinUrl(base, endpoint)
  {
    assert ("/" + endpoint)[1..] == endpoint;
  }

  /** `f"/routes/{route_id}"`. */
  function RoutePath(id: Value): string {
    "/routes/" + Show(id)
  }

  /** `f"/groups/{group_id}"`. */
  function GroupPath(id: Value): string {
    "/groups/" + Show(id)
  }

  const RoutesPath := "/routes"
  const GroupsPath := "/groups"

  // ---------------------------------------------------------------- client

  /** `NetbirdClient`. The URL and key read from the environment are constructor
      parameters; the transport stands for the HTTP library and the remote API;
      `trace` lists every request sent so far. */
  class NetbirdClient {
    const netbirdUrl: string
    const baseUrl: string
    const apiKey: string
    const headers: map<string, string>
    const transport: Transport
    var trace: seq<Request>

    /** `__init__` after its check that the URL is set (that raising branch is
        taken by the handlers before they construct a client). */
    constructor (netbirdUrl: string, apiKey: string, transport: Transport)
      requires netbirdUrl != ""
      ensures this.netbirdUrl == netbirdUrl && this.apiKey == apiKey && this.transport == transport
      ensures baseUrl == RStripSlash(netbirdUrl)
      ensures headers == map["Authorization" := "Bearer " + apiKey, "Content-Type" := "application/json"]
      ensures trace == []
    {
      this.netbirdUrl := netbirdUrl;
      this.baseUrl := RStripSlash(netbirdUrl);
      this.apiKey := apiKey;
      this.headers := map["Authorization" := "Bearer " + apiKey, "Content-Type" := "application/json"];
      this.transport := transport;
      trace := [];
    }

    /** The full URL of an endpoint. */
    function Url(endpoint: string): string {
      JoinUrl(baseUrl, endpoint)
    }

    /** What `_make_request` yields for one request. */
    function Exchange(req: Request): Result<Value, Failure> {
      Classify(req, transport(req))
    }

    /** `_make_request`: send one request and classify its response. */
    method MakeRequest(verb: Verb, endpoint: string, data: Option<map<string, Value>>)
      returns (r: Result<Value, Failure>)
      modifies this
      ensures trace == old(trace) + [Request(verb, Url(endpoint), data)]
      ensures r == Exchange(Request(verb, Url(endpoint), data))
    {
      var req := Request(verb, Url(endpoint), data);
      trace := trace + [req];
      r := Classify(req, transport(req));
    }

    /** `create_route`: one POST of the route's wire form to `/routes`. */
    method CreateRoute(s: RouteSpec) returns (r: Result<Value, Failure>)
      modifies this
      ensures trace == old(trace) + [Request(POST, Url(RoutesPath), Some(RouteToWire(s)))]
      ensures r == Exchange(Request(POST, Url(RoutesPath), Some(RouteToWire(s))))
    {
      r := MakeRequest(POST, RoutesPath, Some(RouteToWire(s)));
    }

    /** `get_route`. */
    method GetRoute(id: Value) returns (r: Result<Value, Failure>)
      modifies this
      ensures trace == old(trace) + [Request(GET, Url(RoutePath(id)), None)]
      ensures r == Exchange(Request(GET, Url(RoutePath(id)), None))
    {
      r := MakeRequest(GET, RoutePath(id), None);
    }

    /** The PUT that `update_route` sends once the fetched route's id is known. */
    function UpdateRequest(id: Value, s: RouteSpec, fetchedId: Value): Request {
      Request(PUT, Url(RoutePath(id)), Some(RouteToWire(s.(id := fetchedId))))
    }

    /** `update_route`: read the route, copy the fetched id into the spec, then
        PUT it. A failed read, or a read without an id, ends the call before
        the PUT. */
    method UpdateRoute(id: Value, s: RouteSpec) returns (r: Result<Value, Failure>)
      modifies this
      ensures var get := Request(GET, Url(RoutePath(id)), None);
        var fetched := ResultId(Exchange(get));
        && (fetched.Err? ==> trace == old(trace) + [get] && r == Err(fetched.error))
        && (fetched.Ok? ==>
              && trace == old(trace) + [get, UpdateRequest(id, s, fetched.value)]
              && r == Exchange(UpdateRequest(id, s, fetched.value)))
    {
      var existing := GetRoute(id);
      if existing.Err? {
        return Err(existing.error);
      }
      var fetched := IdOf(existing.value);
      if fetched.Err? {
        return Err(fetched.error);
      }
      var updated := s.(id := fetched.value);
      r := MakeRequest(PUT, RoutePath(id), Some(RouteToWire(updated)));
    }

    /** `delete_route`: one DELETE; a 404 is an error like any other. */
    method DeleteRoute(id: Value) returns (failure: Option<Failure>)
      modifies this
      ensures trace == old(trace) + [Request(DELETE, Url(RoutePath(id)), None)]
      ensures var r := Exchange(Request(DELETE, Url(RoutePath(id)), None));
        failure == if r.Err? then Some(r.error) else None
    {
      var r := MakeRequest(DELETE, RoutePath(id), None);
      failure := if r.Err? then Some(r.error) else None;
    }

    /** `create_group`: one POST of the group's wire form to `/groups`. */
    method CreateGroup(g: GroupSpec) returns (r: Result<Value, Failure>)
      modifies this
      ensures trace == old(trace) + [Request(POST, Url(GroupsPath), Some(GroupToWire(g)))]
      ensures r == Exchange(Request(POST, Url(GroupsPath), Some(GroupToWire(g))))
    {
      r := MakeRequest(POST, GroupsPath, Some(GroupToWire(g)));
    }

    /** `delete_group`: one DELETE. */
    method DeleteGroup(id: Value) returns (failure: Option<Failure>)
      modifies this
      ensures trace == old(trace) + [Request(DELETE, Url(GroupPath(id)), None)]
      ensures var r := Exchange(Request(DELETE, Url(GroupPath(id)), None));
        failure == if r.Err? then Some(r.error) else None
    {
      var r := MakeRequest(DELETE, GroupPath(id), None);
      failure := if r.Err? then Some(r.error) else None;
    }
  }

  /** A create sends the spec's identifier only when the spec already carries a
      truthy one; a freshly parsed spec without an `id` key sends none. */
  lemma CreateBodyHasIdOnlyIfKnown(s: RouteSpec, g: GroupSpec)
    ensures "id" in RouteToWire(s) <==> Truthy(s.id)
    ensures "id" in GroupToWire(g) <==> Truthy(g.id)
  {
  }

  /** The body of update_route's PUT carries exactly the id the GET returned,
      whenever that id is truthy, whatever id the spec held before. */
  lemma UpdateBodyCarriesFetchedId(s: RouteSpec, fetchedId: Value)
    requires Truthy(fetchedId)
    ensures RouteToWire(s.(id := fetchedId))["id"] == fetchedId
    ensures RouteToWire(s.(id := fetchedId)) - {"id"} == RouteToWire(s) - {"id"}
  {
  }
}
