# NetBird operator reconciliation core, in Dafny

This project models the decision logic of a Kubernetes operator. The operator
reconciles two custom resource kinds, network routes and peer groups, against
the NetBird management REST API. Five parts are modelled:

- **Spec parsing and serialisation** (`specs.dfy`). Parsing (`from_dict`) turns a
  loosely typed spec map into a `RouteSpec` or `GroupSpec`, or into the first
  validation error. It uses Python truthiness, the source's order of checks and
  its defaults. Serialisation (`to_dict`) writes the wire map sent to the API.
  Optional keys (`id`, `peers`) are present or absent by rule.
- **JSON values** (`json.dfy`). Decoded JSON is a `Value` datatype. The module
  gives the pieces of Python semantics the source relies on: `not x`,
  `dict.get`, `or`, `==` (where `True == 1`) and `str()`.
- **The request layer** (`client.dfy`). This covers URL joining
  (`rstrip('/')`, `lstrip('/')`) and the classification of a response into a
  result or an exception (`_make_request`). The class `NetbirdClient` holds the
  base URL and an abstract transport. Every request it sends is appended to a
  `trace`, so contracts can say exactly which requests were sent.
- **Status construction and id lookup** (`status.dfy`). `create_status_condition`
  is modelled, along with the search for the remote resource id that earlier
  handlers left in the resource's status under their own names.
- **The five handlers** (`handlers.dfy`, module `Handlers`): `create_fn`,
  `update_fn`, `delete_fn`, `create_group_fn` and `delete_group_fn`. Each one
  reads its configuration and builds a fresh client over the given transport.
  It returns an `Outcome` together with the requests it sent. The outcomes are:
  a success status, the prior status unchanged, a plain return, a
  `PermanentError`, a `TemporaryError(delay=60)`, or an exception raised outside
  any `try`. The module `Reconciliation` (same file) proves properties that span
  several handlers.

The exception flow follows what the code does, which is not always what its
own choices of exception class suggest. Where the two part, the model follows
what the code does:

- A 422 response makes the client raise `kopf.PermanentError`. That class is not
  a `ValueError`, so the route create and update handlers catch it with
  `except Exception` and turn it into a `TemporaryError` with delay 60 and
  reason `Error`, although operator.py:171 raises it as a permanent failure.
- A missing route id in `update_fn` is also raised as `kopf.PermanentError`, and
  caught the same way (operator.py:346). It ends as a retryable error, not a
  permanent one.
- A 404 on route delete is a permanent error. Only group delete treats 404 as
  success.
- `raise_for_status` raises only for codes 400 to 599. A 1xx or 3xx response
  therefore returns its body like a 2xx.
- A create sends `id` whenever the spec carries a truthy one (operator.py:52-53,
  operator.py:127-128); `to_dict` is used unchanged for creates.
- There is no condition de-duplication, no 10-entry history cap, no
  `observedGeneration` and no `Z`-suffixed timestamp. The id key is
  `resourceID`.
- The update no-op test compares the old and new raw spec maps with Python
  `==`. It does not compare normalised specs.

The IP network parser (`ipaddress.ip_network`) is a parameter
`check: Value -> Option<string>`. `None` means the parser accepts the value;
`Some(detail)` means it raises `ValueError(detail)`. The environment
(`NETBIRD_URL`, `NETBIRD_API_KEY`), the clock and the HTTP transport are
parameters too.

## Model

| member | source | states |
|---|---|---|
| `Specs.ParseGroup` | operator.py:19-39 | rejects a falsy `name`, then `peers` that is present, not None and not a list, and accepts every other map. Absent or None `peers` becomes `None`; a list keeps its items. `description` defaults to `''` and `id` comes from `get('id')`. |
| `Specs.GroupToWire` | operator.py:41-55 | the wire map always has `name` and `description`. It has `peers` exactly when peers were declared (an empty list included) and `id` exactly when the id is truthy. |
| `Specs.GroupRoundTrip` | operator.py:25-55 | a valid group whose id is None or truthy parses back from its wire form unchanged |
| `Specs.GroupRoundTripFalsyId` | operator.py:38-53 | a present but falsy id is dropped by `to_dict` and reads back as None; every other field survives |
| `Specs.GroupPeersAbsenceIsPreserved` | operator.py:29-50 | undeclared peers are omitted from the wire map; a declared empty list is sent as an empty list |
| `Specs.ParseRoute` | operator.py:70-112 | each error holds exactly when all earlier checks pass and its own fails. The order is: peer (`peerId`, else `peer`), `network` present, network accepted by the parser, `groups` a non-empty list, `network_id` present, `metric` numeric (bools count) and ≥ 0. On success the spec is valid, takes its fields from the input, and defaults `description=''`, `enabled=True`, `masquerade=False`, `metric=9999`. |
| `Specs.RouteToWire` | operator.py:114-130 | the wire map has the eight fixed keys, with the peer under `peer`, plus `id` exactly when the id is truthy |
| `Specs.RouteRoundTrip` | operator.py:71-130 | a valid route whose id is None or truthy parses back from its wire form unchanged, because `from_dict` accepts the `peer` key that `to_dict` writes |
| `Specs.RouteRoundTripFalsyId` | operator.py:111-128 | a present but falsy id is dropped by `to_dict` and reads back as None |
| `Specs.RouteReparse` | operator.py:71-130 | parse, write out and parse again gives the first parse back, up to a falsy id |
| `Specs.SampleRouteWire` | operator.py:98-125 | a sample route is accepted and sent with `enabled=True`, `masquerade=False`, `metric=9999`, `description=''` and no id |
| `Specs.BadNetworkIsRejected` | operator.py:85-88 | a network the parser rejects (such as `10.0.0.0/33`) gives the invalid-network error, whatever the later fields hold |
| `Json.PyEqReflexive` | operator.py:317 | Python equality on decoded specs is reflexive, so an unchanged spec is always detected as unchanged |
| `Json.PyEq` | operator.py:317 | Python `==` on decoded values: equal values have the same truthiness, `None` and strings equal only themselves, two bools only when equal, and `True` equals exactly `True` and `1` |
| `Json.PyEqSymmetric` | operator.py:317 | Python equality on decoded specs is symmetric, so the no-op test does not depend on which spec is old and which is new |
| `Json.NatToString` | operator.py:88-100 | the decimal text `str()` prints for a natural number: non-empty digits, no leading zero, denoting exactly that number |
| `Json.Repr` | operator.py:88-100 | the first character of `repr()` tells the kind of value: `[` exactly for a list, a quote exactly for a string, `{` exactly for a dict, and for a number a minus sign exactly when it is negative, else a digit |
| `Json.Show` | operator.py:88-100 | `str()` in an f-string prints a string as itself, and an integer as decimal digits denoting its value, after a `-` exactly when it is negative |
| `Specs.MessagesDistinguishErrors` | operator.py:27-100 | the `ValueError` texts of the eight validation failures are pairwise different, so the text names the check that failed |
| `Client.HttpErrorText` | operator.py:173 | `str()` of the `HTTPError` from `raise_for_status` starts with the three-digit status code, then ` Client Error: ` for 4xx or ` Server Error: ` for 5xx, and ends with the request URL |
| `Handlers.SuccessMessageNamesId` | operator.py:288 | the success message (also at operator.py:357 and operator.py:429) names the remote id: for string ids, equal messages mean equal ids |
| `Status.CreateStatusCondition` | operator.py:226-246 | the status has exactly one `Ready` condition, and its top-level `status`/`reason` mirror it. The message and both timestamps are as given. `resourceID` is present exactly when the id is truthy, and then equals it. |
| `Status.StoredId` | operator.py:333-338 | returns the `resourceID` of the first handler entry that has the key, even a falsy one; returns None when no entry has it |
| `Status.FindResourceId` | operator.py:452-456 | the `for`/`break` loop over handler names returns exactly `StoredId` |
| `Status.RouteIdPrecedence` | operator.py:335-338 | the `create_fn` entry wins when it has a `resourceID` key; `update_fn` is consulted only otherwise |
| `Status.CreatedIdIsFound` | operator.py:243-244 | once a success status with a truthy id is stored under the first handler name, the lookup returns exactly that id |
| `Status.IdlessStatusFallsThrough` | operator.py:243-244 | a status built without an id records nothing, so the lookup moves on to the next handler name |
| `Client.Classify` | operator.py:163-174 | success exactly when the code is neither 422 nor in 400-599. An empty body gives `{}`. A 422 gives the permanent API-validation error whose message carries the response detail as `Show` renders it (a dict detail, the usual shape, is rendered `{...}`, not with its entries). Other 4xx/5xx codes give an HTTP error; transport failures give a request error. In the model none of these is a `ValueError`; a non-JSON body, which would raise one, is not modelled. |
| `Client.RStripSlash` | operator.py:139 | the result is the longest prefix of the input that does not end in `/`; only slashes are removed |
| `Client.LStripSlash` | operator.py:147 | the result is the longest suffix of the input that does not start in `/`; only slashes are removed |
| `Client.NoDoubleSlashAtJoin` | operator.py:139-147 | the joined URL starts with the stripped base, then exactly one `/`, then an endpoint part that does not start with `/` |
| `Client.LeadingSlashIrrelevant` | operator.py:147 | `"/routes"` and `"routes"` give the same URL |
| `Client.NetbirdClient.constructor` | operator.py:134-144 | base URL is the configured URL with trailing slashes removed; the bearer headers are set; no request has been sent |
| `Client.NetbirdClient.MakeRequest` | operator.py:146-174 | appends exactly one request (verb, joined URL, body) to the trace and returns its classification |
| `Client.NetbirdClient.CreateRoute` | operator.py:183-185 | one POST to `/routes` whose body is the route's wire form |
| `Client.NetbirdClient.GetRoute` | operator.py:198-200 | one GET to `/routes/{id}` without a body |
| `Client.NetbirdClient.UpdateRoute` | operator.py:187-192 | sends `GET /routes/{id}`. If that fails, or `IdOf` finds no `id` in its body, it stops there with that error. Otherwise it sends `PUT /routes/{id}` whose body is the wire form of the spec with the fetched id; a falsy fetched id leaves `id` out of the body. It returns the PUT's result. |
| `Client.NetbirdClient.DeleteRoute` | operator.py:194-196 | one DELETE to `/routes/{id}`; any error, 404 included, is reported |
| `Client.NetbirdClient.CreateGroup` | operator.py:203-205 | one POST to `/groups` whose body is the group's wire form |
| `Client.NetbirdClient.DeleteGroup` | operator.py:214-216 | one DELETE to `/groups/{id}`; any error is reported |
| `Client.CreateBodyHasIdOnlyIfKnown` | operator.py:183-205 | a create body carries `id` exactly when the spec already has a truthy id |
| `Client.UpdateBodyCarriesFetchedId` | operator.py:191-192 | when the fetched id is truthy, the PUT body's `id` is that id, and every other key is as in the spec's own wire form |
| `Handlers.RouteCatch` | operator.py:291-304 | a `ValueError` becomes `PermanentError` with status reason `ValidationError`. Any other exception becomes `TemporaryError` with delay 60 and reason `Error`. Either way the message is `str(e)` and the status is a single `False` Ready condition without `resourceID`. |
| `Handlers.ReadyStatus` | operator.py:285-290 | a success status is a single `True` Ready condition with the given reason; `resourceID` is present exactly when the remote id is truthy |
| `Handlers.CreateFn` | operator.py:261-304 | A missing API key gives a permanent `ConfigError`; a missing URL escapes uncaught. Both send nothing. An invalid spec is permanent and sends nothing. Otherwise the handler sends exactly the POST of the spec's wire form. When `IdOf` finds an `id` in the response it gives `RouteCreated` with that id; any other result, a response without `id` included, is caught per `RouteCatch`. |
| `Handlers.UpdateFn` | operator.py:307-373 | An equal old/new spec returns the prior status and sends nothing, before any other check. The route id is looked up before validation, and a missing id is retried with "No route ID found in status". Otherwise the handler sends exactly the GET and then the PUT under the looked-up id, and the PUT body is the wire form of the spec with the fetched id, so it carries that id when it is truthy and no `id` otherwise. The result is `RouteUpdated` with the returned id, or an error caught per `RouteCatch`. |
| `Handlers.DeleteFn` | operator.py:375-405 | with no truthy route id, returns and sends nothing. Otherwise it sends exactly one DELETE and returns on success, and every failure, 404 and transport failures included, is `DeleteRouteFailure`: a `PermanentError("Failed to delete route: …")` without a status, never retried. |
| `Handlers.CreateGroupFn` | operator.py:408-437 | the configuration checks send nothing. An invalid spec is permanent and sends nothing. Otherwise the handler sends exactly the POST of the group's wire form; a remote id gives `GroupCreated` with that id, and any other result is caught per `GroupCatch`: a spec `ValueError` becomes `PermanentError("Invalid group specification: …")`, anything else `TemporaryError("Failed to create group: …", delay=60)`, with no status attached. |
| `Handlers.DeleteGroupFn` | operator.py:439-474 | looks up the id under `create_group_fn`, then `update_group_fn`. With no truthy id it returns and sends nothing; otherwise it sends exactly one DELETE and classifies the result per `DeleteGroupResult`: success when the DELETE succeeded or failed with HTTP 404, else `PermanentError("Failed to delete group: …")`. |
| `Reconciliation.RemoteRejectionIsRetried` | operator.py:163-171 | a 422 during a route create or update ends as `TemporaryError` with delay 60, reason `Error`, and the message `API validation failed: ` followed by the detail as `Show` renders it (a dict detail is `{...}`) |
| `Reconciliation.MissingRouteIdIsRetried` | operator.py:340-373 | the missing-route-id error of the update handler ends as `TemporaryError("No route ID found in status", 60)` |
| `Reconciliation.NotFoundOnDelete` | operator.py:463-470 | a 404 on group delete is success, and a 404 on route delete is a permanent error |
| `Reconciliation.CreateThenDelete` | operator.py:389-400 | when the create handler's result is stored under `create_fn`, a later delete sends its one DELETE to the id the create recorded. If no id was recorded, the delete sends nothing. |
| `Reconciliation.SampleRouteCreation` | operator.py:278-290 | creating a sample route sends one POST to `{base}/routes` with the defaulted body; on a 201 `{"id": "r1"}` it yields a `True`/`RouteCreated` status with `resourceID` `r1` |

## Left out

- The HTTP library is abstract. The transport is a function from request to reply: a status code, reason phrase and decoded body, or a transport failure. Request headers are kept on the client but not in the trace. Redirects and the real wire format are not modelled.
- JSON decoding is left out. A non-JSON response body cannot be expressed, and neither can the raw-text fallback for a non-JSON 422 body. In the source, `response.json()` at operator.py:174 raises a JSON decode error for a 2xx response whose body is not JSON, and that error is a `ValueError`. It would make `create_fn` and `update_fn` (the GET inside `update_route` included) fail permanently with reason `ValidationError`, and `create_group_fn` fail with "Invalid group specification: …". The delete handlers end in the same `response.json()`, so a 2xx DELETE with a non-JSON body would become `PermanentError("Failed to delete route: …")` (operator.py:402-405) or `PermanentError("Failed to delete group: …")` (operator.py:471-474), where the model returns `Done`. The model never produces those outcomes for a remote response.
- `ipaddress.ip_network` is the `check` parameter, not an IPv4/IPv6 parser. Exceptions from it other than `ValueError` are not modelled.
- Floats are left out: `metric` is an integer, or a bool, which Python accepts as an int.
- All `logging` calls are left out.
- kopf's `configure` startup hook is left out.
- kopf's storage of handler results under `status[handler_name]` is framework behaviour. The prior status is an input. `Reconciliation.CreateThenDelete` does that storage by hand.
- The environment is the `Env` parameter. `""` stands for both unset and empty, which the source's `not` treats alike.
- Handlers.RouteCatch, Handlers.CreateFn and Handlers.UpdateFn assume that kopf's `PermanentError` accepts a `status=` keyword and that `TemporaryError` accepts `delay=` together with `status=` (operator.py:274, 297, 304, 328, 346, 366, 373). kopf's code is not part of this model. If kopf's classes take only a message (and a delay), each of those raise sites throws `TypeError` instead: `create_fn` with an invalid spec, say, would escape with `TypeError` rather than end in the modelled `PermanentError` with the status attached. `Handlers.ConfigErrorStatus` rests on the same assumption.
- The `ValueError` raised by `NetbirdClient.__init__` for a missing URL escapes the handler as `Uncaught`. What kopf does with it is not modelled.
- One clock reading `now` stands for both `utcnow()` calls in `create_status_condition`, which could in reality differ by microseconds.
- `update_route` assigns the fetched id into the caller's `RouteSpec` object. The model updates a value instead. The mutation is not observable, because `update_fn` does not use the spec afterwards.
- The `MissingResourceID` status built at operator.py:341-345 is discarded by the source before it is seen, so it is not modelled.
- A handler entry in the status that is not a dict is treated as having no `resourceID`. In Python, `in` on a string entry is a substring test, and indexing after it raises `TypeError`.
- The `meta['name']` reads of the group handlers are not modelled; the framework always supplies a name.
- The commented-out `update_group`, `get_group` and `list_groups` are not live code.
- Condition history de-duplication, the 10-entry cap, `observedGeneration` and `Z`-suffixed timestamps do not exist in the source.
- Message texts are only partly exact. `str()` of a dict inside a message, such as a dict-valued 422 detail, is rendered as `{...}`, because dict key order is not part of a value. String escapes in `repr` are not modelled. Texts of the HTTP library's exceptions other than `HTTPError` come from the transport.
