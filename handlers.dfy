/** The five event handlers the framework calls: route create/update/delete
    and group create/delete. Each reads its configuration, builds a fresh
    client over the given transport, and ends in one outcome; `sent` is the
    client's request trace at the end, i.e. every request the handler sent. */
module Handlers {
  import opened Json
  import opened Specs
  import opened Status
  import opened Client

  /** The two environment variables. `""` stands for unset as well as empty:
      the handlers test them with `not`, which treats both alike. */
  datatype Env = Env(netbirdUrl: string, apiKey: string)

  /** How a handler ends, as the framework sees it. `attached` is the status
      passed along with a raised error (`status=...`), when there is one. */
  datatype Outcome =
    | Success(status: map<string, Value>)        // returns a fresh status dict
    | Unchanged(status: map<string, Value>)      // returns the prior status as it was
    | Done                                       // returns None
    | PermanentError(message: string, attached: Option<map<string, Value>>)
    | TemporaryError(message: string, delay: int, attached: Option<map<string, Value>>)
    | Uncaught(message: string)                  // an exception raised outside any try block

  const RetryDelay := 60
  const ApiKeyMissing := "NETBIRD_API_KEY environment variable is required"
  const UrlMissing := "NETBIRD_URL environment variable is required"

  predicate Configured(env: Env) {
    env.apiKey != "" && env.netbirdUrl != ""
  }

  /** The URL the client builds for an endpoint. */
  function ApiUrl(env: Env, endpoint: string): string {
    JoinUrl(RStripSlash(env.netbirdUrl), endpoint)
  }

  /** The status a route handler attaches when the API key is missing. */
  function ConfigErrorStatus(now: string): map<string, Value> {
    CreateStatusCondition("False", "ConfigError", ApiKeyMissing, Null, now)
  }

  /** The `except ValueError` / `except Exception` pair shared by the route
      create and update handlers: only a `ValueError` is permanent, everything
      else (including the client's own `kopf.PermanentError`) is retried. */
  function RouteCatch(f: Failure, now: string): (o: Outcome)
    ensures o.PermanentError? <==> IsValueError(f)
    ensures o.TemporaryError? <==> !IsValueError(f)
    ensures o.PermanentError? || o.TemporaryError?
    ensures o.TemporaryError? ==> o.delay == RetryDelay
    ensures o.message == Text(f)
    ensures o.attached.Some? && SingleReadyCondition(o.attached.value)
    ensures o.attached.value["status"] == Str("False")
    ensures o.attached.value["reason"] == Str(if IsValueError(f) then "ValidationError" else "Error")
    ensures Condition(o.attached.value)["message"] == Str(Text(f))
    ensures "resourceID" !in o.attached.value
  {
    if IsValueError(f) then
      PermanentError(Text(f), Some(CreateStatusCondition("False", "ValidationError", Text(f), Null, now)))
    else
      TemporaryError(Text(f), RetryDelay, Some(CreateStatusCondition("False", "Error", Text(f), Null, now)))
  }

  /** The `except` pair of the group create handler; no status is attached. */
  function GroupCatch(f: Failure): (o: Outcome)
    ensures o.PermanentError? <==> IsValueError(f)
    ensures o.TemporaryError? <==> !IsValueError(f)
    ensures o.PermanentError? ==> o.message == "Invalid group specification: " + Text(f) && o.attached.None?
    ensures o.TemporaryError? ==>
      o.message == "Failed to create group: " + Text(f) && o.delay == RetryDelay && o.attached.None?
  {
    if IsValueError(f) then PermanentError("Invalid group specification: " + Text(f), None)
    else TemporaryError("Failed to create group: " + Text(f), RetryDelay, None)
  }

  /** The success status of a route or group handler for the remote object's id. */
  function ReadyStatus(reason: string, kind: string, verb: string, id: Value, now: string): (r: map<string, Value>)
    ensures SingleReadyCondition(r)
    ensures r["status"] == Str("True") && r["reason"] == Str(reason)
    ensures ("resourceID" in r <==> Truthy(id)) && ("resourceID" in r ==> r["resourceID"] == id)
  {
    CreateStatusCondition("True", reason, SuccessMessage(kind, verb, id), id, now)
  }

  /** `f"Route {id} created successfully"` and its siblings. */
  function SuccessMessage(kind: string, verb: string, id: Value): string {
    kind + " " + Show(id) + " " + verb + " successfully"
  }

  /** The success message names the remote id: two string ids give the same
      message only when they are the same id. */
  lemma SuccessMessageNamesId(kind: string, verb: string, a: string, b: string)
    requires SuccessMessage(kind, verb, Str(a)) == SuccessMessage(kind, verb, Str(b))
    ensures a == b
  {
    var m := SuccessMessage(kind, verb, Str(a));
    assert m == kind + " " + a + " " + verb + " successfully";
    assert m == kind + " " + b + " " + verb + " successfully";
    assert |a| == |b|;
    assert a == m[|kind| + 1..|kind| + 1 + |a|];
    assert b == m[|kind| + 1..|kind| + 1 + |b|];
  }

  // ---------------------------------------------------------------- create_fn

  /** `create_fn`. */
  method CreateFn(spec: map<string, Value>, env: Env, transport: Transport, check: NetworkCheck, now: string)
    returns (outcome: Outcome, sent: seq<Request>)
    ensures env.apiKey == "" ==>
      sent == [] && outcome == PermanentError(ApiKeyMissing, Some(ConfigErrorStatus(now)))
    ensures env.apiKey != "" && env.netbirdUrl == "" ==> sent == [] && outcome == Uncaught(UrlMissing)
    ensures Configured(env) && ParseRoute(spec, check).Err? ==>
      sent == [] && outcome == RouteCatch(Invalid(ParseRoute(spec, check).error), now)
    ensures Configured(env) && ParseRoute(spec, check).Ok? ==>
      var post := Request(POST, ApiUrl(env, RoutesPath), Some(RouteToWire(ParseRoute(spec, check).value)));
      var created := ResultId(Classify(post, transport(post)));
      && sent == [post]
      && (created.Ok? ==> outcome == Success(ReadyStatus("RouteCreated", "Route", "created", created.value, now)))
      && (created.Err? ==> outcome == RouteCatch(created.error, now))
  {
    if env.apiKey == "" {
      return PermanentError(ApiKeyMissing, Some(ConfigErrorStatus(now))), [];
    }
    if env.netbirdUrl == "" {
      return Uncaught(UrlMissing), [];
    }
    var client := new NetbirdClient(env.netbirdUrl, env.apiKey, transport);
    var parsed := ParseRoute(spec, check);
    if parsed.Err? {
      return RouteCatch(Invalid(parsed.error), now), client.trace;
    }
    var response := client.CreateRoute(parsed.value);
    var created := ResultId(response);
    if created.Err? {
      outcome := RouteCatch(created.error, now);
    } else {
      outcome := Success(ReadyStatus("RouteCreated", "Route", "created", created.value, now));
    }
    sent := client.trace;
  }

  // ---------------------------------------------------------------- update_fn

  /** `update_fn`. `oldBody` and `newBody` are the resource bodies before and after the
      change; `status` is the resource's current status. */
  method UpdateFn(spec: map<string, Value>, status: map<string, Value>,
                  oldBody: map<string, Value>, newBody: map<string, Value>,
                  env: Env, transport: Transport, check: NetworkCheck, now: string)
    returns (outcome: Outcome, sent: seq<Request>)
    ensures PyEq(Get(oldBody, "spec"), Get(newBody, "spec")) ==> sent == [] && outcome == Unchanged(status)
    ensures !PyEq(Get(oldBody, "spec"), Get(newBody, "spec")) ==>
      && (env.apiKey == "" ==>
            sent == [] && outcome == PermanentError(ApiKeyMissing, Some(ConfigErrorStatus(now))))
      && (env.apiKey != "" && env.netbirdUrl == "" ==> sent == [] && outcome == Uncaught(UrlMissing))
    ensures !PyEq(Get(oldBody, "spec"), Get(newBody, "spec")) && Configured(env) ==>
      var id := StoredId(status, RouteIdHandlers);
      && (!Truthy(id) ==> sent == [] && outcome == RouteCatch(NoRouteId, now))
      && (Truthy(id) && ParseRoute(spec, check).Err? ==>
            sent == [] && outcome == RouteCatch(Invalid(ParseRoute(spec, check).error), now))
    ensures !PyEq(Get(oldBody, "spec"), Get(newBody, "spec")) && Configured(env)
            && Truthy(StoredId(status, RouteIdHandlers)) && ParseRoute(spec, check).Ok? ==>
      var id := StoredId(status, RouteIdHandlers);
      var s := ParseRoute(spec, check).value;
      var get := Request(GET, ApiUrl(env, RoutePath(id)), None);
      var fetched := ResultId(Classify(get, transport(get)));
      && (fetched.Err? ==> sent == [get] && outcome == RouteCatch(fetched.error, now))
      && (fetched.Ok? ==>
            var put := Request(PUT, ApiUrl(env, RoutePath(id)), Some(RouteToWire(s.(id := fetched.value))));
            var updated := ResultId(Classify(put, transport(put)));
            && sent == [get, put]
            && (updated.Ok? ==> outcome == Success(ReadyStatus("RouteUpdated", "Route", "updated", updated.value, now)))
            && (updated.Err? ==> outcome == RouteCatch(updated.error, now)))
  {
    if PyEq(Get(oldBody, "spec"), Get(newBody, "spec")) {
      return Unchanged(status), [];
    }
    if env.apiKey == "" {
      return PermanentError(ApiKeyMissing, Some(ConfigErrorStatus(now))), [];
    }
    if env.netbirdUrl == "" {
      return Uncaught(UrlMissing), [];
    }
    var client := new NetbirdClient(env.netbirdUrl, env.apiKey, transport);
    var routeId := StoredId(status, RouteIdHandlers);
    if !Truthy(routeId) {
      return RouteCatch(NoRouteId, now), client.trace;
    }
    var parsed := ParseRoute(spec, check);
    if parsed.Err? {
      return RouteCatch(Invalid(parsed.error), now), client.trace;
    }
    var response := client.UpdateRoute(routeId, parsed.value);
    var updated := ResultId(response);
    if updated.Err? {
      outcome := RouteCatch(updated.error, now);
    } else {
      outcome := Success(ReadyStatus("RouteUpdated", "Route", "updated", updated.value, now));
    }
    sent := client.trace;
  }

  // ---------------------------------------------------------------- delete_fn

  /** The `except Exception` of the route delete handler. */
  function DeleteRouteFailure(f: Failure): (o: Outcome)
    ensures o.PermanentError? && o.attached.None?
    ensures o.message == "Failed to delete route: " + Text(f)
  {
    PermanentError("Failed to delete route: " + Text(f), None)
  }

  /** `delete_fn`. */
  method DeleteFn(status: map<string, Value>, env: Env, transport: Transport)
    returns (outcome: Outcome, sent: seq<Request>)
    ensures env.apiKey == "" ==> sent == [] && outcome == PermanentError(ApiKeyMissing, None)
    ensures env.apiKey != "" && env.netbirdUrl == "" ==> sent == [] && outcome == Uncaught(UrlMissing)
    ensures Configured(env) && !Truthy(StoredId(status, RouteIdHandlers)) ==> sent == [] && outcome == Done
    ensures Configured(env) && Truthy(StoredId(status, RouteIdHandlers)) ==>
      var del := Request(DELETE, ApiUrl(env, RoutePath(StoredId(status, RouteIdHandlers))), None);
      var r := Classify(del, transport(del));
      && sent == [del]
      && outcome == if r.Ok? then Done else DeleteRouteFailure(r.error)
  {
    if env.apiKey == "" {
      return PermanentError(ApiKeyMissing, None), [];
    }
    if env.netbirdUrl == "" {
      return Uncaught(UrlMissing), [];
    }
    var client := new NetbirdClient(env.netbirdUrl, env.apiKey, transport);
    var routeId := StoredId(status, RouteIdHandlers);
    if !Truthy(routeId) {
      return Done, client.trace;
    }
    var failure := client.DeleteRoute(routeId);
    outcome := if failure.Some? then DeleteRouteFailure(failure.value) else Done;
    sent := client.trace;
  }

  // ---------------------------------------------------------------- create_group_fn

  /** `create_group_fn`. */
  method CreateGroupFn(spec: map<string, Value>, env: Env, transport: Transport, now: string)
    returns (outcome: Outcome, sent: seq<Request>)
    ensures env.apiKey == "" ==> sent == [] && outcome == PermanentError(ApiKeyMissing, None)
    ensures env.apiKey != "" && env.netbirdUrl == "" ==> sent == [] && outcome == Uncaught(UrlMissing)
    ensures Configured(env) && ParseGroup(spec).Err? ==>
      sent == [] && outcome == GroupCatch(Invalid(ParseGroup(spec).error))
    ensures Configured(env) && ParseGroup(spec).Ok? ==>
      var post := Request(POST, ApiUrl(env, GroupsPath), Some(GroupToWire(ParseGroup(spec).value)));
      var created := ResultId(Classify(post, transport(post)));
      && sent == [post]
      && (created.Ok? ==> outcome == Success(ReadyStatus("GroupCreated", "Group", "created", created.value, now)))
      && (created.Err? ==> outcome == GroupCatch(created.error))
  {
    if env.apiKey == "" {
      return PermanentError(ApiKeyMissing, None), [];
    }
    if env.netbirdUrl == "" {
      return Uncaught(UrlMissing), [];
    }
    var client := new NetbirdClient(env.netbirdUrl, env.apiKey, transport);
    var parsed := ParseGroup(spec);
    if parsed.Err? {
      return GroupCatch(Invalid(parsed.error)), client.trace;
    }
    var response := client.CreateGroup(parsed.value);
    var created := ResultId(response);
    if created.Err? {
      outcome := GroupCatch(created.error);
    } else {
      outcome := Success(ReadyStatus("GroupCreated", "Group", "created", created.value, now));
    }
    sent := client.trace;
  }

  // ---------------------------------------------------------------- delete_group_fn

  /** A group that is already gone counts as deleted. */
  predicate AlreadyGone(f: Failure) {
    f.HttpError? && f.code == 404
  }

  /** What the group delete handler makes of the DELETE's result. */
  function DeleteGroupResult(r: Result<Value, Failure>): (o: Outcome)
    ensures o == Done <==> r.Ok? || AlreadyGone(r.error)
    ensures o != Done ==> o == PermanentError("Failed to delete group: " + Text(r.error), None)
  {
    if r.Ok? || AlreadyGone(r.error) then Done
    else PermanentError("Failed to delete group: " + Text(r.error), None)
  }

  /** `delete_group_fn`. */
  method DeleteGroupFn(status: map<string, Value>, env: Env, transport: Transport)
    returns (outcome: Outcome, sent: seq<Request>)
    ensures env.apiKey == "" ==> sent == [] && outcome == PermanentError(ApiKeyMissing, None)
    ensures env.apiKey != "" && env.netbirdUrl == "" ==> sent == [] && outcome == Uncaught(UrlMissing)
    ensures Configured(env) && !Truthy(StoredId(status, GroupIdHandlers)) ==> sent == [] && outcome == Done
    ensures Configured(env) && Truthy(StoredId(status, GroupIdHandlers)) ==>
      var del := Request(DELETE, ApiUrl(env, GroupPath(StoredId(status, GroupIdHandlers))), None);
      && sent == [del]
      && outcome == DeleteGroupResult(Classify(del, transport(del)))
  {
    if env.apiKey == "" {
      return PermanentError(ApiKeyMissing, None), [];
    }
    if env.netbirdUrl == "" {
      return Uncaught(UrlMissing), [];
    }
    var client := new NetbirdClient(env.netbirdUrl, env.apiKey, transport);
    var groupId := FindResourceId(status, GroupIdHandlers);
    if !Truthy(groupId) {
      return Done, client.trace;
    }
    var failure := client.DeleteGroup(groupId);
    if failure.None? || AlreadyGone(failure.value) {
      outcome := Done;
    } else {
      outcome := PermanentError("Failed to delete group: " + Text(failure.value), None);
    }
    sent := client.trace;
  }
}

/** Properties that connect the handlers with each other and with the client. */
module Reconciliation {
  import opened Json
  import opened Specs
  import opened Status
  import opened Client
  import opened Handlers

  /** A 422 from the remote API is raised by the client as a permanent error, but
      the route create and update handlers catch it as a generic exception: it
      ends as a retryable error after 60 seconds whose message carries the remote
      detail. */
  lemma RemoteRejectionIsRetried(req: Request, reason: string, body: Option<Value>, now: string)
    ensures var f := ResultId(Classify(req, Response(422, reason, body))).error;
      && RouteCatch(f, now).TemporaryError?
      && RouteCatch(f, now).delay == 60
      && RouteCatch(f, now).message == "API validation failed: " + RejectionDetail(body)
      && RouteCatch(f, now).attached.value["reason"] == Str("Error")
  {
  }

  /** The same holds for a missing route id in the update handler: although it
      is raised as a permanent error, it is caught and retried. */
  lemma MissingRouteIdIsRetried(now: string)
    ensures RouteCatch(NoRouteId, now) ==
      TemporaryError("No route ID found in status", 60,
                     Some(CreateStatusCondition("False", "Error", "No route ID found in status", Null, now)))
  {
  }

  /** Deleting a group that is already gone succeeds; deleting a route that is
      already gone is a permanent error. */
  lemma NotFoundOnDelete(req: Request, reason: string, body: Option<Value>)
    ensures DeleteGroupResult(Classify(req, Response(404, reason, body))) == Done
    ensures var r := Classify(req, Response(404, reason, body));
      r.Err? && DeleteRouteFailure(r.error).PermanentError?
  {
  }

  /** The external id a successful create records is the one a later delete
      addresses, once the framework has stored the create handler's result under
      its name in the resource's status. */
  method CreateThenDelete(spec: map<string, Value>, env: Env, transport: Transport,
                          check: NetworkCheck, now: string)
    returns (created: Outcome, deleted: Outcome, sent: seq<Request>)
    requires Configured(env)
    ensures created.Success? && "resourceID" in created.status ==>
      var del := Request(DELETE, ApiUrl(env, RoutePath(created.status["resourceID"])), None);
      && sent == [del]
      && deleted == (if Classify(del, transport(del)).Ok? then Done
                     else DeleteRouteFailure(Classify(del, transport(del)).error))
    ensures created.Success? && "resourceID" !in created.status ==> deleted == Done && sent == []
  {
    var createSent;
    created, createSent := CreateFn(spec, env, transport, check, now);
    if !created.Success? {
      deleted, sent := DeleteFn(map[], env, transport);
      return;
    }
    assert ParseRoute(spec, check).Ok?;
    var post := Request(POST, ApiUrl(env, RoutesPath), Some(RouteToWire(ParseRoute(spec, check).value)));
    var id := ResultId(Classify(post, transport(post))).value;
    var message := SuccessMessage("Route", "created", id);
    assert created.status == CreateStatusCondition("True", "RouteCreated", message, id, now);
    var prior := map["create_fn" := Obj(created.status)];
    assert RouteIdHandlers[0] == "create_fn";
    if Truthy(id) {
      CreatedIdIsFound(prior, RouteIdHandlers, "RouteCreated", message, id, now);
      assert created.status["resourceID"] == id;
    } else {
      IdlessStatusFallsThrough(prior, RouteIdHandlers, "RouteCreated", message, id, now);
      assert RouteIdHandlers[1..] == ["update_fn"];
      assert !Records(prior, "update_fn");
      assert StoredId(prior, ["update_fn"]) == Null;
    }
    deleted, sent := DeleteFn(prior, env, transport);
  }

  /** The routes endpoint of the sample deployment. */
  lemma SampleRoutesUrl()
    ensures ApiUrl(Env("https://netbird.example/api", "token"), RoutesPath) == "https://netbird.example/api/routes"
  {
    var base := "https://netbird.example/api";
    assert base[|base| - 1] == 'i';
    assert RStripSlash(base) == base;
    assert RoutesPath[0] == '/' && RoutesPath[1..] == "routes";
    assert LStripSlash("routes") == "routes";
    assert LStripSlash(RoutesPath) == "routes";
  }

  /** A sample creation: creating the route `{network: "192.168.1.0/24",
      peerId: "p1", groups: ["g1"], network_id: "net1"}` against an API that
      answers 201 with `{"id": "r1"}` sends one POST with the defaults filled in
      and records `r1` as the route's resource id. */
  method SampleRouteCreation(check: NetworkCheck, now: string) returns (outcome: Outcome, sent: seq<Request>)
    requires check(Str("192.168.1.0/24")).None?
    ensures |sent| == 1 && sent[0].verb == POST
    ensures sent[0].url == "https://netbird.example/api/routes"
    ensures sent[0].body == Some(map[
      "description" := Str(""), "network" := Str("192.168.1.0/24"), "peer" := Str("p1"),
      "groups" := List([Str("g1")]), "network_id" := Str("net1"), "enabled" := Bool(true),
      "masquerade" := Bool(false), "metric" := Num(9999)])
    ensures outcome.Success? && SingleReadyCondition(outcome.status)
    ensures "resourceID" in outcome.status && outcome.status["resourceID"] == Str("r1")
    ensures outcome.status["status"] == Str("True") && outcome.status["reason"] == Str("RouteCreated")
  {
    var spec := map["network" := Str("192.168.1.0/24"), "peerId" := Str("p1"),
                    "groups" := List([Str("g1")]), "network_id" := Str("net1")];
    var route := RouteSpec(Str("192.168.1.0/24"), Str("p1"), [Str("g1")], Str("net1"),
                           Str(""), Bool(true), Bool(false), Num(9999), Null);
    SampleRouteWire(check);
    var env := Env("https://netbird.example/api", "token");
    var reply := Response(201, "Created", Some(Obj(map["id" := Str("r1")])));
    var transport := (req: Request) => reply;
    outcome, sent := CreateFn(spec, env, transport, check, now);
    var post := Request(POST, ApiUrl(env, RoutesPath), Some(RouteToWire(route)));
    assert sent == [post];
    SampleRoutesUrl();
    assert ResultId(Classify(post, reply)) == Ok(Str("r1"));
    assert outcome == Success(ReadyStatus("RouteCreated", "Route", "created", Str("r1"), now));
    assert Truthy(Str("r1"));
  }
}
