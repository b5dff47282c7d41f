/** The status that handlers hand back to the framework, and the lookup of the
    remote resource id that earlier handlers left in the resource's status. */
module Status {
  import opened Json

  const ConditionKeys: set<string> := {"type", "status", "lastTransitionTime", "reason", "message"}

  /** The status holds exactly one condition, of type Ready, and its top-level
      `status`/`reason` fields mirror that condition. */
  predicate SingleReadyCondition(r: map<string, Value>) {
    && "conditions" in r && "status" in r && "reason" in r
    && r["conditions"].List? && |r["conditions"].items| == 1
    && r["conditions"].items[0].Obj?
    && var c := r["conditions"].items[0].fields;
       && c.Keys == ConditionKeys
       && c["type"] == Str("Ready")
       && c["status"] == r["status"]
       && c["reason"] == r["reason"]
  }

  /** The one condition of a status satisfying SingleReadyCondition. */
  function Condition(r: map<string, Value>): map<string, Value>
    requires SingleReadyCondition(r)
  {
    r["conditions"].items[0].fields
  }

  /** `create_status_condition`. `now` is the clock reading used for both
      timestamps; `resourceId` is `Null` when no id is passed. */
  function CreateStatusCondition(status: string, reason: string, message: string,
                                 resourceId: Value, now: string): (r: map<string, Value>)
    ensures r.Keys == {"lastSync", "conditions", "status", "reason"}
                      + (if Truthy(resourceId) then {"resourceID"} else {})
    ensures SingleReadyCondition(r)
    ensures r["status"] == Str(status) && r["reason"] == Str(reason)
    ensures Condition(r)["message"] == Str(message)
    ensures r["lastSync"] == Str(now) && Condition(r)["lastTransitionTime"] == Str(now)
    ensures "resourceID" in r ==> r["resourceID"] == resourceId
  {
    var condition := map[
      "type" := Str("Ready"),
      "status" := Str(status),
      "lastTransitionTime" := Str(now),
      "reason" := Str(reason),
      "message" := Str(message)];
    var result := map[
      "lastSync" := Str(now),
      "conditions" := List([Obj(condition)]),
      "status" := Str(status),
      "reason" := Str(reason)];
    if Truthy(resourceId) then result["resourceID" := resourceId] else result
  }

  /** Where route handlers look for the route id, in order. */
  const RouteIdHandlers: seq<string> := ["create_fn", "update_fn"]

  /** Where the group delete handler looks for the group id, in order. */
  const GroupIdHandlers: seq<string> := ["create_group_fn", "update_group_fn"]

  /** `handler in status and 'resourceID' in status[handler]`, for a handler
      entry that is a dict. */
  predicate Records(status: map<string, Value>, handler: string) {
    handler in status && status[handler].Obj? && "resourceID" in status[handler].fields
  }

  function RecordedId(status: map<string, Value>, handler: string): Value
    requires Records(status, handler)
  {
    status[handler].fields["resourceID"]
  }

  /** The id recorded by the first handler in `handlers` whose entry has a
      `resourceID` key, even a falsy one; `Null` when none has. */
  function StoredId(status: map<string, Value>, handlers: seq<string>): (id: Value)
    ensures forall i | 0 <= i < |handlers| ::
      Records(status, handlers[i]) && (forall j | 0 <= j < i :: !Records(status, handlers[j]))
      ==> id == RecordedId(status, handlers[i])
    ensures (forall i | 0 <= i < |handlers| :: !Records(status, handlers[i])) ==> id == Null
  {
    if handlers == [] then Null
    else if Records(status, handlers[0]) then RecordedId(status, handlers[0])
    else StoredId(status, handlers[1..])
  }

  /** The loop of the group delete handler: try each handler name in turn and
      stop at the first entry that records a `resourceID`. */
  method FindResourceId(status: map<string, Value>, handlers: seq<string>) returns (id: Value)
    ensures id == StoredId(status, handlers)
  {
    id := Null;
    var k := 0;
    while k < |handlers|
      invariant 0 <= k <= |handlers|
      invariant id == Null
      invariant StoredId(status, handlers) == StoredId(status, handlers[k..])
    {
      if Records(status, handlers[k]) {
        id := RecordedId(status, handlers[k]);
        assert handlers[k..][0] == handlers[k];
        return;
      }
      assert handlers[k..][1..] == handlers[k + 1..];
      k := k + 1;
    }
  }

  /** The join key persists: once a create handler's success status (with a
      truthy remote id) is stored under the first handler name, later handlers
      look up exactly that id. */
  lemma {:induction false} CreatedIdIsFound(status: map<string, Value>, handlers: seq<string>,
                                            reason: string, message: string, id: Value, now: string)
    requires handlers != []
    requires handlers[0] in status
    requires status[handlers[0]] == Obj(CreateStatusCondition("True", reason, message, id, now))
    requires Truthy(id)
    ensures StoredId(status, handlers) == id
  {
    assert Records(status, handlers[0]);
  }

  /** A status stored without an id (a falsy remote id) records nothing, so the
      lookup falls through to the next handler name. */
  lemma {:induction false} IdlessStatusFallsThrough(status: map<string, Value>, handlers: seq<string>,
                                                    reason: string, message: string, id: Value, now: string)
    requires handlers != []
    requires handlers[0] in status
    requires status[handlers[0]] == Obj(CreateStatusCondition("True", reason, message, id, now))
    requires !Truthy(id)
    ensures StoredId(status, handlers) == StoredId(status, handlers[1..])
  {
    assert !Records(status, handlers[0]);
  }

  /** The route handlers' `if ... elif ...`: the create entry wins whenever it has
      a `resourceID` key, and the update entry is consulted only otherwise. */
  lemma RouteIdPrecedence(status: map<string, Value>)
    ensures Records(status, "create_fn") ==> StoredId(status, RouteIdHandlers) == RecordedId(status, "create_fn")
    ensures !Records(status, "create_fn") && Records(status, "update_fn") ==>
      StoredId(status, RouteIdHandlers) == RecordedId(status, "update_fn")
    ensures !Records(status, "create_fn") && !Records(status, "update_fn") ==>
      StoredId(status, RouteIdHandlers) == Null
  {
    assert RouteIdHandlers[0] == "create_fn" && RouteIdHandlers[1] == "update_fn";
  }
}
