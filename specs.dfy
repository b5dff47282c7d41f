/** The declared specifications of the two resource kinds, network routes and
    peer groups: parsing a loosely typed spec map into a typed record (with the
    source's validation order, defaults and Python truthiness), and writing the
    record back out as the map sent to the remote API. */
module Specs {
  import opened Json

  /** The `ValueError`s raised while parsing a spec, in the order they are checked. */
  datatype SpecError =
    | PeerRequired
    | NetworkRequired
    | NetworkInvalid(network: Value, detail: string)
    | GroupsRequired
    | NetworkIdRequired
    | MetricInvalid(metric: Value)
    | NameRequired
    | PeersNotList

  /** The text of each error, as `str(e)` renders it. */
  function Message(e: SpecError): string {
    match e
    case PeerRequired => "peerId is required"
    case NetworkRequired => "network is required"
    case NetworkInvalid(network, detail) => "Invalid network format: " + Show(network) + ". Error: " + detail
    case GroupsRequired => "groups is required and must be a list"
    case NetworkIdRequired => "network_id is required"
    case MetricInvalid(metric) => "Invalid metric value: " + Show(metric) + ". Must be a positive number."
    case NameRequired => "name is required"
    case PeersNotList => "if peers is provided, it must be a list"
  }

  /** Different validation failures never share a text, so the message a user
      sees names the check that failed. */
  lemma MessagesDistinguishErrors(e1: SpecError, e2: SpecError)
    requires Message(e1) == Message(e2)
    ensures e1.PeerRequired? == e2.PeerRequired? && e1.NetworkRequired? == e2.NetworkRequired?
    ensures e1.NetworkInvalid? == e2.NetworkInvalid? && e1.GroupsRequired? == e2.GroupsRequired?
    ensures e1.NetworkIdRequired? == e2.NetworkIdRequired? && e1.MetricInvalid? == e2.MetricInvalid?
    ensures e1.NameRequired? == e2.NameRequired? && e1.PeersNotList? == e2.PeersNotList?
  {
    MessageHead(e1);
    MessageHead(e2);
  }

  /** The first characters of each message. */
  lemma MessageHead(e: SpecError)
    ensures |Message(e)| > 10
    ensures Message(e)[0] == 'I' <==> e.NetworkInvalid? || e.MetricInvalid?
    ensures e.NetworkInvalid? ==> Message(e)[8] == 'n'
    ensures e.MetricInvalid? ==> Message(e)[8] == 'm'
  {
    match e
    case NetworkInvalid(network, detail) =>
      HeadOf("Invalid network format: ", Show(network) + ". Error: " + detail);
    case MetricInvalid(metric) =>
      HeadOf("Invalid metric value: ", Show(metric) + ". Must be a positive number.");
    case _ =>
  }

  lemma HeadOf(head: string, rest: string)
    ensures |head + rest| >= |head| && (head + rest)[..|head|] == head
  {
  }

  /** The IP network parser the route validation calls: `None` when it accepts
      the value, `Some(detail)` when it raises a `ValueError` with that text. */
  type NetworkCheck = Value -> Option<string>

  // ---------------------------------------------------------------- groups

  /** A peer group. Fields keep whatever value the input held (Python does not
      enforce the dataclass annotations); `peers == None` means "not declared". */
  datatype GroupSpec = GroupSpec(name: Value, description: Value, peers: Option<seq<Value>>, id: Value)

  /** What every parsed group satisfies. */
  predicate ValidGroup(g: GroupSpec) {
    Truthy(g.name)
  }

  /** `GroupSpec.from_dict`. */
  function ParseGroup(data: map<string, Value>): (r: Result<GroupSpec, SpecError>)
    ensures r == Err(NameRequired) <==> !Truthy(Get(data, "name"))
    ensures r == Err(PeersNotList) <==>
      Truthy(Get(data, "name")) && !Get(data, "peers").Null? && !Get(data, "peers").List?
    ensures r.Ok? <==>
      Truthy(Get(data, "name")) && (Get(data, "peers").Null? || Get(data, "peers").List?)
    ensures r.Ok? ==> ValidGroup(r.value)
    ensures r.Ok? ==> r.value.name == data["name"] && r.value.id == Get(data, "id")
    ensures r.Ok? ==> r.value.description == GetOr(data, "description", Str(""))
    ensures r.Ok? ==> (r.value.peers.None? <==> Get(data, "peers").Null?)
    ensures r.Ok? && r.value.peers.Some? ==> data["peers"] == List(r.value.peers.value)
  {
    var name := Get(data, "name");
    if !Truthy(name) then Err(NameRequired)
    else
      var peers := Get(data, "peers");
      if !peers.Null? && !peers.List? then Err(PeersNotList)
      else
        Ok(GroupSpec(
             name := name,
             description := GetOr(data, "description", Str("")),
             peers := if peers.Null? then None else Some(peers.items),
             id := Get(data, "id")))
  }

  /** `GroupSpec.to_dict`: the body of a group request. */
  function GroupToWire(g: GroupSpec): (w: map<string, Value>)
    ensures w.Keys == {"name", "description"}
                      + (if g.peers.Some? then {"peers"} else {})
                      + (if Truthy(g.id) then {"id"} else {})
    ensures w["name"] == g.name && w["description"] == g.description
    ensures "peers" in w ==> w["peers"] == List(g.peers.value)
    ensures "id" in w ==> w["id"] == g.id
  {
    var base := map["name" := g.name, "description" := g.description];
    var withPeers := if g.peers.Some? then base["peers" := List(g.peers.value)] else base;
    if Truthy(g.id) then withPeers["id" := g.id] else withPeers
  }

  /** A valid group whose id is unset or truthy survives a round trip through its wire form. */
  lemma GroupRoundTrip(g: GroupSpec)
    requires ValidGroup(g)
    requires g.id == Null || Truthy(g.id)
    ensures ParseGroup(GroupToWire(g)) == Ok(g)
  {
  }

  /** A falsy but present id (`""`, `0`, ...) is dropped by the wire form and reads back as None. */
  lemma GroupRoundTripFalsyId(g: GroupSpec)
    requires ValidGroup(g)
    requires !Truthy(g.id)
    ensures ParseGroup(GroupToWire(g)) == Ok(g.(id := Null))
  {
  }

  /** Undeclared peers and an empty peer list are different wire payloads. */
  lemma GroupPeersAbsenceIsPreserved(data: map<string, Value>)
    requires Truthy(Get(data, "name"))
    ensures "peers" !in data ==> ParseGroup(data).Ok? && "peers" !in GroupToWire(ParseGroup(data).value)
    ensures Get(data, "peers") == List([]) ==>
      ParseGroup(data).Ok? && GroupToWire(ParseGroup(data).value)["peers"] == List([])
  {
  }

  // ---------------------------------------------------------------- routes

  /** A network route. `groups` holds the items of the declared list; the
      other non-default fields keep the input's value as it was. */
  datatype RouteSpec = RouteSpec(
    network: Value,
    peer: Value,
    groups: seq<Value>,
    networkId: Value,
    description: Value,
    enabled: Value,
    masquerade: Value,
    metric: Value,
    id: Value)

  const DefaultMetric := 9999

  /** `isinstance(m, (int, float)) and m >= 0`; a bool is an int in Python. */
  predicate ValidMetric(m: Value) {
    (m.Num? && m.n >= 0) || m.Bool?
  }

  /** The peer read from `peerId`, or from `peer` when `peerId` is falsy. */
  function PeerOf(data: map<string, Value>): Value {
    Or(Get(data, "peerId"), Get(data, "peer"))
  }

  /** What every parsed route satisfies. */
  predicate ValidRoute(s: RouteSpec, check: NetworkCheck) {
    && Truthy(s.peer)
    && Truthy(s.network)
    && check(s.network).None?
    && s.groups != []
    && Truthy(s.networkId)
    && ValidMetric(s.metric)
  }

  /** `RouteSpec.from_dict`: the first failing check decides the error. */
  function ParseRoute(data: map<string, Value>, check: NetworkCheck): (r: Result<RouteSpec, SpecError>)
    ensures r == Err(PeerRequired) <==> !Truthy(PeerOf(data))
    ensures r == Err(NetworkRequired) <==> Truthy(PeerOf(data)) && !Truthy(Get(data, "network"))
    ensures (r.Err? && r.error.NetworkInvalid?) <==>
      Truthy(PeerOf(data)) && Truthy(Get(data, "network")) && check(data["network"]).Some?
    ensures r.Err? && r.error.NetworkInvalid? ==>
      r.error == NetworkInvalid(data["network"], check(data["network"]).value)
    ensures r == Err(GroupsRequired) <==>
      && Truthy(PeerOf(data)) && Truthy(Get(data, "network")) && check(data["network"]).None?
      && !(Truthy(Get(data, "groups")) && Get(data, "groups").List?)
    ensures r == Err(NetworkIdRequired) <==>
      && Truthy(PeerOf(data)) && Truthy(Get(data, "network")) && check(data["network"]).None?
      && Truthy(Get(data, "groups")) && Get(data, "groups").List?
      && !Truthy(Get(data, "network_id"))
    ensures (r.Err? && r.error.MetricInvalid?) <==>
      && Truthy(PeerOf(data)) && Truthy(Get(data, "network")) && check(data["network"]).None?
      && Truthy(Get(data, "groups")) && Get(data, "groups").List?
      && Truthy(Get(data, "network_id"))
      && !ValidMetric(GetOr(data, "metric", Num(DefaultMetric)))
    ensures r.Err? && r.error.MetricInvalid? ==> r.error.metric == GetOr(data, "metric", Num(DefaultMetric))
    ensures r.Err? ==> !r.error.NameRequired? && !r.error.PeersNotList?
    ensures r.Ok? ==> ValidRoute(r.value, check)
    ensures r.Ok? ==> && r.value.peer == PeerOf(data)
                      && r.value.network == data["network"]
                      && List(r.value.groups) == data["groups"]
                      && r.value.networkId == data["network_id"]
                      && r.value.id == Get(data, "id")
    ensures r.Ok? ==> && r.value.description == GetOr(data, "description", Str(""))
                      && r.value.enabled == GetOr(data, "enabled", Bool(true))
                      && r.value.masquerade == GetOr(data, "masquerade", Bool(false))
                      && r.value.metric == GetOr(data, "metric", Num(DefaultMetric))
  {
    var peer := PeerOf(data);
    if !Truthy(peer) then Err(PeerRequired)
    else
      var network := Get(data, "network");
      if !Truthy(network) then Err(NetworkRequired)
      else if check(network).Some? then Err(NetworkInvalid(network, check(network).value))
      else
        var groups := Get(data, "groups");
        if !Truthy(groups) || !groups.List? then Err(GroupsRequired)
        else
          var networkId := Get(data, "network_id");
          if !Truthy(networkId) then Err(NetworkIdRequired)
          else
            var metric := GetOr(data, "metric", Num(DefaultMetric));
            if !ValidMetric(metric) then Err(MetricInvalid(metric))
            else
              Ok(RouteSpec(
                   network := network,
                   peer := peer,
                   groups := groups.items,
                   networkId := networkId,
                   description := GetOr(data, "description", Str("")),
                   enabled := GetOr(data, "enabled", Bool(true)),
                   masquerade := GetOr(data, "masquerade", Bool(false)),
                   metric := metric,
                   id := Get(data, "id")))
  }

  const RouteWireKeys: set<string> :=
    {"description", "network", "peer", "groups", "network_id", "enabled", "masquerade", "metric"}

  /** `RouteSpec.to_dict`: the body of a route request. The peer goes out under `peer`. */
  function RouteToWire(s: RouteSpec): (w: map<string, Value>)
    ensures w.Keys == RouteWireKeys + (if Truthy(s.id) then {"id"} else {})
    ensures && w["description"] == s.description && w["network"] == s.network
            && w["peer"] == s.peer && w["groups"] == List(s.groups)
            && w["network_id"] == s.networkId && w["enabled"] == s.enabled
            && w["masquerade"] == s.masquerade && w["metric"] == s.metric
    ensures "id" in w ==> w["id"] == s.id
  {
    var base := map[
      "description" := s.description,
      "network" := s.network,
      "peer" := s.peer,
      "groups" := List(s.groups),
      "network_id" := s.networkId,
      "enabled" := s.enabled,
      "masquerade" := s.masquerade,
      "metric" := s.metric];
    if Truthy(s.id) then base["id" := s.id] else base
  }

  /** A valid route whose id is unset or truthy survives a round trip through its
      wire form: `from_dict` accepts the `peer` key that `to_dict` writes. */
  lemma RouteRoundTrip(s: RouteSpec, check: NetworkCheck)
    requires ValidRoute(s, check)
    requires s.id == Null || Truthy(s.id)
    ensures ParseRoute(RouteToWire(s), check) == Ok(s)
  {
    var w := RouteToWire(s);
    assert "peerId" !in w;
    assert PeerOf(w) == s.peer;
  }

  /** A falsy but present id is dropped by the wire form and reads back as None. */
  lemma RouteRoundTripFalsyId(s: RouteSpec, check: NetworkCheck)
    requires ValidRoute(s, check)
    requires !Truthy(s.id)
    ensures ParseRoute(RouteToWire(s), check) == Ok(s.(id := Null))
  {
    var w := RouteToWire(s);
    assert "peerId" !in w;
    assert PeerOf(w) == s.peer;
  }

  /** Parsing is a normalisation: parse, write out and parse again gives the
      first result back, up to an id that was present but falsy. */
  lemma RouteReparse(data: map<string, Value>, check: NetworkCheck)
    requires ParseRoute(data, check).Ok?
    ensures var s := ParseRoute(data, check).value;
      ParseRoute(RouteToWire(s), check) == Ok(if Truthy(s.id) then s else s.(id := Null))
  {
    var s := ParseRoute(data, check).value;
    if Truthy(s.id) {
      RouteRoundTrip(s, check);
    } else {
      RouteRoundTripFalsyId(s, check);
    }
  }

  /** A sample route: `{network: "192.168.1.0/24", peerId: "p1",
      groups: ["g1"], network_id: "net1"}` is sent with enabled, masquerade and
      metric defaulted and without an id. */
  lemma SampleRouteWire(check: NetworkCheck)
    requires check(Str("192.168.1.0/24")).None?
    ensures var data := map["network" := Str("192.168.1.0/24"), "peerId" := Str("p1"),
                             "groups" := List([Str("g1")]), "network_id" := Str("net1")];
      && ParseRoute(data, check) == Ok(RouteSpec(Str("192.168.1.0/24"), Str("p1"), [Str("g1")], Str("net1"),
                                                  Str(""), Bool(true), Bool(false), Num(9999), Null))
      && RouteToWire(ParseRoute(data, check).value) == map[
           "description" := Str(""), "network" := Str("192.168.1.0/24"), "peer" := Str("p1"),
           "groups" := List([Str("g1")]), "network_id" := Str("net1"), "enabled" := Bool(true),
           "masquerade" := Bool(false), "metric" := Num(9999)]
  {
  }

  /** An invalid prefix length is reported as an invalid network, whatever else the spec holds. */
  lemma BadNetworkIsRejected(data: map<string, Value>, check: NetworkCheck)
    requires Truthy(PeerOf(data))
    requires Get(data, "network") == Str("10.0.0.0/33")
    requires check(Str("10.0.0.0/33")).Some?
    ensures ParseRoute(data, check) == Err(NetworkInvalid(Str("10.0.0.0/33"), check(Str("10.0.0.0/33")).value))
  {
  }
}
