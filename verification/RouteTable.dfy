/** What the proxier's tables become under each event, stated key by key (`proxy/types.go`,
  `proxy/template/proxier.go`).

  The loops that compute these tables are in `Proxier`. */
module RouteTable {
  import opened EventQueue

  datatype ServicePort = ServicePort(name: string, port: int, protocol: string)
  datatype Service = Service(ns: string, name: string, clusterIP: string, ports: seq<ServicePort>)
  datatype EndpointPort = EndpointPort(name: string, port: int)
  datatype Subset = Subset(ports: seq<EndpointPort>, addresses: seq<string>)
  datatype Endpoints = Endpoints(ns: string, name: string, subsets: seq<Subset>)

  datatype ServiceInfo = ServiceInfo(clusterIP: string, port: int, protocol: string)
  datatype Endpoint = Endpoint(ip: string, port: int)
  datatype Unit = Unit(name: string, info: ServiceInfo, endpoints: seq<Endpoint>)
  type Table = map<string, Unit>

  const UDP := "UDP"
  const NO_INFO := ServiceInfo("", 0, "")

  // Keys

  predicate NoColon(s: string) {
    ':' !in s
  }

  function ServiceKey(ns: string, name: string): string {
    ns + ":" + name
  }

  /** `ServicePortName.String`. */
  function PortKey(ns: string, name: string, port: string): string {
    ServiceKey(ns, name) + ":" + port
  }

  /** `strings.LastIndex(s, ":")`. */
  function LastColon(s: string): (i: int)
    ensures -1 <= i < |s|
    ensures i >= 0 ==> s[i] == ':' && NoColon(s[i + 1..])
    ensures i < 0 ==> NoColon(s)
  {
    if s == [] then -1
    else if s[|s| - 1] == ':' then |s| - 1
    else
      var i := LastColon(s[..|s| - 1]);
      assert i >= 0 ==> s[i + 1..] == s[..|s| - 1][i + 1..] + [s[|s| - 1]];
      assert s == s[..|s| - 1] + [s[|s| - 1]];
      i
  }

  /** The service a table key belongs to, and its port. */
  function ServiceOf(key: string): string
    requires LastColon(key) >= 0
  {
    key[..LastColon(key)]
  }

  function PortOf(key: string): string
    requires LastColon(key) >= 0
  {
    key[LastColon(key) + 1..]
  }

  lemma LastColonOf(a: string, b: string)
    requires NoColon(b)
    ensures LastColon(a + ":" + b) == |a|
  {
    assert (a + ":" + b)[|a|] == ':';
  }

  /** A key tells the service and the port it was made of. */
  lemma KeyParts(ns: string, name: string, port: string)
    requires NoColon(port)
    ensures var key := PortKey(ns, name, port);
            LastColon(key) >= 0 && ServiceOf(key) == ServiceKey(ns, name) && PortOf(key) == port
  {
    LastColonOf(ServiceKey(ns, name), port);
  }

  lemma KeyOfParts(key: string)
    requires LastColon(key) >= 0
    ensures key == ServiceOf(key) + ":" + PortOf(key)
  {
  }

  lemma ServiceKeyInjective(ns: string, name: string, ns': string, name': string)
    requires NoColon(name) && NoColon(name') && ServiceKey(ns, name) == ServiceKey(ns', name')
    ensures ns == ns' && name == name'
  {
    LastColonOf(ns, name);
    LastColonOf(ns', name');
    assert ServiceKey(ns, name)[..|ns|] == ns && ServiceKey(ns', name')[..|ns|] == ns';
    assert ServiceKey(ns, name)[|ns| + 1..] == name && ServiceKey(ns', name')[|ns| + 1..] == name';
  }

  /** Names as the API server accepts them. */
  predicate ValidService(s: Service) {
    NoColon(s.ns) && NoColon(s.name) && forall p | p in s.ports :: NoColon(p.name)
  }

  predicate ValidEndpoints(e: Endpoints) {
    NoColon(e.ns) && NoColon(e.name) && forall ss, p | ss in e.subsets && p in ss.ports :: NoColon(p.name)
  }

  /** Every key can be split, and names its unit. */
  ghost predicate TableInv(t: Table) {
    forall key | key in t :: LastColon(key) >= 0 && t[key].name == key
  }

  // Services

  /** `api.IsServiceIPSet`. */
  predicate IPSet(s: Service) {
    s.clusterIP != "" && s.clusterIP != "None"
  }

  function KeyAt(s: Service, i: nat): string
    requires i < |s.ports|
  {
    PortKey(s.ns, s.name, s.ports[i].name)
  }

  /** What the last of the first `n` ports with this key says, UDP ports left aside. */
  function InfoUpTo(s: Service, n: nat, key: string): Option<ServiceInfo>
    requires n <= |s.ports|
  {
    if n == 0 then None
    else if s.ports[n - 1].protocol != UDP && KeyAt(s, n - 1) == key then
      Some(ServiceInfo(s.clusterIP, s.ports[n - 1].port, s.ports[n - 1].protocol))
    else InfoUpTo(s, n - 1, key)
  }

  function Info(s: Service, key: string): Option<ServiceInfo> {
    InfoUpTo(s, |s.ports|, key)
  }

  function PortKeys(s: Service): set<string> {
    set i | 0 <= i < |s.ports| :: KeyAt(s, i)
  }

  lemma {:induction false} InfoIff(s: Service, n: nat, key: string)
    requires n <= |s.ports|
    ensures InfoUpTo(s, n, key).Some? <==> exists i | 0 <= i < n :: s.ports[i].protocol != UDP && KeyAt(s, i) == key
  {
    if n > 0 {
      InfoIff(s, n - 1, key);
    }
  }

  function InfoAt(s: Service, i: nat): ServiceInfo
    requires i < |s.ports|
  {
    ServiceInfo(s.clusterIP, s.ports[i].port, s.ports[i].protocol)
  }

  /** Port `i` is the last of the first `n` with this key, UDP ports left aside. */
  predicate LastPort(s: Service, n: nat, key: string, i: nat)
    requires n <= |s.ports|
  {
    && i < n && s.ports[i].protocol != UDP && KeyAt(s, i) == key
    && forall k | i < k < n :: s.ports[k].protocol == UDP || KeyAt(s, k) != key
  }

  lemma {:induction false} InfoIsLast(s: Service, n: nat, key: string) returns (i: nat)
    requires n <= |s.ports| && InfoUpTo(s, n, key).Some?
    ensures LastPort(s, n, key, i) && InfoUpTo(s, n, key) == Some(InfoAt(s, i))
  {
    if s.ports[n - 1].protocol != UDP && KeyAt(s, n - 1) == key {
      i := n - 1;
    } else {
      i := InfoIsLast(s, n - 1, key);
    }
  }

  /** The entry of `key`, if any. */
  function At(t: Table, key: string): Option<Unit> {
    if key in t then Some(t[key]) else None
  }

  function Informed(entry: Option<Unit>, key: string, info: ServiceInfo): Unit {
    if entry.Some? then entry.value.(info := info) else Unit(key, info, [])
  }

  /** The entry of `key` with what a service says of it. */
  function WithInfo(t: Table, key: string, info: ServiceInfo): Unit {
    Informed(At(t, key), key, info)
  }

  predicate OfService(key: string, s: Service) {
    LastColon(key) >= 0 && ServiceOf(key) == ServiceKey(s.ns, s.name)
  }

  /** A service was added: its ports are entered, what their entries hold of endpoints kept. */
  function ServiceAdded(t: Table, s: Service): Table {
    map key | key in t.Keys + PortKeys(s) && (key in t || Info(s, key).Some?)
            :: if Info(s, key).Some? then WithInfo(t, key, Info(s, key).value) else t[key]
  }

  /** A service was modified: besides, its entries that are no port of it any more are dropped. */
  function ServiceModified(t: Table, s: Service): Table
    requires forall key | key in t :: LastColon(key) >= 0
  {
    map key | key in t.Keys + PortKeys(s)
              && (Info(s, key).Some? || (key in t && ServiceOf(key) != ServiceKey(s.ns, s.name)))
            :: if Info(s, key).Some? then WithInfo(t, key, Info(s, key).value) else t[key]
  }

  /** A service was deleted: every port it names goes. */
  function ServiceDeleted(t: Table, s: Service): Table {
    t - PortKeys(s)
  }

  // Endpoints

  function AtPort(addresses: seq<string>, port: int): seq<Endpoint> {
    seq(|addresses|, i requires 0 <= i < |addresses| => Endpoint(addresses[i], port))
  }

  /** The ports of that name, in order, each with every address. */
  function OfPorts(ports: seq<EndpointPort>, addresses: seq<string>, name: string): seq<Endpoint> {
    if ports == [] then []
    else
      var last := ports[|ports| - 1];
      OfPorts(ports[..|ports| - 1], addresses, name) + if last.name == name then AtPort(addresses, last.port) else []
  }

  /** All addresses of the port of that name: the subsets filtered and flattened. */
  function Flatten(subsets: seq<Subset>, name: string): seq<Endpoint> {
    if subsets == [] then []
    else
      var last := subsets[|subsets| - 1];
      Flatten(subsets[..|subsets| - 1], name) + OfPorts(last.ports, last.addresses, name)
  }

  function PortNames(subsets: seq<Subset>): set<string> {
    set i, j | 0 <= i < |subsets| && 0 <= j < |subsets[i].ports| :: subsets[i].ports[j].name
  }

  lemma {:induction false} OfPortsNames(ports: seq<EndpointPort>, addresses: seq<string>, name: string)
    requires OfPorts(ports, addresses, name) != []
    ensures exists j | 0 <= j < |ports| :: ports[j].name == name
  {
    if OfPorts(ports[..|ports| - 1], addresses, name) != [] {
      OfPortsNames(ports[..|ports| - 1], addresses, name);
    }
  }

  lemma {:induction false} FlattenNames(subsets: seq<Subset>, name: string)
    requires Flatten(subsets, name) != []
    ensures name in PortNames(subsets)
  {
    var last := subsets[|subsets| - 1];
    if OfPorts(last.ports, last.addresses, name) != [] {
      OfPortsNames(last.ports, last.addresses, name);
    } else {
      FlattenNames(subsets[..|subsets| - 1], name);
    }
  }

  predicate OffersIn(ports: seq<EndpointPort>, addresses: seq<string>, name: string, ep: Endpoint) {
    ep.ip in addresses && EndpointPort(name, ep.port) in ports
  }

  /** Some subset has this address for a port of that name. */
  predicate Offers(subsets: seq<Subset>, name: string, ep: Endpoint) {
    exists i | 0 <= i < |subsets| :: OffersIn(subsets[i].ports, subsets[i].addresses, name, ep)
  }

  lemma {:induction false} OfPortsMembers(ports: seq<EndpointPort>, addresses: seq<string>, name: string, ep: Endpoint)
    ensures ep in OfPorts(ports, addresses, name) <==> OffersIn(ports, addresses, name, ep)
  {
    if ports != [] {
      var init, last := ports[..|ports| - 1], ports[|ports| - 1];
      assert ports == init + [last];
      OfPortsMembers(init, addresses, name, ep);
      AtPortMembers(addresses, last.port, ep);
    }
  }

  lemma AtPortMembers(addresses: seq<string>, port: int, ep: Endpoint)
    ensures ep in AtPort(addresses, port) <==> ep.port == port && ep.ip in addresses
  {
    if ep.port == port && ep.ip in addresses {
      var i :| 0 <= i < |addresses| && addresses[i] == ep.ip;
      assert AtPort(addresses, port)[i] == ep;
    }
  }

  lemma {:induction false} FlattenMembers(subsets: seq<Subset>, name: string, ep: Endpoint)
    ensures ep in Flatten(subsets, name) <==> Offers(subsets, name, ep)
  {
    if subsets != [] {
      var init, last := subsets[..|subsets| - 1], subsets[|subsets| - 1];
      var before, more := Flatten(init, name), OfPorts(last.ports, last.addresses, name);
      assert Flatten(subsets, name) == before + more;
      hide Flatten, OfPorts;
      FlattenMembers(init, name, ep);
      OfPortsMembers(last.ports, last.addresses, name, ep);
      OffersMore(init, last, name, ep);
      assert subsets == init + [last];
    }
  }

  lemma OffersMore(init: seq<Subset>, last: Subset, name: string, ep: Endpoint)
    ensures Offers(init + [last], name, ep)
       <==> Offers(init, name, ep) || OffersIn(last.ports, last.addresses, name, ep)
  {
    hide OffersIn;
    var all := init + [last];
    if Offers(init, name, ep) {
      var i :| 0 <= i < |init| && OffersIn(init[i].ports, init[i].addresses, name, ep);
      assert all[i] == init[i];
    }
    assert all[|init|] == last;
  }

  function Addressed(entry: Option<Unit>, key: string, endpoints: seq<Endpoint>): Unit {
    if entry.Some? then entry.value.(endpoints := endpoints) else Unit(key, NO_INFO, endpoints)
  }

  function WithEndpoints(t: Table, key: string, endpoints: seq<Endpoint>): Unit {
    Addressed(At(t, key), key, endpoints)
  }

  predicate OfEndpoints(key: string, e: Endpoints) {
    LastColon(key) >= 0 && ServiceOf(key) == ServiceKey(e.ns, e.name)
  }

  /** The keys of the ports that have an address. */
  function EndpointKeys(e: Endpoints): (keys: set<string>)
    requires ValidEndpoints(e)
    ensures forall key | key in keys :: OfEndpoints(key, e) && Flatten(e.subsets, PortOf(key)) != []
  {
    assert forall name | name in PortNames(e.subsets) ::
      OfEndpoints(PortKey(e.ns, e.name, name), e) && PortOf(PortKey(e.ns, e.name, name)) == name
    by {
      forall name | name in PortNames(e.subsets)
        ensures OfEndpoints(PortKey(e.ns, e.name, name), e) && PortOf(PortKey(e.ns, e.name, name)) == name
      {
        KeyParts(e.ns, e.name, name);
      }
    }
    set name | name in PortNames(e.subsets) && Flatten(e.subsets, name) != [] :: PortKey(e.ns, e.name, name)
  }

  /** Endpoints were added: the ports with an address are entered. */
  function EndpointsAdded(t: Table, e: Endpoints): Table
    requires ValidEndpoints(e)
  {
    map key | key in t.Keys + EndpointKeys(e)
            :: if key in EndpointKeys(e) then WithEndpoints(t, key, Flatten(e.subsets, PortOf(key))) else t[key]
  }

  /** Endpoints were modified: every entry of the service holds the addresses of its port, or none. */
  function EndpointsModified(t: Table, e: Endpoints): Table
    requires ValidEndpoints(e)
  {
    map key | key in t.Keys + EndpointKeys(e)
            :: if OfEndpoints(key, e) then WithEndpoints(t, key, Flatten(e.subsets, PortOf(key))) else t[key]
  }

  /** Endpoints were deleted: the entries of the ports they name are emptied. */
  function EndpointsDeleted(t: Table, e: Endpoints): Table {
    map key | key in t
            :: if OfEndpoints(key, e) && PortOf(key) in PortNames(e.subsets) then t[key].(endpoints := []) else t[key]
  }

  // Events

  /** `HandleService`, on the route table. */
  function ServiceEvent(t: Table, event: EventType, s: Service): Table
    requires TableInv(t)
  {
    match event
    case Added => if IPSet(s) then ServiceAdded(t, s) else t
    case Modified => if IPSet(s) then ServiceModified(t, s) else t
    case Deleted => ServiceDeleted(t, s)
  }

  /** `HandleService`, on the VIP table. */
  function VipsAfter(vips: set<string>, event: EventType, s: Service): set<string> {
    if event == Deleted then vips - {s.clusterIP}
    else if IPSet(s) then vips + {s.clusterIP}
    else vips
  }

  /** Whether `HandleService` gets as far as the commit for keepalived. */
  predicate ChangesVips(vips: set<string>, event: EventType, s: Service) {
    event == Deleted || (IPSet(s) && s.clusterIP !in vips)
  }

  /** `HandleEndpoints`, on the route table; nothing is added without subsets. */
  function EndpointsEvent(t: Table, event: EventType, e: Endpoints): Table
    requires ValidEndpoints(e)
  {
    match event
    case Added => if e.subsets == [] then t else EndpointsAdded(t, e)
    case Modified => EndpointsModified(t, e)
    case Deleted => EndpointsDeleted(t, e)
  }

  // Entry by entry

  /** What a service event makes of the entry of `key`. */
  function ServiceEntry(entry: Option<Unit>, event: EventType, s: Service, key: string): Option<Unit> {
    match event
    case Added => if IPSet(s) && Info(s, key).Some? then Some(Informed(entry, key, Info(s, key).value)) else entry
    case Modified =>
      if !IPSet(s) then entry
      else if Info(s, key).Some? then Some(Informed(entry, key, Info(s, key).value))
      else if OfService(key, s) then None
      else entry
    case Deleted => if key in PortKeys(s) then None else entry
  }

  /** What an endpoints event makes of the entry of `key`, which is one of its service. */
  function EndpointsEntry(entry: Option<Unit>, event: EventType, e: Endpoints, key: string): Option<Unit>
    requires OfEndpoints(key, e)
  {
    var addresses := Flatten(e.subsets, PortOf(key));
    match event
    case Added => if addresses != [] then Some(Addressed(entry, key, addresses)) else entry
    case Modified => if entry.Some? || addresses != [] then Some(Addressed(entry, key, addresses)) else None
    case Deleted =>
      if entry.Some? && PortOf(key) in PortNames(e.subsets) then Some(Addressed(entry, key, [])) else entry
  }

  lemma InfoIsOfPorts(s: Service, key: string)
    ensures Info(s, key).Some? ==> key in PortKeys(s)
  {
    InfoIff(s, |s.ports|, key);
  }

  /** The ports of a service have keys of that service. */
  lemma PortKeysOf(s: Service, key: string)
    requires ValidService(s) && key in PortKeys(s)
    ensures OfService(key, s)
  {
    var i :| 0 <= i < |s.ports| && key == KeyAt(s, i);
    KeyParts(s.ns, s.name, s.ports[i].name);
  }

  lemma EndpointKeyIff(e: Endpoints, key: string)
    requires ValidEndpoints(e) && OfEndpoints(key, e)
    ensures key in EndpointKeys(e) <==> Flatten(e.subsets, PortOf(key)) != []
  {
    if Flatten(e.subsets, PortOf(key)) != [] {
      FlattenNames(e.subsets, PortOf(key));
      KeyOfParts(key);
    }
  }

  lemma ServiceEventAt(t: Table, event: EventType, s: Service, key: string)
    requires TableInv(t)
    ensures At(ServiceEvent(t, event, s), key) == ServiceEntry(At(t, key), event, s, key)
  {
    InfoIsOfPorts(s, key);
    hide Info, PortKeys, IPSet, LastColon, ServiceKey;
  }

  lemma EndpointsEventAt(t: Table, event: EventType, e: Endpoints, key: string)
    requires ValidEndpoints(e) && OfEndpoints(key, e)
    ensures At(EndpointsEvent(t, event, e), key) == EndpointsEntry(At(t, key), event, e, key)
  {
    EndpointKeyIff(e, key);
    assert e.subsets == [] ==> Flatten(e.subsets, PortOf(key)) == [];
    hide Flatten, EndpointKeys, PortOf, OfEndpoints, ValidEndpoints, PortNames;
  }

  /** An entry that a service event leaves or makes is named by its key. */
  lemma ServiceEntryNamed(entry: Option<Unit>, event: EventType, s: Service, key: string)
    requires ValidService(s) && (entry.Some? ==> LastColon(key) >= 0 && entry.value.name == key)
    ensures var entry' := ServiceEntry(entry, event, s, key);
            entry'.Some? ==> LastColon(key) >= 0 && entry'.value.name == key
  {
    InfoIsOfPorts(s, key);
    if Info(s, key).Some? {
      PortKeysOf(s, key);
    }
    hide Info, PortKeys, IPSet, ValidService, ServiceKey, LastColon, ServiceOf;
  }

  /** After every service event each key can be split and names its unit. */
  lemma ServiceEventKeepsInv(t: Table, event: EventType, s: Service)
    requires TableInv(t) && ValidService(s)
    ensures TableInv(ServiceEvent(t, event, s))
  {
    var t' := ServiceEvent(t, event, s);
    hide ServiceEvent, ServiceEntry, ValidService, LastColon;
    forall key | key in t' ensures LastColon(key) >= 0 && t'[key].name == key {
      ServiceEventAt(t, event, s, key);
      ServiceEntryNamed(At(t, key), event, s, key);
    }
  }

  lemma EndpointsEventKeepsInv(t: Table, event: EventType, e: Endpoints)
    requires TableInv(t) && ValidEndpoints(e)
    ensures TableInv(EndpointsEvent(t, event, e))
  {
    hide Flatten, PortOf, ServiceOf, ServiceKey, LastColon, ValidEndpoints, PortNames;
  }

  /** A service event leaves the entries of every other service alone. */
  lemma ServiceEventIsLocal(t: Table, event: EventType, s: Service, key: string)
    requires TableInv(t) && ValidService(s) && !OfService(key, s)
    ensures At(ServiceEvent(t, event, s), key) == At(t, key)
  {
    ServiceEventAt(t, event, s, key);
    InfoIsOfPorts(s, key);
    if key in PortKeys(s) {
      PortKeysOf(s, key);
    }
    hide ServiceEvent, Info, PortKeys, IPSet, OfService, ValidService, At;
  }

  lemma EndpointsEventIsLocal(t: Table, event: EventType, e: Endpoints, key: string)
    requires ValidEndpoints(e) && !OfEndpoints(key, e)
    ensures At(EndpointsEvent(t, event, e), key) == At(t, key)
  {
    hide Flatten, PortOf, OfEndpoints, ValidEndpoints, PortNames;
  }

  /** After a modification the entries of a service are exactly its ports other than UDP ones, each with
      what the service says of it and the endpoints it had. */
  lemma ModifiedServiceKeys(t: Table, s: Service, key: string)
    requires TableInv(t) && ValidService(s) && IPSet(s) && OfService(key, s)
    ensures var t' := ServiceEvent(t, Modified, s);
            && (key in t' <==> exists i | 0 <= i < |s.ports| :: s.ports[i].protocol != UDP && KeyAt(s, i) == key)
            && (key in t' ==>
                  && t'[key].name == key
                  && t'[key].endpoints == (if key in t then t[key].endpoints else [])
                  && exists i :: LastPort(s, |s.ports|, key, i) && t'[key].info == InfoAt(s, i))
  {
    InfoIff(s, |s.ports|, key);
    ServiceEventAt(t, Modified, s, key);
    hide ServiceEvent, InfoUpTo, LastColon, KeyAt, LastPort, IPSet, OfService, InfoAt, ValidService;
    if Info(s, key).Some? {
      var i := InfoIsLast(s, |s.ports|, key);
    }
  }

  /** After a modification each entry of the service that the endpoints belong to keeps what it said of the
      service, and holds exactly the addresses that some subset has for its port; one is made for each port
      that has an address. */
  lemma ModifiedEndpointsKeys(t: Table, e: Endpoints, key: string)
    requires TableInv(t) && ValidEndpoints(e) && OfEndpoints(key, e)
    ensures var t' := EndpointsEvent(t, Modified, e);
            && (key in t' <==> key in t || exists ep :: Offers(e.subsets, PortOf(key), ep))
            && (key in t' ==>
                  && t'[key].name == key
                  && t'[key].info == (if key in t then t[key].info else NO_INFO)
                  && forall ep :: ep in t'[key].endpoints <==> Offers(e.subsets, PortOf(key), ep))
  {
    var name := PortOf(key);
    var all := Flatten(e.subsets, name);
    EndpointsEventAt(t, Modified, e, key);
    hide EndpointsEvent, Flatten, Offers, PortOf, OfEndpoints, LastColon, ValidEndpoints;
    forall ep ensures ep in all <==> Offers(e.subsets, name, ep) {
      FlattenMembers(e.subsets, name, ep);
    }
    assert all != [] ==> all[0] in all;
  }

  /** The entry of a port holds what `e` has for it, and there is one if that is anything. */
  predicate Right(entry: Option<Unit>, e: Endpoints, key: string)
    requires LastColon(key) >= 0
  {
    (if entry.Some? then entry.value.endpoints else []) == Flatten(e.subsets, PortOf(key))
  }

  /** Of an entry that was right for `e`: after two modifications, the latter of which has its port, it is right
      exactly if the former had the port too, or there is no address to be lost. */
  lemma ReaddedPortExactly(t: Table, s1: Service, s2: Service, e: Endpoints, key: string)
    requires TableInv(t) && ValidService(s1) && ValidService(s2) && OfService(key, s1) && OfService(key, s2)
    requires IPSet(s1) && IPSet(s2) && Info(s2, key).Some? && Right(At(t, key), e, key)
    ensures TableInv(ServiceEvent(t, Modified, s1))
    ensures var t' := ServiceEvent(ServiceEvent(t, Modified, s1), Modified, s2);
            Right(At(t', key), e, key) <==> Info(s1, key).Some? || Flatten(e.subsets, PortOf(key)) == []
  {
    var t1 := ServiceEvent(t, Modified, s1);
    ServiceEventKeepsInv(t, Modified, s1);
    ServiceEventAt(t, Modified, s1, key);
    ServiceEventAt(t1, Modified, s2, key);
    hide ServiceEvent, Info, LastColon, OfService, IPSet, Flatten, At;
  }
}
