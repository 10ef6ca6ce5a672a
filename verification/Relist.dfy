/** What the route table comes to over any sequence of service and endpoints events, and what a relist repairs
  (`Replace` in `util/cache/eventqueue.go` queues one modification for each live object). */
module Relist {
  import opened EventQueue
  import opened RouteTable

  datatype Update =
    | ServiceUpdate(event: EventType, s: Service)
    | EndpointsUpdate(event: EventType, e: Endpoints)

  predicate ValidUpdate(u: Update) {
    match u
    case ServiceUpdate(_, s) => ValidService(s)
    case EndpointsUpdate(_, e) => ValidEndpoints(e)
  }

  predicate ValidUpdates(us: seq<Update>) {
    forall u | u in us :: ValidUpdate(u)
  }

  function Apply(t: Table, u: Update): (t': Table)
    requires TableInv(t) && ValidUpdate(u)
    ensures TableInv(t')
  {
    match u
    case ServiceUpdate(event, s) => ServiceEventKeepsInv(t, event, s); ServiceEvent(t, event, s)
    case EndpointsUpdate(event, e) => EndpointsEventKeepsInv(t, event, e); EndpointsEvent(t, event, e)
  }

  /** The table after the updates, in order. */
  function ApplyAll(t: Table, us: seq<Update>): (t': Table)
    requires TableInv(t) && ValidUpdates(us)
    ensures TableInv(t')
  {
    if us == [] then t
    else
      assert us[|us| - 1] in us;
      Apply(ApplyAll(t, us[..|us| - 1]), us[|us| - 1])
  }

  /** The updates that come from the queue of the services, or of the endpoints, in order. */
  function Part(us: seq<Update>, service: bool): seq<Update> {
    if us == [] then []
    else
      var u := us[|us| - 1];
      Part(us[..|us| - 1], service) + if u.ServiceUpdate? == service then [u] else []
  }

  /** The update is of the service that `key` belongs to. */
  predicate OfServiceOf(u: Update, key: string) {
    u.ServiceUpdate? && OfService(key, u.s)
  }

  predicate OfEndpointsOf(u: Update, key: string) {
    u.EndpointsUpdate? && OfEndpoints(key, u.e)
  }

  /** The update takes the entry of `key` out of the table. */
  predicate Drops(u: Update, key: string) {
    u.ServiceUpdate? && match u.event
                        case Added => false
                        case Modified => IPSet(u.s) && OfService(key, u.s) && Info(u.s, key).None?
                        case Deleted => key in PortKeys(u.s)
  }

  /** An update of neither leaves the entry alone. */
  lemma OtherUpdate(t: Table, u: Update, key: string)
    requires TableInv(t) && ValidUpdate(u) && !OfServiceOf(u, key) && !OfEndpointsOf(u, key)
    ensures At(Apply(t, u), key) == At(t, key) && !Drops(u, key)
  {
    match u
    case ServiceUpdate(event, s) =>
      ServiceEventIsLocal(t, event, s, key);
      if key in PortKeys(s) {
        PortKeysOf(s, key);
      }
    case EndpointsUpdate(event, e) =>
      EndpointsEventIsLocal(t, event, e, key);
  }

  /** A service's update leaves the endpoints of an entry that it does not drop. */
  lemma ServiceUpdateAt(t: Table, u: Update, key: string)
    requires TableInv(t) && ValidUpdate(u) && u.ServiceUpdate?
    ensures var entry, entry' := At(t, key), At(Apply(t, u), key);
            if Drops(u, key) then entry' == None
            else if entry'.None? then entry.None?
            else entry'.value.endpoints == if entry.Some? then entry.value.endpoints else []
  {
    ServiceEventAt(t, u.event, u.s, key);
    hide At, ServiceEvent, OfService, IPSet, PortKeys, Info;
  }

  /** An endpoints update leaves what an entry says of its service. */
  lemma EndpointsUpdateAt(t: Table, u: Update, key: string)
    requires TableInv(t) && ValidUpdate(u) && u.EndpointsUpdate? && key in t
    ensures key in Apply(t, u) && Apply(t, u)[key].info == t[key].info && !Drops(u, key)
  {
    if OfEndpoints(key, u.e) {
      EndpointsEventAt(t, u.event, u.e, key);
    } else {
      EndpointsEventIsLocal(t, u.event, u.e, key);
    }
    hide EndpointsEvent, OfEndpoints, ValidEndpoints, Flatten, PortOf, PortNames;
  }

  /** The last update of the service of `key` is the one at `n`, and likewise for its endpoints. */
  predicate LastOfService(us: seq<Update>, n: nat, key: string) {
    n < |us| && forall k | n < k < |us| :: !OfServiceOf(us[k], key)
  }

  predicate LastOfEndpoints(us: seq<Update>, n: nat, key: string) {
    n < |us| && forall k | n < k < |us| :: !OfEndpointsOf(us[k], key)
  }

  predicate DroppedAfter(us: seq<Update>, n: nat, key: string) {
    exists k | n < k < |us| :: Drops(us[k], key)
  }

  lemma ApplyLast(t: Table, us: seq<Update>)
    requires TableInv(t) && ValidUpdates(us) && us != []
    ensures var init, u := us[..|us| - 1], us[|us| - 1];
            us == init + [u] && ValidUpdate(u) && ValidUpdates(init) && ApplyAll(t, us) == Apply(ApplyAll(t, init), u)
  {
    hide Apply, ValidUpdate;
    assert us[|us| - 1] in us;
  }

  /** What the last modification of the service says is what the entry says. */
  lemma {:induction false} InfoStays(t: Table, us: seq<Update>, n: nat, s: Service, key: string)
    requires TableInv(t) && ValidUpdates(us) && LastOfService(us, n, key)
    requires us[n] == ServiceUpdate(Modified, s) && IPSet(s) && Info(s, key).Some?
    ensures var t' := ApplyAll(t, us); key in t' && t'[key].info == Info(s, key).value
    decreases |us|
  {
    var init, u := us[..|us| - 1], us[|us| - 1];
    ApplyLast(t, us);
    var t1 := ApplyAll(t, init);
    if n == |us| - 1 {
      ServiceEventAt(t1, Modified, s, key);
      hide ServiceEvent, Info, IPSet, ApplyAll, TableInv, ValidUpdates;
    } else {
      assert init[n] == us[n] && !OfServiceOf(u, key);
      assert LastOfService(init, n, key);
      InfoStays(t, init, n, s, key);
      hide Apply, ApplyAll, Info, IPSet, TableInv, ValidUpdate, OfServiceOf, OfEndpointsOf, LastOfService;
      if u.EndpointsUpdate? {
        EndpointsUpdateAt(t1, u, key);
      } else {
        assert !OfEndpointsOf(u, key) by {
          NotOfEndpoints(u, key);
        }
        OtherUpdate(t1, u, key);
      }
    }
  }

  lemma NotOfEndpoints(u: Update, key: string)
    requires u.ServiceUpdate?
    ensures !OfEndpointsOf(u, key)
  {
  }

  /** After the last modification of its endpoints, an entry holds their addresses, unless it was dropped since. */
  lemma {:induction false} EndpointsStay(t: Table, us: seq<Update>, n: nat, e: Endpoints, key: string)
    requires TableInv(t) && ValidUpdates(us) && LastOfEndpoints(us, n, key) && OfEndpoints(key, e)
    requires us[n] == EndpointsUpdate(Modified, e)
    ensures var t' := ApplyAll(t, us);
            (if key in t' then t'[key].endpoints else [])
            == if DroppedAfter(us, n, key) then [] else Flatten(e.subsets, PortOf(key))
    decreases |us|
  {
    var init, u := us[..|us| - 1], us[|us| - 1];
    ApplyLast(t, us);
    var t1 := ApplyAll(t, init);
    if n == |us| - 1 {
      EndpointsEventAt(t1, Modified, e, key);
      hide EndpointsEvent, OfEndpoints, Flatten, PortOf, ApplyAll, TableInv, ValidUpdates, ValidUpdate;
    } else {
      assert init[n] == us[n] && !OfEndpointsOf(u, key);
      assert LastOfEndpoints(init, n, key);
      EndpointsStay(t, init, n, e, key);
      DroppedMore(init, u, n, key);
      hide *;
      if u.ServiceUpdate? {
        ServiceUpdateAt(t1, u, key);
        AtIs(t1, key);
        AtIs(Apply(t1, u), key);
      } else {
        NotOfService(u, key);
        OtherUpdate(t1, u, key);
        AtIs(t1, key);
        AtIs(Apply(t1, u), key);
      }
    }
  }

  lemma AtIs(t: Table, key: string)
    ensures At(t, key) == if key in t then Some(t[key]) else None
  {
  }

  lemma NotOfService(u: Update, key: string)
    requires u.EndpointsUpdate?
    ensures !OfServiceOf(u, key)
  {
  }

  lemma DroppedMore(us: seq<Update>, u: Update, n: nat, key: string)
    requires n < |us|
    ensures DroppedAfter(us + [u], n, key) <==> DroppedAfter(us, n, key) || Drops(u, key)
  {
    hide Drops;
    var all := us + [u];
    if DroppedAfter(us, n, key) {
      var k :| n < k < |us| && Drops(us[k], key);
      assert all[k] == us[k];
    }
    assert all[|us|] == u;
  }

  /** A port that HAProxy gets: of a service with an IP, not UDP, and of a name of its own. */
  predicate LivePort(s: Service, i: int) {
    && IPSet(s) && 0 <= i < |s.ports| && s.ports[i].protocol != UDP
    && forall k | 0 <= k < |s.ports| && s.ports[k].name == s.ports[i].name :: k == i
  }

  function LiveUnit(s: Service, i: nat, endpoints: seq<Endpoint>): Unit
    requires i < |s.ports|
  {
    Unit(KeyAt(s, i), InfoAt(s, i), endpoints)
  }

  /** From any table, after any updates the last of which for a service and for its endpoints are modifications:
      each port has an entry with just what the service says of it and just the addresses the endpoints have for
      it, exactly if it was not dropped after them or they have none. */
  lemma TableAfter(t: Table, us: seq<Update>, m: nat, s: Service, n: nat, e: Endpoints, i: nat)
    requires TableInv(t) && ValidUpdates(us) && LivePort(s, i) && e.ns == s.ns && e.name == s.name
    requires LastOfService(us, m, KeyAt(s, i)) && us[m] == ServiceUpdate(Modified, s)
    requires LastOfEndpoints(us, n, KeyAt(s, i)) && us[n] == EndpointsUpdate(Modified, e)
    ensures var t', key, addresses := ApplyAll(t, us), KeyAt(s, i), Flatten(e.subsets, s.ports[i].name);
            && key in t'
            && t'[key] == LiveUnit(s, i, if DroppedAfter(us, n, key) then [] else addresses)
            && (t'[key] == LiveUnit(s, i, addresses) <==> !DroppedAfter(us, n, key) || addresses == [])
  {
    var key := KeyAt(s, i);
    assert us[m] in us;
    KeyParts(s.ns, s.name, s.ports[i].name);
    UniquePort(s, |s.ports|, i);
    hide ApplyAll, LastOfService, LastOfEndpoints, DroppedAfter, Flatten, InfoUpTo, IPSet;
    InfoStays(t, us, m, s, key);
    EndpointsStay(t, us, n, e, key);
  }

  lemma {:induction false} UniquePort(s: Service, n: nat, i: nat)
    requires ValidService(s) && i < n <= |s.ports| && s.ports[i].protocol != UDP
    requires forall k | 0 <= k < |s.ports| && s.ports[k].name == s.ports[i].name :: k == i
    ensures InfoUpTo(s, n, KeyAt(s, i)) == Some(InfoAt(s, i))
  {
    if n - 1 != i {
      KeyParts(s.ns, s.name, s.ports[i].name);
      KeyParts(s.ns, s.name, s.ports[n - 1].name);
      UniquePort(s, n - 1, i);
    }
  }

  // A table is no function of the latest service and endpoints

  const WEB := Service("default", "web", "10.0.0.1", [ServicePort("http", 80, "TCP")])
  const PORTLESS := WEB.(ports := [])
  const PODS := Endpoints("default", "web", [Subset([EndpointPort("http", 8080)], ["10.1.0.1"])])
  const POD := Endpoint("10.1.0.1", 8080)

  const STRAIGHT := [EndpointsUpdate(Modified, PODS), ServiceUpdate(Modified, WEB)]
  const DETOUR := [EndpointsUpdate(Modified, PODS), ServiceUpdate(Modified, PORTLESS), ServiceUpdate(Modified, WEB)]

  lemma ExampleIsValid()
    ensures ValidUpdates(STRAIGHT) && ValidUpdates(DETOUR) && LivePort(WEB, 0)
    ensures Flatten(PODS.subsets, "http") == [POD]
  {
    assert PODS.subsets[..0] == [] && PODS.subsets[0].ports[..0] == [];
    assert NoColon("default") && NoColon("web") && NoColon("http");
  }

  lemma ExampleDrops()
    ensures var key, off, on := KeyAt(WEB, 0), ServiceUpdate(Modified, PORTLESS), ServiceUpdate(Modified, WEB);
            Drops(off, key) && !Drops(on, key) && !OfEndpointsOf(off, key) && !OfEndpointsOf(on, key)
  {
    var key := KeyAt(WEB, 0);
    ExampleIsValid();
    KeyParts("default", "web", "http");
    UniquePort(WEB, 1, 0);
    assert KeyAt(WEB, 0) == PortKey("default", "web", "http");
    assert IPSet(PORTLESS) && Info(PORTLESS, key).None?;
    hide PortKey, ServiceOf, LastColon, ServiceKey, Info, KeyAt;
  }

  lemma ExampleOrder(us: seq<Update>)
    requires us == STRAIGHT || us == DETOUR
    ensures var key := KeyAt(WEB, 0);
            && LastOfService(us, |us| - 1, key) && LastOfEndpoints(us, 0, key)
            && (DroppedAfter(us, 0, key) <==> us == DETOUR)
  {
    ExampleDrops();
    hide Drops, OfEndpointsOf, OfServiceOf, KeyAt;
    if us == DETOUR {
      assert us[1] == ServiceUpdate(Modified, PORTLESS);
    }
  }

  /** The same last service and the same last endpoints, and two tables: on the way to the one the port was
      dropped, and has no address since. */
  lemma TableDependsOnThePast()
    ensures ValidUpdates(STRAIGHT) && ValidUpdates(DETOUR)
    ensures var key := KeyAt(WEB, 0);
            && key in ApplyAll(map[], STRAIGHT) && ApplyAll(map[], STRAIGHT)[key].endpoints == [POD]
            && key in ApplyAll(map[], DETOUR) && ApplyAll(map[], DETOUR)[key].endpoints == []
  {
    ExampleIsValid();
    ExampleOrder(STRAIGHT);
    ExampleOrder(DETOUR);
    hide ApplyAll, LastOfService, LastOfEndpoints, DroppedAfter, Flatten, LivePort, KeyAt, ValidUpdates;
    TableAfter(map[], STRAIGHT, 1, WEB, 0, PODS, 0);
    TableAfter(map[], DETOUR, 2, WEB, 0, PODS, 0);
  }

  const DELETED := [ServiceUpdate(Added, WEB), EndpointsUpdate(Modified, PODS), ServiceUpdate(Deleted, WEB),
                    ServiceUpdate(Modified, WEB)]

  lemma DeletionDrops()
    ensures var key, off, on := KeyAt(WEB, 0), ServiceUpdate(Deleted, WEB), ServiceUpdate(Modified, WEB);
            Drops(off, key) && !Drops(on, key) && !OfEndpointsOf(off, key) && !OfEndpointsOf(on, key)
  {
    ExampleDrops();
    assert KeyAt(WEB, 0) in PortKeys(WEB);
    hide KeyAt, OfEndpoints, Info, IPSet, OfService;
  }

  lemma DeletedOrder()
    ensures var key := KeyAt(WEB, 0);
            LastOfService(DELETED, 3, key) && LastOfEndpoints(DELETED, 1, key) && DroppedAfter(DELETED, 1, key)
  {
    DeletionDrops();
    hide Drops, OfEndpointsOf, OfServiceOf, KeyAt;
    assert DELETED[2] == ServiceUpdate(Deleted, WEB);
  }

  /** A deletion that comes between its endpoints and its service leaves a port without addresses. */
  lemma DeletionBetween()
    ensures ValidUpdates(DELETED) && Flatten(PODS.subsets, "http") == [POD]
    ensures var key := KeyAt(WEB, 0); key in ApplyAll(map[], DELETED) && ApplyAll(map[], DELETED)[key].endpoints == []
  {
    ExampleIsValid();
    assert ValidUpdate(STRAIGHT[0]) && ValidUpdate(STRAIGHT[1]);
    assert ValidUpdates(DELETED);
    DeletedOrder();
    hide ApplyAll, LastOfService, LastOfEndpoints, DroppedAfter, Flatten, LivePort, KeyAt, ValidUpdates;
    TableAfter(map[], DELETED, 3, WEB, 1, PODS, 0);
  }
}
