/** The handlers of the proxier (`proxy/template/proxier.go`): loops over ports, subsets and table keys,
  proved to make of the tables what `RouteTable` says.

  A unit is reached through one key only, so updating it in place and storing the updated unit under its
  key are the same.  The two rate-limited commit functions are seen here as whether a request was put to
  them. */
module Proxier {
  import opened EventQueue
  import opened RouteTable

  /** The elements of `a` that are not in `b`. */
  function Diff(a: seq<string>, b: seq<string>): seq<string> {
    if a == [] then []
    else Diff(a[..|a| - 1], b) + if a[|a| - 1] in b then [] else [a[|a| - 1]]
  }

  lemma {:induction false} DiffMembers(a: seq<string>, b: seq<string>)
    ensures forall k :: k in Diff(a, b) <==> k in a && k !in b
  {
    if a != [] {
      DiffMembers(a[..|a| - 1], b);
      assert a == a[..|a| - 1] + [a[|a| - 1]];
    }
  }

  /** `diff`. */
  method DiffLists(oldList: seq<string>, newList: seq<string>) returns (result: seq<string>)
    ensures result == Diff(oldList, newList)
  {
    result := [];
    for i := 0 to |oldList|
      invariant result == Diff(oldList[..i], newList)
    {
      var found := false;
      for j := 0 to |newList|
        invariant !found && oldList[i] !in newList[..j]
      {
        if oldList[i] == newList[j] {
          found := true;
          break;
        }
      }
      assert found <==> oldList[i] in newList by {
        assert newList[..|newList|] == newList;
      }
      assert oldList[..i + 1][..i] == oldList[..i];
      if !found {
        result := result + [oldList[i]];
      }
    }
    assert oldList[..|oldList|] == oldList;
  }

  /** The table after the first `n` ports of `s` were entered. */
  function PutPorts(t: Table, s: Service, n: nat): Table
    requires n <= |s.ports|
  {
    if n == 0 then t
    else
      var before := PutPorts(t, s, n - 1);
      var p, key := s.ports[n - 1], KeyAt(s, n - 1);
      if p.protocol == UDP then before
      else before[key := WithInfo(before, key, ServiceInfo(s.clusterIP, p.port, p.protocol))]
  }

  /** Entering ports one by one sets each key to what the last port of that key says. */
  lemma {:induction false} PutPortsAt(t: Table, s: Service, n: nat, key: string)
    requires n <= |s.ports|
    ensures key in PutPorts(t, s, n) <==> key in t || InfoUpTo(s, n, key).Some?
    ensures InfoUpTo(s, n, key).Some? ==> PutPorts(t, s, n)[key] == WithInfo(t, key, InfoUpTo(s, n, key).value)
    ensures key in t && InfoUpTo(s, n, key).None? ==> PutPorts(t, s, n)[key] == t[key]
  {
    if n > 0 {
      PutPortsAt(t, s, n - 1, key);
    }
  }

  /** The addresses collected so far for a port name. */
  function Collected(m: map<string, seq<Endpoint>>, name: string): seq<Endpoint> {
    if name in m then m[name] else []
  }

  ghost predicate NoneEmpty(m: map<string, seq<Endpoint>>) {
    forall name | name in m :: m[name] != []
  }

  /** `m` holds the addresses of each port name that has any. */
  ghost predicate Explodes(m: map<string, seq<Endpoint>>, subsets: seq<Subset>) {
    NoneEmpty(m) && forall name :: Collected(m, name) == Flatten(subsets, name)
  }

  /** The ports of one subset were added to what `m0` held. */
  ghost predicate Gathered(m0: map<string, seq<Endpoint>>, m: map<string, seq<Endpoint>>, ports: seq<EndpointPort>,
                           addresses: seq<string>) {
    forall name :: Collected(m, name) == Collected(m0, name) + OfPorts(ports, addresses, name)
  }

  lemma GatheredStep(m0: map<string, seq<Endpoint>>, m1: map<string, seq<Endpoint>>, m2: map<string, seq<Endpoint>>,
                     ports: seq<EndpointPort>, port: EndpointPort, addresses: seq<string>)
    requires Gathered(m0, m1, ports, addresses)
    requires forall name | name != port.name :: Collected(m2, name) == Collected(m1, name)
    requires Collected(m2, port.name) == Collected(m1, port.name) + AtPort(addresses, port.port)
    ensures Gathered(m0, m2, ports + [port], addresses)
  {
    hide OfPorts, Collected, AtPort;
    forall name ensures Collected(m2, name) == Collected(m0, name) + OfPorts(ports + [port], addresses, name) {
      OneMorePort(ports, port, addresses, name);
      assert Collected(m1, name) == Collected(m0, name) + OfPorts(ports, addresses, name);
    }
  }

  lemma OneMorePort(ports: seq<EndpointPort>, port: EndpointPort, addresses: seq<string>, name: string)
    ensures OfPorts(ports + [port], addresses, name)
         == OfPorts(ports, addresses, name) + if port.name == name then AtPort(addresses, port.port) else []
  {
    assert (ports + [port])[..|ports|] == ports;
  }

  lemma ExplodesStep(m1: map<string, seq<Endpoint>>, m2: map<string, seq<Endpoint>>, subsets: seq<Subset>, ss: Subset)
    requires Explodes(m1, subsets) && Gathered(m1, m2, ss.ports, ss.addresses) && NoneEmpty(m2)
    ensures Explodes(m2, subsets + [ss])
  {
    assert (subsets + [ss])[..|subsets|] == subsets;
  }

  /** The entries of the port names in `done` hold their addresses, every other is as it was. */
  ghost predicate Entered(t: Table, t': Table, e: Endpoints, m: map<string, seq<Endpoint>>, done: set<string>)
    requires done <= m.Keys
  {
    forall key ::
      && (key in t' <==> key in t || (OfEndpoints(key, e) && PortOf(key) in done))
      && (key in t' ==>
            if OfEndpoints(key, e) && PortOf(key) in done then t'[key] == WithEndpoints(t, key, m[PortOf(key)])
            else t'[key] == t[key])
  }

  lemma KeyOfPort(key: string, e: Endpoints, name: string)
    requires ValidEndpoints(e) && NoColon(name)
    ensures OfEndpoints(key, e) && PortOf(key) == name <==> key == PortKey(e.ns, e.name, name)
  {
    if key == PortKey(e.ns, e.name, name) {
      KeyParts(e.ns, e.name, name);
    } else if OfEndpoints(key, e) && PortOf(key) == name {
      KeyOfParts(key);
    }
  }

  lemma NoneEntered(t: Table, e: Endpoints, m: map<string, seq<Endpoint>>)
    ensures Entered(t, t, e, m, {}) && KeysOf([], e, {})
  {
  }

  lemma EnteredMore(t: Table, t1: Table, t2: Table, e: Endpoints, m: map<string, seq<Endpoint>>, done: set<string>,
                    name: string)
    requires ValidEndpoints(e) && NoColon(name) && name in m && name !in done && done <= m.Keys
    requires Entered(t, t1, e, m, done)
    requires var key := PortKey(e.ns, e.name, name); t2 == t1[key := WithEndpoints(t1, key, m[name])]
    ensures Entered(t, t2, e, m, done + {name})
  {
    forall key
      ensures key in t2 <==> key in t || (OfEndpoints(key, e) && PortOf(key) in done + {name})
      ensures key in t2 ==>
        t2[key] == if OfEndpoints(key, e) && PortOf(key) in done + {name} then WithEndpoints(t, key, m[PortOf(key)])
                   else t[key]
    {
      KeyOfPort(key, e, name);
      hide OfEndpoints, PortOf, PortKey, ValidEndpoints, NoColon;
    }
  }

  /** The keys of the port names in `done`. */
  ghost predicate KeysOf(keys: seq<string>, e: Endpoints, done: set<string>) {
    forall key :: key in keys <==> OfEndpoints(key, e) && PortOf(key) in done
  }

  lemma KeysMore(keys: seq<string>, e: Endpoints, done: set<string>, name: string)
    requires ValidEndpoints(e) && NoColon(name) && KeysOf(keys, e, done)
    ensures KeysOf(keys + [PortKey(e.ns, e.name, name)], e, done + {name})
  {
    forall key
      ensures key in keys + [PortKey(e.ns, e.name, name)] <==> OfEndpoints(key, e) && PortOf(key) in done + {name}
    {
      KeyOfPort(key, e, name);
      hide OfEndpoints, PortOf, PortKey, ValidEndpoints, NoColon;
    }
  }

  lemma KeysAre(keys: seq<string>, e: Endpoints, done: set<string>)
    requires KeysOf(keys, e, done)
    ensures forall key :: key in keys <==> OfEndpoints(key, e) && PortOf(key) in done
  {
  }

  /** The entries of the port names in `done` are empty, every other is as it was. */
  ghost predicate Cleared(t: Table, t': Table, e: Endpoints, done: set<string>) {
    && t'.Keys == t.Keys
    && forall key | key in t ::
         t'[key] == if OfEndpoints(key, e) && PortOf(key) in done then t[key].(endpoints := []) else t[key]
  }

  lemma NoneCleared(t: Table, e: Endpoints)
    ensures Cleared(t, t, e, {})
  {
  }

  lemma ClearedMore(t: Table, t1: Table, t2: Table, e: Endpoints, done: set<string>, name: string)
    requires ValidEndpoints(e) && NoColon(name) && Cleared(t, t1, e, done)
    requires var key := PortKey(e.ns, e.name, name);
             t2 == if key in t1 then t1[key := t1[key].(endpoints := [])] else t1
    ensures Cleared(t, t2, e, done + {name})
  {
    forall key | key in t
      ensures t2[key]
           == if OfEndpoints(key, e) && PortOf(key) in done + {name} then t[key].(endpoints := []) else t[key]
    {
      KeyOfPort(key, e, name);
      hide OfEndpoints, PortOf, PortKey, ValidEndpoints, NoColon;
    }
  }

  lemma AllCleared(t: Table, t': Table, e: Endpoints)
    requires Cleared(t, t', e, PortNames(e.subsets))
    ensures t' == EndpointsDeleted(t, e)
  {
    hide OfEndpoints, PortOf, PortNames;
  }

  class Proxier {
    var vips: set<string>
    var table: Table
    var master: bool
    var skipCommit: bool
    var keepalivedRequested: bool
    var haproxyRequested: bool

    predicate Commits()
      reads this
    {
      master && !skipCommit
    }

    method CommitKeepalived()
      modifies this`keepalivedRequested
      ensures keepalivedRequested == (old(keepalivedRequested) || Commits())
    {
      if !master || skipCommit {
        return;
      }
      keepalivedRequested := true;
    }

    method CommitHaproxy()
      modifies this`haproxyRequested
      ensures haproxyRequested == (old(haproxyRequested) || Commits())
    {
      if !master || skipCommit {
        return;
      }
      haproxyRequested := true;
    }

    /** `getServicePorts`: the keys of a service, in whatever order the table yields them. */
    method GetServicePorts(service: string) returns (names: seq<string>)
      requires TableInv(table)
      ensures forall key :: key in names <==> key in table && ServiceOf(key) == service
    {
      names := [];
      var todo := table.Keys;
      while todo != {}
        invariant todo <= table.Keys
        invariant forall key :: key in names <==> key in table && key !in todo && ServiceOf(key) == service
        decreases todo
      {
        var key :| key in todo;
        todo := todo - {key};
        if key[..LastColon(key)] == service {
          names := names + [key];
        }
      }
    }

    method EnterVip(s: Service)
      modifies this`vips, this`keepalivedRequested
      ensures vips == old(vips) + {s.clusterIP}
      ensures keepalivedRequested == (old(keepalivedRequested) || (Commits() && s.clusterIP !in old(vips)))
    {
      if s.clusterIP !in vips {
        vips := vips + {s.clusterIP};
        CommitKeepalived();
      }
    }

    /** The loop over the ports of a service; `keys` are those of its ports other than UDP ones. */
    method EnterPorts(s: Service) returns (keys: seq<string>)
      modifies this`table
      ensures table == PutPorts(old(table), s, |s.ports|)
      ensures forall key :: key in keys <==> Info(s, key).Some?
    {
      keys := [];
      for i := 0 to |s.ports|
        invariant table == PutPorts(old(table), s, i)
        invariant forall key :: key in keys <==> InfoUpTo(s, i, key).Some?
      {
        var p := s.ports[i];
        if p.protocol == UDP {
          continue;
        }
        var key := PortKey(s.ns, s.name, p.name);
        var info := ServiceInfo(s.clusterIP, p.port, p.protocol);
        if key in table {
          if table[key].info != info {
            table := table[key := table[key].(info := info)];
          }
        } else {
          table := table[key := Unit(key, info, [])];
        }
        keys := keys + [key];
      }
    }

    method DropEntries(keys: seq<string>)
      modifies this`table
      ensures table == old(table) - (set key | key in keys)
    {
      for i := 0 to |keys|
        invariant table == old(table) - (set key | key in keys[..i])
      {
        assert keys[..i + 1] == keys[..i] + [keys[i]];
        table := table - {keys[i]};
      }
      assert keys[..|keys|] == keys;
    }

    method DropPorts(s: Service)
      modifies this`table
      ensures table == ServiceDeleted(old(table), s)
    {
      for i := 0 to |s.ports|
        invariant table == old(table) - (set k | 0 <= k < i :: KeyAt(s, k))
      {
        assert (set k | 0 <= k < i + 1 :: KeyAt(s, k)) == (set k | 0 <= k < i :: KeyAt(s, k)) + {KeyAt(s, i)};
        table := table - {PortKey(s.ns, s.name, s.ports[i].name)};
      }
    }

    /** `handleServiceAdd`. */
    method HandleServiceAdd(s: Service)
      modifies this
      ensures if !IPSet(s) then unchanged(this) else
              && table == ServiceAdded(old(table), s)
              && vips == old(vips) + {s.clusterIP}
              && haproxyRequested == (old(haproxyRequested) || Commits())
              && keepalivedRequested == (old(keepalivedRequested) || (Commits() && s.clusterIP !in old(vips)))
              && master == old(master) && skipCommit == old(skipCommit)
    {
      if !IPSet(s) {
        return;
      }
      EnterVip(s);
      var _ := EnterPorts(s);
      PortsAdded(old(table), s);
      CommitHaproxy();
    }

    /** `handleServiceUpdate`. */
    method HandleServiceUpdate(s: Service)
      requires TableInv(table) && ValidService(s)
      modifies this
      ensures if !IPSet(s) then unchanged(this) else
              && table == ServiceModified(old(table), s)
              && vips == old(vips) + {s.clusterIP}
              && haproxyRequested == (old(haproxyRequested) || Commits())
              && keepalivedRequested == (old(keepalivedRequested) || (Commits() && s.clusterIP !in old(vips)))
              && master == old(master) && skipCommit == old(skipCommit)
    {
      if !IPSet(s) {
        return;
      }
      EnterVip(s);
      var oldList := GetServicePorts(ServiceKey(s.ns, s.name));
      var newList := EnterPorts(s);
      var gone := DiffLists(oldList, newList);
      DiffMembers(oldList, newList);
      DropEntries(gone);
      PortsModified(old(table), s, gone);
      CommitHaproxy();
    }

    /** `handleServiceDelete`. */
    method HandleServiceDelete(s: Service)
      modifies this
      ensures table == ServiceDeleted(old(table), s)
      ensures vips == old(vips) - {s.clusterIP}
      ensures haproxyRequested == (old(haproxyRequested) || Commits())
      ensures keepalivedRequested == (old(keepalivedRequested) || Commits())
      ensures master == old(master) && skipCommit == old(skipCommit)
    {
      vips := vips - {s.clusterIP};
      CommitKeepalived();
      DropPorts(s);
      CommitHaproxy();
    }

    /** The three nested loops over subsets, ports and addresses. */
    static method Explode(subsets: seq<Subset>) returns (m: map<string, seq<Endpoint>>)
      ensures Explodes(m, subsets)
    {
      m := map[];
      for i := 0 to |subsets|
        invariant Explodes(m, subsets[..i])
      {
        ghost var before := m;
        m := ExplodeSubset(m, subsets[i]);
        ExplodesStep(before, m, subsets[..i], subsets[i]);
        assert subsets[..i + 1] == subsets[..i] + [subsets[i]];
      }
      assert subsets[..|subsets|] == subsets;
    }

    static method ExplodeSubset(m0: map<string, seq<Endpoint>>, ss: Subset) returns (m: map<string, seq<Endpoint>>)
      requires NoneEmpty(m0)
      ensures Gathered(m0, m, ss.ports, ss.addresses) && NoneEmpty(m)
    {
      m := m0;
      for j := 0 to |ss.ports|
        invariant Gathered(m0, m, ss.ports[..j], ss.addresses) && NoneEmpty(m)
      {
        ghost var before := m;
        m := ExplodePort(m, ss.ports[j], ss.addresses);
        GatheredStep(m0, before, m, ss.ports[..j], ss.ports[j], ss.addresses);
        assert ss.ports[..j + 1] == ss.ports[..j] + [ss.ports[j]];
      }
      assert ss.ports[..|ss.ports|] == ss.ports;
    }

    static method ExplodePort(m0: map<string, seq<Endpoint>>, port: EndpointPort, addresses: seq<string>)
      returns (m: map<string, seq<Endpoint>>)
      requires NoneEmpty(m0)
      ensures forall name | name != port.name :: Collected(m, name) == Collected(m0, name)
      ensures Collected(m, port.name) == Collected(m0, port.name) + AtPort(addresses, port.port)
      ensures NoneEmpty(m)
    {
      m := m0;
      for k := 0 to |addresses|
        invariant forall name | name != port.name :: Collected(m, name) == Collected(m0, name)
        invariant Collected(m, port.name) == Collected(m0, port.name) + AtPort(addresses[..k], port.port)
        invariant NoneEmpty(m)
      {
        assert AtPort(addresses[..k + 1], port.port)
            == AtPort(addresses[..k], port.port) + [Endpoint(addresses[k], port.port)];
        m := m[port.name := Collected(m, port.name) + [Endpoint(addresses[k], port.port)]];
      }
      assert addresses[..|addresses|] == addresses;
    }

    /** One port's addresses, into the entry it has or a new one. */
    method EnterPort(e: Endpoints, name: string, addresses: seq<Endpoint>) returns (key: string)
      modifies this`table
      ensures key == PortKey(e.ns, e.name, name)
      ensures table == old(table)[key := WithEndpoints(old(table), key, addresses)]
    {
      key := PortKey(e.ns, e.name, name);
      if key in table {
        if table[key].endpoints != addresses {
          table := table[key := table[key].(endpoints := addresses)];
        }
      } else {
        table := table[key := Unit(key, NO_INFO, addresses)];
      }
    }

    /** The loop over the collected port names, in whatever order the map yields them. */
    method EnterEndpoints(e: Endpoints, m: map<string, seq<Endpoint>>) returns (keys: seq<string>)
      requires ValidEndpoints(e) && forall name | name in m :: NoColon(name)
      modifies this`table
      ensures Entered(old(table), table, e, m, m.Keys)
      ensures forall key :: key in keys <==> OfEndpoints(key, e) && PortOf(key) in m
    {
      keys := [];
      var todo := m.Keys;
      ghost var done: set<string> := {};
      hide WithEndpoints, OfEndpoints, PortOf, PortKey, ValidEndpoints, NoColon, Entered, KeysOf;
      NoneEntered(table, e, m);
      while todo != {}
        invariant todo <= m.Keys && done == m.Keys - todo
        invariant Entered(old(table), table, e, m, done) && KeysOf(keys, e, done)
        decreases todo
      {
        var name :| name in todo;
        ghost var before := table;
        var key := EnterPort(e, name, m[name]);
        EnteredMore(old(table), before, table, e, m, done, name);
        KeysMore(keys, e, done, name);
        keys := keys + [key];
        todo := todo - {name};
        done := done + {name};
      }
      assert done == m.Keys;
      KeysAre(keys, e, done);
    }

    method ClearEntries(keys: seq<string>)
      requires forall key | key in keys :: key in table
      modifies this`table
      ensures table.Keys == old(table).Keys
      ensures forall key | key in table ::
        table[key] == if key in keys then old(table)[key].(endpoints := []) else old(table)[key]
    {
      for i := 0 to |keys|
        invariant table.Keys == old(table).Keys
        invariant forall key | key in table ::
          table[key] == if key in keys[..i] then old(table)[key].(endpoints := []) else old(table)[key]
      {
        assert keys[i] in keys && keys[..i + 1] == keys[..i] + [keys[i]];
        table := table[keys[i] := table[keys[i]].(endpoints := [])];
      }
      assert keys[..|keys|] == keys;
    }

    method ClearPorts(e: Endpoints)
      requires ValidEndpoints(e)
      modifies this`table
      ensures table == EndpointsDeleted(old(table), e)
    {
      var names := PortNames(e.subsets);
      var todo := names;
      ghost var done: set<string> := {};
      assert forall name | name in names :: NoColon(name);
      hide OfEndpoints, PortOf, PortKey, ValidEndpoints, PortNames, Cleared, NoColon;
      NoneCleared(table, e);
      while todo != {}
        invariant todo <= names == PortNames(e.subsets) && done == names - todo
        invariant Cleared(old(table), table, e, done)
        decreases todo
      {
        var name :| name in todo;
        ghost var before := table;
        var key := PortKey(e.ns, e.name, name);
        if key in table {
          table := table[key := table[key].(endpoints := [])];
        }
        ClearedMore(old(table), before, table, e, done, name);
        todo := todo - {name};
        done := done + {name};
      }
      assert done == names;
      AllCleared(old(table), table, e);
    }

    /** `handleEndpointsAdd`. */
    method HandleEndpointsAdd(e: Endpoints)
      requires ValidEndpoints(e)
      modifies this
      ensures if e.subsets == [] then unchanged(this) else
              && table == EndpointsAdded(old(table), e)
              && haproxyRequested == (old(haproxyRequested) || Commits())
              && unchanged(this`vips) && unchanged(this`keepalivedRequested)
              && master == old(master) && skipCommit == old(skipCommit)
    {
      if e.subsets == [] {
        return;
      }
      var m := Explode(e.subsets);
      NamesAreValid(e, m);
      var _ := EnterEndpoints(e, m);
      PutAdded(old(table), table, e, m);
      CommitHaproxy();
    }

    /** `handleEndpointsUpdate`. */
    method HandleEndpointsUpdate(e: Endpoints)
      requires TableInv(table) && ValidEndpoints(e)
      modifies this
      ensures table == EndpointsModified(old(table), e)
      ensures haproxyRequested == (old(haproxyRequested) || Commits())
      ensures unchanged(this`vips) && unchanged(this`keepalivedRequested)
      ensures master == old(master) && skipCommit == old(skipCommit)
    {
      UpdateEntries(e);
      CommitHaproxy();
    }

    method UpdateEntries(e: Endpoints)
      requires TableInv(table) && ValidEndpoints(e)
      modifies this`table
      ensures table == EndpointsModified(old(table), e)
    {
      var oldList := GetServicePorts(ServiceKey(e.ns, e.name));
      var m := Explode(e.subsets);
      NamesAreValid(e, m);
      var newList := EnterEndpoints(e, m);
      ghost var entered := table;
      var gone := DiffLists(oldList, newList);
      GoneMembers(old(table), entered, e, m, oldList, newList);
      ClearEntries(gone);
      PutModified(old(table), entered, table, e, m, gone);
    }

    /** `handleEndpointsDelete`. */
    method HandleEndpointsDelete(e: Endpoints)
      requires ValidEndpoints(e)
      modifies this
      ensures table == EndpointsDeleted(old(table), e)
      ensures haproxyRequested == (old(haproxyRequested) || Commits())
      ensures unchanged(this`vips) && unchanged(this`keepalivedRequested)
      ensures master == old(master) && skipCommit == old(skipCommit)
    {
      ClearPorts(e);
      CommitHaproxy();
    }

    /** `HandleService`. */
    method HandleService(event: EventType, s: Service)
      requires TableInv(table) && ValidService(s)
      modifies this
      ensures table == ServiceEvent(old(table), event, s)
      ensures haproxyRequested == (old(haproxyRequested) || (Commits() && (event == Deleted || IPSet(s))))
      ensures vips == VipsAfter(old(vips), event, s)
      ensures keepalivedRequested == (old(keepalivedRequested) || (Commits() && ChangesVips(old(vips), event, s)))
      ensures master == old(master) && skipCommit == old(skipCommit)
    {
      match event {
        case Added => HandleServiceAdd(s);
        case Modified => HandleServiceUpdate(s);
        case Deleted => HandleServiceDelete(s);
      }
    }

    /** `HandleEndpoints`. */
    method HandleEndpoints(event: EventType, e: Endpoints)
      requires TableInv(table) && ValidEndpoints(e)
      modifies this
      ensures table == EndpointsEvent(old(table), event, e)
      ensures haproxyRequested == (old(haproxyRequested) || (Commits() && !(event == Added && e.subsets == [])))
      ensures vips == old(vips) && keepalivedRequested == old(keepalivedRequested)
      ensures master == old(master) && skipCommit == old(skipCommit)
    {
      match event {
        case Added => HandleEndpointsAdd(e);
        case Modified => HandleEndpointsUpdate(e);
        case Deleted => HandleEndpointsDelete(e);
      }
    }
  }

  lemma PortsAdded(t: Table, s: Service)
    ensures PutPorts(t, s, |s.ports|) == ServiceAdded(t, s)
  {
    var t' := PutPorts(t, s, |s.ports|);
    forall key ensures key in t' <==> key in ServiceAdded(t, s) {
      PutPortsAt(t, s, |s.ports|, key);
      InfoIff(s, |s.ports|, key);
    }
    forall key | key in t' ensures t'[key] == ServiceAdded(t, s)[key] {
      PutPortsAt(t, s, |s.ports|, key);
    }
  }

  lemma PortsModified(t: Table, s: Service, gone: seq<string>)
    requires TableInv(t) && ValidService(s)
    requires forall key :: key in gone <==> key in t && ServiceOf(key) == ServiceKey(s.ns, s.name) && Info(s, key).None?
    ensures PutPorts(t, s, |s.ports|) - (set key | key in gone) == ServiceModified(t, s)
  {
    var t' := PutPorts(t, s, |s.ports|) - (set key | key in gone);
    forall key ensures key in t' <==> key in ServiceModified(t, s) {
      PutPortsAt(t, s, |s.ports|, key);
      InfoIff(s, |s.ports|, key);
    }
    forall key | key in t' ensures t'[key] == ServiceModified(t, s)[key] {
      PutPortsAt(t, s, |s.ports|, key);
    }
  }

  /** Every collected name is a port name. */
  lemma NamesAreValid(e: Endpoints, m: map<string, seq<Endpoint>>)
    requires ValidEndpoints(e) && Explodes(m, e.subsets)
    ensures forall name | name in m :: NoColon(name) && name in PortNames(e.subsets)
    ensures forall name | name in PortNames(e.subsets) :: NoColon(name)
  {
    forall name | name in m ensures name in PortNames(e.subsets) {
      assert Collected(m, name) != [];
      FlattenNames(e.subsets, name);
    }
  }

  lemma EnteredKeys(e: Endpoints, m: map<string, seq<Endpoint>>, key: string)
    requires ValidEndpoints(e) && Explodes(m, e.subsets)
    ensures key in EndpointKeys(e) <==> OfEndpoints(key, e) && PortOf(key) in m
    ensures OfEndpoints(key, e) ==> Collected(m, PortOf(key)) == Flatten(e.subsets, PortOf(key))
  {
    NamesAreValid(e, m);
    if OfEndpoints(key, e) && PortOf(key) in m {
      KeyOfParts(key);
      assert Collected(m, PortOf(key)) != [];
    }
    if key in EndpointKeys(e) {
      assert Collected(m, PortOf(key)) != [];
    }
  }

  lemma PutAdded(t: Table, t': Table, e: Endpoints, m: map<string, seq<Endpoint>>)
    requires ValidEndpoints(e) && Explodes(m, e.subsets) && Entered(t, t', e, m, m.Keys)
    ensures t' == EndpointsAdded(t, e)
  {
    forall key
      ensures key in t' <==> key in EndpointsAdded(t, e)
      ensures key in t' ==> t'[key] == EndpointsAdded(t, e)[key]
    {
      AddedAt(t, t', e, m, key);
    }
    hide EndpointsAdded, Entered, Explodes;
  }

  lemma AddedAt(t: Table, t': Table, e: Endpoints, m: map<string, seq<Endpoint>>, key: string)
    requires ValidEndpoints(e) && Explodes(m, e.subsets) && Entered(t, t', e, m, m.Keys)
    ensures key in t' <==> key in EndpointsAdded(t, e)
    ensures key in t' ==> t'[key] == EndpointsAdded(t, e)[key]
  {
    hide Explodes, Flatten, EndpointKeys, ValidEndpoints, OfEndpoints, PortOf;
    EnteredKeys(e, m, key);
  }

  /** What the update empties: the service's old entries whose ports have no address now. */
  lemma GoneMembers(t: Table, entered: Table, e: Endpoints, m: map<string, seq<Endpoint>>, oldList: seq<string>,
      newList: seq<string>)
    requires TableInv(t) && Entered(t, entered, e, m, m.Keys)
    requires forall key :: key in oldList <==> key in t && ServiceOf(key) == ServiceKey(e.ns, e.name)
    requires forall key :: key in newList <==> OfEndpoints(key, e) && PortOf(key) in m
    ensures forall key :: key in Diff(oldList, newList) <==> key in t && OfEndpoints(key, e) && PortOf(key) !in m
    ensures forall key | key in Diff(oldList, newList) :: key in entered
  {
    DiffMembers(oldList, newList);
  }

  lemma PutModified(t: Table, entered: Table, t': Table, e: Endpoints, m: map<string, seq<Endpoint>>, gone: seq<string>)
    requires ValidEndpoints(e) && Explodes(m, e.subsets) && Entered(t, entered, e, m, m.Keys) && TableInv(t)
    requires forall key :: key in gone <==> key in t && OfEndpoints(key, e) && PortOf(key) !in m
    requires t'.Keys == entered.Keys
    requires forall key | key in t' :: t'[key] == if key in gone then entered[key].(endpoints := []) else entered[key]
    ensures t' == EndpointsModified(t, e)
  {
    forall key ensures key in t' <==> key in EndpointsModified(t, e) {
      EnteredKeys(e, m, key);
    }
    forall key | key in t' ensures t'[key] == EndpointsModified(t, e)[key] {
      EnteredKeys(e, m, key);
    }
  }
}
