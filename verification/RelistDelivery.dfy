/** A relist, all the way: after both queues were replaced by the live objects, every run of the two
  consumers and the worker that drains them leaves the route table right for every live service, and the
  last render shows it, unless the last event applied was one whose handler asks for no render. */
module RelistDelivery {
  import opened EventQueue
  import opened RouteTable
  import opened Relist
  import opened Pipeline
  import D = EventDelivery

  type Services = map<Key, Service>
  type EndpointsMap = map<Key, Endpoints>

  /** Nothing more is said by the producers. */
  predicate Silent(a: Action) {
    && (a.FromServices? ==> a.a == D.Pop)
    && (a.FromEndpoints? ==> a.b == D.Pop)
  }

  /** Besides, no render fails, and the proxier stays MASTER. */
  predicate Quiet(a: Action) {
    Silent(a) && a != FailToRender && a != BecomeBackup
  }

  /** Everything listed has been applied. */
  predicate Drained(y: Sys) {
    AllDone(y.s) && AllDone(y.e)
  }

  predicate AllDone<V>(x: Side<V>) {
    x.w.q.queue == [] && !x.Holds()
  }

  // What a queue delivers

  /** What one queue still holds of its list `m`. */
  ghost predicate Queued<V>(q: State<V>, m: map<Key, V>) {
    forall k | k in q.events :: q.events[k] == Modified && k in m && k in q.store && q.store[k] == m[k]
  }

  /** What it delivered of it, `from` deliveries having been popped before. */
  ghost predicate Delivered<V>(log: seq<Delivery<V>>, m: map<Key, V>, from: nat) {
    forall j | from <= j < |log| :: log[j].event == Modified && log[j].key in m && log[j].obj == m[log[j].key]
  }

  predicate Popping<V>(log: seq<Delivery<V>>, from: nat, k: Key) {
    exists j | from <= j < |log| :: log[j].key == k
  }

  ghost predicate Listing<V>(w: D.World<V>, m: map<Key, V>, from: nat) {
    && from <= |w.log|
    && w.q.queue == D.Pending(w)
    && Queued(w.q, m)
    && Delivered(w.log, m, from)
    && forall k | k in m :: k in w.q.events || Popping(w.log, from, k)
  }

  lemma DeliveredMore<V>(log: seq<Delivery<V>>, d: Delivery<V>, m: map<Key, V>, from: nat)
    requires from <= |log| && Delivered(log, m, from) && d.event == Modified && d.key in m && d.obj == m[d.key]
    ensures Delivered(log + [d], m, from) && Popping(log + [d], from, d.key)
  {
    var all := log + [d];
    assert all[|log|] == d;
  }

  lemma PoppingMore<V>(log: seq<Delivery<V>>, d: Delivery<V>, from: nat, k: Key)
    requires Popping(log, from, k)
    ensures Popping(log + [d], from, k)
  {
    var j :| from <= j < |log| && log[j].key == k;
    assert (log + [d])[j] == log[j];
  }

  lemma PopKeepsQueued<V>(q: State<V>, m: map<Key, V>)
    requires CanPop(q) && Queued(q, m)
    ensures Queued(AfterPop(q), m) && AfterPop(q).events == q.events - {q.queue[0]}
    ensures var d := Popped(q); d.event == Modified && d.key in m && d.obj == m[d.key] && d.key == q.queue[0]
  {
  }

  lemma PopKeepsListing<V>(w: D.World<V>, m: map<Key, V>, from: nat)
    requires D.Inv(w) && Listing(w, m, from) && w.q.queue != []
    ensures Listing(D.Step(w, D.Pop), m, from)
  {
    hide D.Step, D.Apply, D.Pending, Queued, Delivered, Popping, AfterPop, Popped, CanPop, D.KeyInv, D.QueueInv,
      D.ListInv;
    D.HeadCanPop(w);
    D.PopIs(w);
    D.AfterPopIs(w.q);
    var w', d := D.Step(w, D.Pop), Popped(w.q);
    D.PopPending(w, w');
    PopKeepsQueued(w.q, m);
    DeliveredMore(w.log, d, m, from);
    forall k | k in m ensures k in w'.q.events || Popping(w'.log, from, k) {
      if k !in w.q.events {
        PoppingMore(w.log, d, from, k);
      }
    }
  }

  lemma ReplaceStartsListing<V>(w: D.World<V>, items: seq<Item<V>>)
    requires D.Inv(w) && D.Legal(w, D.Replace(items))
    ensures Listing(D.Step(w, D.Replace(items)), StoreOf(items), |w.log|)
    ensures D.Step(w, D.Replace(items)).log == w.log
    ensures items != [] ==> D.Step(w, D.Replace(items)).q.queue != []
  {
    D.StoreOfItems(items);
    hide D.Inv, StoreOf, Distinct;
    assert forall k | k in Keys(items) :: k in StoreOf(items);
  }

  /** A drained queue has delivered its list. */
  lemma ListDelivered<V>(w: D.World<V>, m: map<Key, V>, from: nat, k: Key)
    requires D.Inv(w) && Listing(w, m, from) && w.q.queue == [] && k in m
    ensures exists j | from <= j < |w.log| :: w.log[j] == Delivery(Modified, k, m[k])
  {
    assert k !in w.q.events by {
      assert k in w.q.events ==> k in w.q.queue;
    }
    hide D.Inv, D.Pending, Queued;
    var j :| from <= j < |w.log| && w.log[j].key == k;
    assert w.log[j] == Delivery(Modified, k, m[k]);
  }

  // Two lists on their way

  /** The lists, what each queue had delivered when it was replaced, and what had been applied. */
  datatype Lists = Lists(ss: Services, es: EndpointsMap, logS: seq<Delivery<Service>>, logE: seq<Delivery<Endpoints>>,
                         before: seq<Update>)

  ghost predicate Relisting(y: Sys, l: Lists) {
    && Inv(y)
    && Listing(y.s.w, l.ss, |l.logS|) && l.logS <= y.s.w.log
    && Listing(y.e.w, l.es, |l.logE|) && l.logE <= y.e.w.log
    && l.before <= y.done
    && |Part(l.before, true)| <= |l.logS| <= |Part(l.before, true)| + 1
    && |Part(l.before, false)| <= |l.logE| <= |Part(l.before, false)| + 1
  }

  lemma RelistingIs(y: Sys, l: Lists)
    requires Relisting(y, l)
    ensures Inv(y) && l.before <= y.done && l.logS <= y.s.w.log && l.logE <= y.e.w.log
    ensures Delivered(y.s.w.log, l.ss, |l.logS|) && |Part(l.before, true)| <= |l.logS| <= |Part(l.before, true)| + 1
    ensures Delivered(y.e.w.log, l.es, |l.logE|) && |Part(l.before, false)| <= |l.logE| <= |Part(l.before, false)| + 1
    ensures Listing(y.s.w, l.ss, |l.logS|) && Listing(y.e.w, l.es, |l.logE|)
  {
    hide Inv, Part, Delivered, Popping, Queued, D.Pending;
  }

  lemma IdleIs<V>(x: Side<V>)
    requires AllDone(x)
    ensures x.w.q.queue == [] && x.applied >= |x.w.log|
  {
  }

  /** What has been applied since. */
  function Since(y: Sys, l: Lists): seq<Update>
    requires l.before <= y.done
  {
    y.done[|l.before|..]
  }

  /** Applying goes on, and so do the consumers; sampling and the worker leave both alone. */
  ghost predicate Moves(y: Sys, y': Sys, pops: bool, popped: bool) {
    && y'.s.w == (if pops then D.Step(y.s.w, D.Pop) else y.s.w)
    && y'.e.w == (if popped then D.Step(y.e.w, D.Pop) else y.e.w)
    && (pops ==> y.s.w.q.queue != []) && (popped ==> y.e.w.q.queue != [])
    && y.s.applied <= y'.s.applied && y.e.applied <= y'.e.applied && y.done <= y'.done
    && y.s.w.log <= y'.s.w.log && y.e.w.log <= y'.e.w.log
  }

  lemma SilentWorlds(y: Sys, a: Action)
    requires Inv(y) && Enabled(y, a) && Silent(a)
    ensures Moves(y, Step(y, a), a.FromServices?, a.FromEndpoints?)
  {
    hide *;
    ActionIs(a);
    match a
    case FromServices(_) => PopServiceMoves(y);
    case FromEndpoints(_) => PopEndpointsMoves(y);
    case ApplyService => ApplyServiceMoves(y);
    case ApplyEndpoints => ApplyEndpointsMoves(y);
    case SampleService => SampleServiceMoves(y);
    case SampleEndpoints => SampleEndpointsMoves(y);
    case _ => WorkMoves(y, a);
  }

  lemma PopServiceMoves(y: Sys)
    requires Inv(y) && Enabled(y, FromServices(D.Pop))
    ensures Moves(y, Step(y, FromServices(D.Pop)), true, false)
  {
    hide Inv, Enabled, Step, D.Step, D.Legal, D.Inv;
    WorldsAreInv(y);
    PopServiceStep(y);
    LogGrows(y.s.w, D.Pop);
  }

  lemma PopEndpointsMoves(y: Sys)
    requires Inv(y) && Enabled(y, FromEndpoints(D.Pop))
    ensures Moves(y, Step(y, FromEndpoints(D.Pop)), false, true)
  {
    hide Inv, Enabled, Step, D.Step, D.Legal, D.Inv;
    WorldsAreInv(y);
    PopEndpointsStep(y);
    LogGrows(y.e.w, D.Pop);
  }

  lemma ApplyServiceMoves(y: Sys)
    requires Inv(y) && Enabled(y, ApplyService)
    ensures Moves(y, Step(y, ApplyService), false, false)
  {
    ApplyServiceEnabled(y);
    hide Inv, Enabled, Step, Applied, NextService, ValidUpdates, ValidUpdate, Apply, Commits, Current;
    ApplyServiceStep(y);
    AppliedIs(y, NextService(y));
  }

  lemma ApplyEndpointsMoves(y: Sys)
    requires Inv(y) && Enabled(y, ApplyEndpoints)
    ensures Moves(y, Step(y, ApplyEndpoints), false, false)
  {
    ApplyEndpointsEnabled(y);
    hide Inv, Enabled, Step, Applied, NextEndpoints, ValidUpdates, ValidUpdate, Apply, Commits, Current;
    ApplyEndpointsStep(y);
    AppliedIs(y, NextEndpoints(y));
  }

  lemma SampleServiceMoves(y: Sys)
    requires Inv(y) && Enabled(y, SampleService)
    ensures Moves(y, Step(y, SampleService), false, false)
  {
    SampleEnabled(y, SampleService);
    hide Inv, Enabled, Step;
    SampleServiceStep(y);
  }

  lemma SampleEndpointsMoves(y: Sys)
    requires Inv(y) && Enabled(y, SampleEndpoints)
    ensures Moves(y, Step(y, SampleEndpoints), false, false)
  {
    SampleEnabled(y, SampleEndpoints);
    hide Inv, Enabled, Step;
    SampleEndpointsStep(y);
  }

  lemma WorkMoves(y: Sys, a: Action)
    requires Inv(y) && Enabled(y, a) && !OfQueues(a)
    ensures Moves(y, Step(y, a), false, false)
  {
    WorkedIs(y, a);
    hide Inv, Enabled, Step, Worked;
  }

  lemma ActionIs(a: Action)
    requires Silent(a)
    ensures (a.FromServices? ==> a == FromServices(D.Pop)) && (a.FromEndpoints? ==> a == FromEndpoints(D.Pop))
    ensures OfQueues(a) <==> a.FromServices? || a.FromEndpoints? || a == SampleService || a == SampleEndpoints
                             || a == ApplyService || a == ApplyEndpoints
  {
  }

  lemma SampledIs(y: Sys)
    ensures Sampled(y) == y.(skipCommit := !(y.e.flag && y.s.flag))
  {
  }

  lemma PopServiceStep(y: Sys)
    requires Inv(y) && Enabled(y, FromServices(D.Pop))
    ensures Step(y, FromServices(D.Pop)) == y.(s := y.s.(w := D.Step(y.s.w, D.Pop)))
    ensures D.Legal(y.s.w, D.Pop) && y.s.w.q.queue != [] && !y.s.Holds()
  {
    hide Inv, D.Step;
  }

  lemma PopEndpointsStep(y: Sys)
    requires Inv(y) && Enabled(y, FromEndpoints(D.Pop))
    ensures Step(y, FromEndpoints(D.Pop)) == y.(e := y.e.(w := D.Step(y.e.w, D.Pop)))
    ensures D.Legal(y.e.w, D.Pop) && y.e.w.q.queue != [] && !y.e.Holds()
  {
    hide Inv, D.Step;
  }

  lemma WorldsAreInv(y: Sys)
    requires Inv(y)
    ensures D.Inv(y.s.w) && D.Inv(y.e.w)
  {
    hide D.Inv, Tables, Covered, History;
  }

  lemma SilentStep(y: Sys, a: Action, l: Lists)
    requires Relisting(y, l) && Enabled(y, a) && Silent(a)
    ensures Relisting(Step(y, a), l)
  {
    hide Inv, Step, Enabled, Listing, Silent, Part, D.Inv, D.Step;
    StepKeepsInv(y, a);
    SilentWorlds(y, a);
    WorldsAreInv(y);
    match a
    case FromServices(_) => PopKeepsListing(y.s.w, l.ss, |l.logS|);
    case FromEndpoints(_) => PopKeepsListing(y.e.w, l.es, |l.logE|);
    case _ =>
  }

  lemma {:induction false} SilentRun(y: Sys, run: seq<Action>, y': Sys, l: Lists)
    requires Relisting(y, l) && Reaches(y, run, y') && forall a | a in run :: Silent(a)
    ensures Relisting(y', l)
    decreases |run|
  {
    hide Relisting, Inv, Step, Enabled, Silent;
    if run != [] {
      assert run[0] in run && forall a | a in run[1..] :: a in run;
      SilentStep(y, run[0], l);
      SilentRun(Step(y, run[0]), run[1..], y', l);
    }
  }

  /** Both lists can be queued. */
  predicate CanList(services: seq<Item<Service>>, endpoints: seq<Item<Endpoints>>) {
    && Distinct(Keys(services)) && "" !in Keys(services)
    && Distinct(Keys(endpoints)) && "" !in Keys(endpoints)
    && (forall i | i in services :: ValidService(i.obj))
    && (forall i | i in endpoints :: ValidEndpoints(i.obj))
  }

  function ListsOf(y: Sys, services: seq<Item<Service>>, endpoints: seq<Item<Endpoints>>): Lists {
    Lists(StoreOf(services), StoreOf(endpoints), y.s.w.log, y.e.w.log, y.done)
  }

  lemma ReplaceServicesStep(y: Sys, items: seq<Item<Service>>)
    requires Inv(y) && D.Legal(y.s.w, D.Replace(items)) && forall i | i in items :: ValidService(i.obj)
    ensures var a := FromServices(D.Replace(items));
            Enabled(y, a) && Step(y, a) == y.(s := y.s.(w := D.Step(y.s.w, D.Replace(items))))
  {
    hide Inv, D.Step, D.Legal, ValidService;
  }

  lemma ReplaceEndpointsStep(y: Sys, items: seq<Item<Endpoints>>)
    requires Inv(y) && D.Legal(y.e.w, D.Replace(items)) && forall i | i in items :: ValidEndpoints(i.obj)
    ensures var a := FromEndpoints(D.Replace(items));
            Enabled(y, a) && Step(y, a) == y.(e := y.e.(w := D.Step(y.e.w, D.Replace(items))))
  {
    hide Inv, D.Step, D.Legal, ValidEndpoints;
  }

  /** The two calls of `Replace`. */
  lemma RelistStep(y: Sys, services: seq<Item<Service>>, endpoints: seq<Item<Endpoints>>) returns (y1: Sys, y2: Sys)
    requires Inv(y) && CanList(services, endpoints)
    ensures Enabled(y, FromServices(D.Replace(services))) && y1 == Step(y, FromServices(D.Replace(services)))
    ensures Inv(y1) && Enabled(y1, FromEndpoints(D.Replace(endpoints)))
    ensures y2 == Step(y1, FromEndpoints(D.Replace(endpoints)))
    ensures y2 == y.(s := y.s.(w := y2.s.w), e := y.e.(w := y2.e.w))
    ensures y2.s.w == D.Step(y.s.w, D.Replace(services)) && y2.e.w == D.Step(y.e.w, D.Replace(endpoints))
    ensures Relisting(y2, ListsOf(y, services, endpoints))
    ensures y2.s.w.log == y.s.w.log && y2.e.w.log == y.e.w.log
    ensures services != [] ==> y2.s.w.q.queue != []
    ensures endpoints != [] ==> y2.e.w.q.queue != []
  {
    CanListIs(y, services, endpoints);
    hide *;
    WorldsAreInv(y);
    HistoryIsLong(y);
    ReplaceServicesStep(y, services);
    StepKeepsInv(y, FromServices(D.Replace(services)));
    y1 := Step(y, FromServices(D.Replace(services)));
    ReplaceStartsListing(y.s.w, services);
    ReplaceEndpointsStep(y1, endpoints);
    StepKeepsInv(y1, FromEndpoints(D.Replace(endpoints)));
    y2 := Step(y1, FromEndpoints(D.Replace(endpoints)));
    ReplaceStartsListing(y.e.w, endpoints);
    RelistingStarts(y, y2, services, endpoints);
  }

  lemma CanListIs(y: Sys, services: seq<Item<Service>>, endpoints: seq<Item<Endpoints>>)
    requires CanList(services, endpoints)
    ensures D.Legal(y.s.w, D.Replace(services)) && D.Legal(y.e.w, D.Replace(endpoints))
    ensures (forall i | i in services :: ValidService(i.obj)) && (forall i | i in endpoints :: ValidEndpoints(i.obj))
  {
    hide ValidService, ValidEndpoints, Distinct;
  }

  lemma RelistingStarts(y: Sys, y2: Sys, services: seq<Item<Service>>, endpoints: seq<Item<Endpoints>>)
    requires Inv(y2) && y2 == y.(s := y.s.(w := y2.s.w), e := y.e.(w := y2.e.w))
    requires y2.s.w.log == y.s.w.log && y2.e.w.log == y.e.w.log
    requires Listing(y2.s.w, StoreOf(services), |y.s.w.log|) && Listing(y2.e.w, StoreOf(endpoints), |y.e.w.log|)
    requires |Part(y.done, true)| <= |y.s.w.log| <= |Part(y.done, true)| + 1
    requires |Part(y.done, false)| <= |y.e.w.log| <= |Part(y.done, false)| + 1
    ensures Relisting(y2, ListsOf(y, services, endpoints))
  {
    hide Inv, Listing, Part, StoreOf;
  }

  /** All but one of the deliveries have been applied. */
  lemma HistoryIsLong(y: Sys)
    requires Inv(y)
    ensures y.s.applied <= |y.s.w.log| <= y.s.applied + 1 && |Part(y.done, true)| == y.s.applied
    ensures y.e.applied <= |y.e.w.log| <= y.e.applied + 1 && |Part(y.done, false)| == y.e.applied
  {
    hide D.Inv, Tables, Covered, Part, ValidServices, ValidEndpointsOf;
  }

  // What was applied

  lemma {:induction false} PartJoins(a: seq<Update>, b: seq<Update>, service: bool)
    ensures Part(a + b, service) == Part(a, service) + Part(b, service)
    decreases |b|
  {
    if b == [] {
      assert a + b == a;
    } else {
      var init, u := b[..|b| - 1], b[|b| - 1];
      assert b == init + [u] && a + b == a + init + [u];
      PartJoins(a, init, service);
      PartMore(a + init, u, service);
      PartMore(init, u, service);
      hide Part;
    }
  }

  lemma {:induction false} PartMembers(us: seq<Update>, service: bool, u: Update)
    ensures u in Part(us, service) <==> u in us && u.ServiceUpdate? == service
  {
    if us != [] {
      var init, last := us[..|us| - 1], us[|us| - 1];
      assert us == init + [last];
      PartMembers(init, service, u);
    }
  }

  predicate About(u: Update, key: string) {
    OfServiceOf(u, key) || OfEndpointsOf(u, key)
  }

  /** From index `p` on, the updates of `key` in one part are all `u`: then its last one is. */
  lemma {:induction false} LastIs(us: seq<Update>, service: bool, key: string, p: nat, u: Update) returns (n: nat)
    requires p < |Part(us, service)| && Part(us, service)[p] == u && u.ServiceUpdate? == service && About(u, key)
    requires forall q | p <= q < |Part(us, service)| :: About(Part(us, service)[q], key) ==> Part(us, service)[q] == u
    ensures n < |us| && us[n] == u
    ensures if service then LastOfService(us, n, key) else LastOfEndpoints(us, n, key)
    decreases |us|
  {
    var init, last := us[..|us| - 1], us[|us| - 1];
    assert us == init + [last];
    PartMore(init, last, service);
    var all, part := Part(us, service), Part(init, service);
    hide Part, OfServiceOf, OfEndpointsOf;
    if last.ServiceUpdate? == service && About(last, key) {
      assert all[|all| - 1] == last;
      n := |us| - 1;
    } else {
      assert forall q | 0 <= q < |part| :: part[q] == all[q];
      n := LastIs(init, service, key, p, u);
      NotAbout(last, key, service);
    }
  }

  lemma NotAbout(u: Update, key: string, service: bool)
    requires !(u.ServiceUpdate? == service && About(u, key))
    ensures if service then !OfServiceOf(u, key) else !OfEndpointsOf(u, key)
  {
  }

  /** The reflectors' key function: namespace and name. */
  function MetaKey(ns: string, name: string): Key {
    ns + "/" + name
  }

  ghost predicate KeyedByName(ss: Services, es: EndpointsMap) {
    && (forall k | k in ss :: ValidService(ss[k]) && k == MetaKey(ss[k].ns, ss[k].name))
    && (forall k | k in es :: ValidEndpoints(es[k]) && k == MetaKey(es[k].ns, es[k].name))
  }

  /** The service parts of what was applied since the lists came: at most one delivery from before, then them. */
  lemma SinceServices(y: Sys, l: Lists)
    requires Relisting(y, l)
    ensures var p := |Part(l.before, true)|;
            && p <= y.s.applied <= |y.s.w.log|
            && Part(Since(y, l), true) == OfServices(y.s.w.log[p..y.s.applied])
  {
    assert y.done == l.before + Since(y, l);
    hide *;
    RelistingIs(y, l);
    PartJoins(l.before, Since(y, l), true);
    HistoryOf(y);
    ServicesFrom(y.s.w.log, y.s.applied, Part(l.before, true), Part(Since(y, l), true));
  }

  lemma SinceEndpoints(y: Sys, l: Lists)
    requires Relisting(y, l)
    ensures var p := |Part(l.before, false)|;
            && p <= y.e.applied <= |y.e.w.log|
            && Part(Since(y, l), false) == OfEndpointsLog(y.e.w.log[p..y.e.applied])
  {
    assert y.done == l.before + Since(y, l);
    hide *;
    RelistingIs(y, l);
    PartJoins(l.before, Since(y, l), false);
    HistoryOf(y);
    EndpointsFrom(y.e.w.log, y.e.applied, Part(l.before, false), Part(Since(y, l), false));
  }

  lemma ServicesFrom(log: seq<Delivery<Service>>, n: nat, a: seq<Update>, b: seq<Update>)
    requires n <= |log| && a + b == OfServices(log[..n])
    ensures |a| <= n && b == OfServices(log[|a|..n])
  {
    assert OfServices(log[..n])[|a|..] == OfServices(log[|a|..n]);
    assert (a + b)[|a|..] == b;
  }

  lemma EndpointsFrom(log: seq<Delivery<Endpoints>>, n: nat, a: seq<Update>, b: seq<Update>)
    requires n <= |log| && a + b == OfEndpointsLog(log[..n])
    ensures |a| <= n && b == OfEndpointsLog(log[|a|..n])
  {
    assert OfEndpointsLog(log[..n])[|a|..] == OfEndpointsLog(log[|a|..n]);
    assert (a + b)[|a|..] == b;
  }

  lemma HistoryOf(y: Sys)
    requires Inv(y)
    ensures y.s.applied <= |y.s.w.log| && Part(y.done, true) == OfServices(y.s.w.log[..y.s.applied])
    ensures y.e.applied <= |y.e.w.log| && Part(y.done, false) == OfEndpointsLog(y.e.w.log[..y.e.applied])
  {
    PrefixRendered(y);
    hide Inv, Part, OfServices, OfEndpointsLog;
  }

  // The table

  predicate SameName(s: Service, e: Endpoints) {
    e.ns == s.ns && e.name == s.name
  }

  /** A listed service whose keys `key` is one of is the one keyed `k`. */
  lemma ServiceOfKey(ss: Services, es: EndpointsMap, k: Key, k': Key, key: string)
    requires KeyedByName(ss, es) && k in ss && k' in ss && OfService(key, ss[k]) && OfService(key, ss[k'])
    ensures k' == k
  {
    ServiceKeyInjective(ss[k].ns, ss[k].name, ss[k'].ns, ss[k'].name);
  }

  lemma EndpointsOfKey(ss: Services, es: EndpointsMap, k: Key, k': Key, key: string)
    requires KeyedByName(ss, es) && k in es && k' in es && OfEndpoints(key, es[k]) && OfEndpoints(key, es[k'])
    ensures k' == k
  {
    ServiceKeyInjective(es[k].ns, es[k].name, es[k'].ns, es[k'].name);
  }

  /** The last update of a listed service is the one of the list. */
  lemma LastService(y: Sys, l: Lists, k: Key, key: string) returns (m: nat)
    requires Relisting(y, l) && AllDone(y.s) && KeyedByName(l.ss, l.es) && k in l.ss && OfService(key, l.ss[k])
    ensures m < |Since(y, l)| && Since(y, l)[m] == ServiceUpdate(Modified, l.ss[k])
    ensures LastOfService(Since(y, l), m, key)
  {
    hide *;
    RelistingIs(y, l);
    IdleIs(y.s);
    WorldsAreInv(y);
    SinceServices(y, l);
    ListDelivered(y.s.w, l.ss, |l.logS|, k);
    HistoryIsLong(y);
    var us, p := Since(y, l), |Part(l.before, true)|;
    assert y.s.w.log[p..y.s.applied] == y.s.w.log[p..];
    var q := ListedServices(y.s.w.log, l.ss, l.es, |l.logS|, p, k, key);
    m := LastIs(us, true, key, q, ServiceUpdate(Modified, l.ss[k]));
  }

  /** From the delivery of the list on, what a queue delivers of a service is the service listed. */
  lemma ListedServices(log: seq<Delivery<Service>>, ss: Services, es: EndpointsMap, from: nat, p: nat, k: Key,
                       key: string) returns (q: nat)
    requires KeyedByName(ss, es) && k in ss && OfService(key, ss[k]) && p <= from <= |log| && Delivered(log, ss, from)
    requires exists j | from <= j < |log| :: log[j] == Delivery(Modified, k, ss[k])
    ensures var part, u := OfServices(log[p..]), ServiceUpdate(Modified, ss[k]);
            && q < |part| && part[q] == u && About(u, key)
            && forall r | q <= r < |part| :: About(part[r], key) ==> part[r] == u
  {
    var j :| from <= j < |log| && log[j] == Delivery(Modified, k, ss[k]);
    q := j - p;
    var part, u := OfServices(log[p..]), ServiceUpdate(Modified, ss[k]);
    assert log[p..][q] == log[j];
    hide OfService, KeyedByName, OfEndpoints;
    forall r | q <= r < |part| && About(part[r], key) ensures part[r] == u {
      var d := log[p + r];
      assert log[p..][r] == d && part[r] == OfServiceDelivery(d);
      assert d.event == Modified && d.key in ss && d.obj == ss[d.key];
      ServiceOfKey(ss, es, k, d.key, key);
    }
  }

  lemma LastEndpoints(y: Sys, l: Lists, k: Key, key: string) returns (n: nat)
    requires Relisting(y, l) && AllDone(y.e) && KeyedByName(l.ss, l.es) && k in l.es && OfEndpoints(key, l.es[k])
    ensures n < |Since(y, l)| && Since(y, l)[n] == EndpointsUpdate(Modified, l.es[k])
    ensures LastOfEndpoints(Since(y, l), n, key)
  {
    hide *;
    RelistingIs(y, l);
    IdleIs(y.e);
    WorldsAreInv(y);
    SinceEndpoints(y, l);
    ListDelivered(y.e.w, l.es, |l.logE|, k);
    HistoryIsLong(y);
    var us, p := Since(y, l), |Part(l.before, false)|;
    assert y.e.w.log[p..y.e.applied] == y.e.w.log[p..];
    var q := ListedEndpoints(y.e.w.log, l.ss, l.es, |l.logE|, p, k, key);
    n := LastIs(us, false, key, q, EndpointsUpdate(Modified, l.es[k]));
  }

  lemma ListedEndpoints(log: seq<Delivery<Endpoints>>, ss: Services, es: EndpointsMap, from: nat, p: nat, k: Key,
                        key: string) returns (q: nat)
    requires KeyedByName(ss, es) && k in es && OfEndpoints(key, es[k]) && p <= from <= |log|
    requires Delivered(log, es, from)
    requires exists j | from <= j < |log| :: log[j] == Delivery(Modified, k, es[k])
    ensures var part, u := OfEndpointsLog(log[p..]), EndpointsUpdate(Modified, es[k]);
            && q < |part| && part[q] == u && About(u, key)
            && forall r | q <= r < |part| :: About(part[r], key) ==> part[r] == u
  {
    var j :| from <= j < |log| && log[j] == Delivery(Modified, k, es[k]);
    q := j - p;
    var part, u := OfEndpointsLog(log[p..]), EndpointsUpdate(Modified, es[k]);
    assert log[p..][q] == log[j];
    hide OfService, KeyedByName, OfEndpoints;
    forall r | q <= r < |part| && About(part[r], key) ensures part[r] == u {
      var d := log[p + r];
      assert log[p..][r] == d && part[r] == OfEndpointsDelivery(d);
      assert d.event == Modified && d.key in es && d.obj == es[d.key];
      EndpointsOfKey(ss, es, k, d.key, key);
    }
  }

  /** Only a delivery held when the lists came can drop a live port. */
  lemma OnlyHeldDrops(y: Sys, l: Lists, k: Key, i: nat, u: Update)
    requires Relisting(y, l) && AllDone(y.s) && KeyedByName(l.ss, l.es) && k in l.ss && LivePort(l.ss[k], i)
    requires u in Since(y, l) && Drops(u, KeyAt(l.ss[k], i))
    ensures |l.logS| == |Part(l.before, true)| + 1 && u == OfServiceDelivery(l.logS[|l.logS| - 1])
  {
    hide *;
    LivePortIs(l.ss[k], i);
    RelistingIs(y, l);
    var us, key, p := Since(y, l), KeyAt(l.ss[k], i), |Part(l.before, true)|;
    DropsIs(u, key);
    PartMembers(us, true, u);
    SinceAll(y, l);
    HeldDrops(y.s.w.log, l.ss, l.es, |l.logS|, p, k, i, u);
    assert y.s.w.log[p] == l.logS[p];
  }

  /** All deliveries since. */
  lemma SinceAll(y: Sys, l: Lists)
    requires Relisting(y, l) && AllDone(y.s)
    ensures var p := |Part(l.before, true)|;
            && p <= |l.logS| <= p + 1 && l.logS <= y.s.w.log && Delivered(y.s.w.log, l.ss, |l.logS|)
            && p <= |y.s.w.log| && Part(Since(y, l), true) == OfServices(y.s.w.log[p..])
  {
    hide *;
    RelistingIs(y, l);
    IdleIs(y.s);
    SinceServices(y, l);
    HistoryIsLong(y);
    var p := |Part(l.before, true)|;
    assert y.s.w.log[p..y.s.applied] == y.s.w.log[p..];
  }

  lemma LivePortIs(s: Service, i: int)
    requires LivePort(s, i)
    ensures 0 <= i < |s.ports|
  {
    hide IPSet;
  }

  lemma DropsIs(u: Update, key: string)
    requires Drops(u, key)
    ensures u.ServiceUpdate?
  {
    hide IPSet, OfService, Info, PortKeys;
  }

  /** A listed service does not drop a live port of its own, or of another. */
  lemma ListedKeepsPort(ss: Services, es: EndpointsMap, k: Key, i: nat, k': Key)
    requires KeyedByName(ss, es) && k in ss && LivePort(ss[k], i) && k' in ss
    ensures !Drops(ServiceUpdate(Modified, ss[k']), KeyAt(ss[k], i))
  {
    var s, key := ss[k], KeyAt(ss[k], i);
    KeyParts(s.ns, s.name, s.ports[i].name);
    UniquePort(s, |s.ports|, i);
    assert OfService(key, s) && Info(s, key).Some?;
    hide OfService, KeyedByName, KeyAt, Info, IPSet;
    if OfService(key, ss[k']) {
      ServiceOfKey(ss, es, k, k', key);
    }
  }

  lemma HeldDrops(log: seq<Delivery<Service>>, ss: Services, es: EndpointsMap, from: nat, p: nat, k: Key, i: nat,
                  u: Update)
    requires KeyedByName(ss, es) && k in ss && LivePort(ss[k], i) && p <= from <= |log| && from <= p + 1
    requires Delivered(log, ss, from) && u in OfServices(log[p..]) && Drops(u, KeyAt(ss[k], i))
    ensures from == p + 1 && u == OfServiceDelivery(log[p])
  {
    var part := OfServices(log[p..]);
    var q :| 0 <= q < |part| && part[q] == u;
    var d := log[p + q];
    assert log[p..][q] == d && u == OfServiceDelivery(d);
    hide Drops, KeyedByName, LivePort, OfServices, KeyAt;
    if p + q >= from {
      assert d.event == Modified && d.key in ss && d.obj == ss[d.key];
      ListedKeepsPort(ss, es, k, i, d.key);
    }
  }

  lemma SinceIsValid(y: Sys, l: Lists)
    requires Relisting(y, l) && y.lock == Unlocked
    ensures ValidUpdates(l.before) && ValidUpdates(Since(y, l))
    ensures y.table == ApplyAll(ApplyAll(map[], l.before), Since(y, l))
  {
    var us := Since(y, l);
    assert y.done == l.before + us;
    TableIsCurrent(y);
    assert TableInv(map[]) && forall u | u in l.before || u in us :: u in y.done;
    assert ValidUpdates(l.before) && ValidUpdates(us);
    hide Inv, Listing, ApplyAll, ValidUpdates, Since, TableInv;
    ApplyJoins(map[], l.before, us);
  }

  lemma IdleIsUnlocked(y: Sys)
    requires Inv(y) && Drained(y)
    ensures y.lock == Unlocked
  {
    hide D.Inv, Tables, Covered, History;
  }

  /** What a drained relist leaves of a live port. */
  lemma PortAfter(y: Sys, l: Lists, k: Key, i: nat) returns (n: nat)
    requires Relisting(y, l) && Drained(y) && KeyedByName(l.ss, l.es) && k in l.ss && k in l.es
    requires SameName(l.ss[k], l.es[k]) && LivePort(l.ss[k], i)
    ensures var s, us, key, addresses := l.ss[k], Since(y, l), KeyAt(l.ss[k], i),
                                         Flatten(l.es[k].subsets, l.ss[k].ports[i].name);
            && n < |us| && us[n] == EndpointsUpdate(Modified, l.es[k]) && LastOfEndpoints(us, n, key)
            && key in y.table
            && y.table[key] == LiveUnit(s, i, if DroppedAfter(us, n, key) then [] else addresses)
            && (y.table[key] == LiveUnit(s, i, addresses) <==> !DroppedAfter(us, n, key) || addresses == [])
  {
    var s, e, key := l.ss[k], l.es[k], KeyAt(l.ss[k], i);
    KeyParts(s.ns, s.name, s.ports[i].name);
    assert OfService(key, s) && OfEndpoints(key, e) && e.ns == s.ns && e.name == s.name;
    assert Inv(y) && AllDone(y.s) && AllDone(y.e) && TableInv(map[]);
    IdleIsUnlocked(y);
    SinceIsValid(y, l);
    hide *;
    var m := LastService(y, l, k, key);
    n := LastEndpoints(y, l, k, key);
    TableAfter(ApplyAll(map[], l.before), Since(y, l), m, s, n, e, i);
  }

  /** From any state, in every run that drains both queues once they were replaced by the live objects: each
      port of each live service that HAProxy gets has just that service's data, and just the addresses of its
      endpoints exactly if no later delivery dropped it or they have none.  Only a delivery that the service
      consumer was holding then can have dropped it. */
  lemma RelistRepairs(y: Sys, services: seq<Item<Service>>, endpoints: seq<Item<Endpoints>>, y1: Sys, y2: Sys,
                      run: seq<Action>, y': Sys, k: Key, i: nat) returns (n: nat)
    requires Inv(y) && CanList(services, endpoints) && KeyedByName(StoreOf(services), StoreOf(endpoints))
    requires Enabled(y, FromServices(D.Replace(services))) && y1 == Step(y, FromServices(D.Replace(services)))
    requires Inv(y1) && Enabled(y1, FromEndpoints(D.Replace(endpoints)))
    requires y2 == Step(y1, FromEndpoints(D.Replace(endpoints)))
    requires Reaches(y2, run, y') && (forall a | a in run :: Silent(a)) && Drained(y')
    requires k in StoreOf(services) && k in StoreOf(endpoints) && SameName(StoreOf(services)[k], StoreOf(endpoints)[k])
    requires LivePort(StoreOf(services)[k], i)
    ensures y.done <= y'.done
    ensures var s, e := StoreOf(services)[k], StoreOf(endpoints)[k];
            var us, key, addresses := y'.done[|y.done|..], KeyAt(s, i), Flatten(e.subsets, s.ports[i].name);
            && n < |us| && us[n] == EndpointsUpdate(Modified, e) && LastOfEndpoints(us, n, key)
            && key in y'.table
            && y'.table[key] == LiveUnit(s, i, if DroppedAfter(us, n, key) then [] else addresses)
            && (y'.table[key] == LiveUnit(s, i, addresses) <==> !DroppedAfter(us, n, key) || addresses == [])
            && (DroppedAfter(us, n, key) ==> y.s.Holds() && Drops(NextService(y), key))
  {
    var l, key := ListsOf(y, services, endpoints), KeyAt(StoreOf(services)[k], i);
    hide Inv, Reaches, Step, Enabled, CanList, Relisting, Drained, KeyedByName, LivePort, SameName, Drops, ApplyAll,
      Part, Flatten, KeyAt, LiveUnit, LastOfEndpoints, StoreOf, Silent, NextService;
    var z1, z2 := RelistStep(y, services, endpoints);
    SilentRun(y2, run, y', l);
    HistoryIsLong(y);
    RelistingIs(y', l);
    DrainedIs(y');
    n := PortAfter(y', l, k, i);
    var us := Since(y', l);
    if DroppedAfter(us, n, key) {
      var j :| n < j < |us| && Drops(us[j], key);
      OnlyHeldDrops(y', l, k, i, us[j]);
      HeldIsNext(y);
    }
  }

  lemma DrainedIs(y: Sys)
    requires Drained(y)
    ensures AllDone(y.s) && AllDone(y.e)
  {
  }

  lemma HeldIsNext(y: Sys)
    requires Inv(y) && |y.s.w.log| == y.s.applied + 1
    ensures y.s.Holds() && NextService(y) == OfServiceDelivery(y.s.w.log[|y.s.w.log| - 1])
  {
    hide Inv;
  }

  // The last render

  /** A drained queue whose last event was sampled has its flag set. */
  predicate FlagInv<V>(x: Side<V>, sampling: bool) {
    x.w.q.queue == [] && (x.Holds() ==> sampling) ==> x.flag
  }

  /** Once everything is applied, the table is rendered or asked for. */
  ghost predicate Shown(y: Sys)
    requires ValidUpdates(y.done)
  {
    Drained(y) ==> y.done != [] && (Commits(y.done[|y.done| - 1]) ==> Asked(y) || y.rendered == Current(y))
  }

  ghost predicate Showing(y: Sys) {
    && Inv(y) && y.master && ValidUpdates(y.done)
    && FlagInv(y.s, y.lock == ByService) && FlagInv(y.e, y.lock == ByEndpoints)
    && Shown(y)
  }

  /** An empty queue has nothing of its list left. */
  lemma EmptyIsConsumed<V>(w: D.World<V>)
    requires D.Inv(w) && w.q.queue == []
    ensures w.q.lastReplaceKey == ""
  {
    hide D.KeyInv, D.QueueInv;
  }

  lemma SampleSetsFlag<V>(x: Side<V>)
    requires D.Inv(x.w)
    ensures FlagInv(x.Sample(), true)
  {
    hide D.Inv;
    if x.w.q.queue == [] {
      EmptyIsConsumed(x.w);
    }
  }

  lemma PopServiceShowing(y: Sys)
    requires Showing(y) && Enabled(y, FromServices(D.Pop)) && Inv(Step(y, FromServices(D.Pop)))
    ensures Showing(Step(y, FromServices(D.Pop)))
  {
    WorldsAreInv(y);
    hide Inv, Enabled, Step, D.Inv, D.Step, D.Legal, ValidUpdates, Commits, Asked, Current;
    PopServiceStep(y);
    SamplingHolds(y);
    LogGrows(y.s.w, D.Pop);
  }

  lemma PopEndpointsShowing(y: Sys)
    requires Showing(y) && Enabled(y, FromEndpoints(D.Pop)) && Inv(Step(y, FromEndpoints(D.Pop)))
    ensures Showing(Step(y, FromEndpoints(D.Pop)))
  {
    WorldsAreInv(y);
    hide Inv, Enabled, Step, D.Inv, D.Step, D.Legal, ValidUpdates, Commits, Asked, Current;
    PopEndpointsStep(y);
    SamplingHolds(y);
    LogGrows(y.e.w, D.Pop);
  }

  /** A consumer that holds the lock holds a delivery. */
  lemma SamplingHolds(y: Sys)
    requires Inv(y)
    ensures (y.lock == ByService ==> y.s.Holds()) && (y.lock == ByEndpoints ==> y.e.Holds())
    ensures y.lock != Unlocked ==> y.skipCommit == !(y.s.flag && y.e.flag)
  {
    hide D.Inv, Tables, Covered, History;
  }

  lemma SampleShowing(y: Sys, a: Action)
    requires Showing(y) && Enabled(y, a) && (a == SampleService || a == SampleEndpoints) && Inv(Step(y, a))
    ensures Showing(Step(y, a))
  {
    SampleEnabled(y, a);
    hide Inv, Enabled, Step, D.Inv, ValidUpdates, Commits, Asked, Current, Sampled;
    WorldsAreInv(y);
    if a == SampleService {
      SampleServiceStep(y);
      SampledIs(y.(s := y.s.Sample(), lock := ByService));
      SampleSetsFlag(y.s);
    } else {
      SampleEndpointsStep(y);
      SampledIs(y.(e := y.e.Sample(), lock := ByEndpoints));
      SampleSetsFlag(y.e);
    }
  }

  lemma SampleEnabled(y: Sys, a: Action)
    requires Enabled(y, a) && (a == SampleService || a == SampleEndpoints)
    ensures y.lock == Unlocked && (a == SampleService ==> y.s.Holds()) && (a == SampleEndpoints ==> y.e.Holds())
  {
  }

  lemma DoneIsValid(y: Sys)
    requires Inv(y)
    ensures ValidUpdates(y.done)
  {
    hide SideInv, History, Covered, ValidServices, ValidEndpointsOf;
  }

  /** The last event is applied with both flags set, so its commit is let through. */
  lemma ApplyShowing(y: Sys, a: Action)
    requires Showing(y) && Enabled(y, a) && (a == ApplyService || a == ApplyEndpoints) && Inv(Step(y, a))
    ensures Showing(Step(y, a))
  {
    ApplyEnabled(y, a);
    HistoryIsLong(y);
    hide Inv, Enabled, Step, ValidUpdates, Commits, Current, NextService, NextEndpoints, Apply, Applied, History;
    SamplingHolds(y);
    DoneIsValid(Step(y, a));
    if a == ApplyService {
      ApplyServiceStep(y);
      AppliedIs(y, NextService(y));
    } else {
      ApplyEndpointsStep(y);
      AppliedIs(y, NextEndpoints(y));
    }
  }

  lemma WorkShowing(y: Sys, a: Action)
    requires Showing(y) && Enabled(y, a) && Quiet(a) && !OfQueues(a) && Inv(Step(y, a))
    ensures Showing(Step(y, a))
  {
    WorkedIs(y, a);
    RenderEnabled(y, a);
    hide Inv, Enabled, Step, ValidUpdates, Commits, Current;
    if Drained(y) {
      IdleIsUnlocked(y);
      TableIsCurrent(y);
      CurrentIs(y);
    }
  }

  /** What is being rendered was asked for, unless it is rendered directly. */
  lemma RenderEnabled(y: Sys, a: Action)
    requires Enabled(y, a)
    ensures a == Render ==> y.worker == Starting
    ensures a == Finish ==> y.worker == Rendered
    ensures a == Start ==> y.worker == Holding
  {
  }

  lemma QuietShowing(y: Sys, a: Action)
    requires Showing(y) && Enabled(y, a) && Quiet(a)
    ensures Showing(Step(y, a))
  {
    assert Inv(y);
    hide Inv, Enabled, Step, Showing;
    StepKeepsInv(y, a);
    match a
    case FromServices(_) => PopServiceShowing(y);
    case FromEndpoints(_) => PopEndpointsShowing(y);
    case SampleService => SampleShowing(y, a);
    case SampleEndpoints => SampleShowing(y, a);
    case ApplyService => ApplyShowing(y, a);
    case ApplyEndpoints => ApplyShowing(y, a);
    case _ => WorkShowing(y, a);
  }

  lemma {:induction false} RunShowing(y: Sys, run: seq<Action>, y': Sys)
    requires Showing(y) && Reaches(y, run, y') && forall a | a in run :: Quiet(a)
    ensures Showing(y')
    decreases |run|
  {
    hide Showing, Inv, Step, Enabled, Quiet;
    if run != [] {
      assert run[0] in run && forall a | a in run[1..] :: a in run;
      QuietShowing(y, run[0]);
      RunShowing(Step(y, run[0]), run[1..], y');
    }
  }

  /** The side's flag can be sampled after an empty list only for a delivery held since before; otherwise it is the
      one from before. */
  predicate FlagOpens<V>(x: Side<V>, items: seq<Item<V>>, sampling: bool) {
    items != [] || x.flag || (x.Holds() && !sampling)
  }

  /** Something is applied after the lists came, and both flags are set then. */
  predicate CanShow(y: Sys, services: seq<Item<Service>>, endpoints: seq<Item<Endpoints>>) {
    && FlagOpens(y.s, services, y.lock == ByService) && FlagOpens(y.e, endpoints, y.lock == ByEndpoints)
    && (services != [] || endpoints != [] || y.s.Holds() || y.e.Holds())
  }

  /** The relist is rendered: from any state of the master, in every run that drains both queues once they were
      replaced, what was applied last being an event whose handler got as far as its commit, the last render
      shows the table as soon as no request is left. */
  lemma RelistIsShown(y: Sys, services: seq<Item<Service>>, endpoints: seq<Item<Endpoints>>, y1: Sys, y2: Sys,
                      run: seq<Action>, y': Sys)
    requires Inv(y) && y.master && CanList(services, endpoints) && CanShow(y, services, endpoints)
    requires Enabled(y, FromServices(D.Replace(services))) && y1 == Step(y, FromServices(D.Replace(services)))
    requires Inv(y1) && Enabled(y1, FromEndpoints(D.Replace(endpoints)))
    requires y2 == Step(y1, FromEndpoints(D.Replace(endpoints)))
    requires Reaches(y2, run, y') && (forall a | a in run :: Quiet(a)) && Drained(y')
    ensures y'.done != [] && (Commits(y'.done[|y'.done| - 1]) && !Asked(y') ==> y'.rendered == y'.table)
  {
    hide Inv, Enabled, Step, Reaches, CanList, Quiet, Relisting, ValidUpdates, Commits, Current;
    var z1, z2 := RelistStep(y, services, endpoints);
    RelistingIs(y2, ListsOf(y, services, endpoints));
    DoneIsValid(y2);
    RunShowing(y2, run, y');
    IdleIsUnlocked(y');
    TableIsCurrent(y');
    CurrentIs(y');
  }

  // Exactly when

  /** How the two sides stood before the lists came. */
  datatype Past = Past(flagS: bool, flagE: bool, asked: bool, rendered: Table)

  /** The flag is from before the list until an event of it has been sampled; then it says that none is left. */
  predicate FlagIs<V>(x: Side<V>, sampling: bool, started: bool, before: bool) {
    x.flag == if started || sampling then x.w.q.queue == [] && (x.Holds() ==> sampling) else before
  }

  /** The updates of one queue all come before those of the other. */
  predicate Precede(us: seq<Update>, service: bool) {
    forall i, j | 0 <= i < j < |us| && us[j].ServiceUpdate? == service :: us[i].ServiceUpdate? == service
  }

  predicate LastServiceCommits(us: seq<Update>) {
    var part := Part(us, true); part != [] && Commits(part[|part| - 1])
  }

  /** One of the updates was let through: the last one, or the last one of its queue while the other queue's flag
      was still set from before. */
  predicate Told(idleS: bool, idleE: bool, us: seq<Update>, past: Past) {
    || (idleS && idleE && us != [] && Commits(us[|us| - 1]))
    || (past.flagS && idleE && Precede(us, false))
    || (past.flagE && idleS && Precede(us, true) && LastServiceCommits(us))
  }

  lemma PrecedeMore(us: seq<Update>, u: Update, service: bool)
    ensures Precede(us + [u], service)
       <==> Precede(us, service) && (u.ServiceUpdate? == service ==> Part(us, !service) == [])
  {
    var all := us + [u];
    assert forall i | 0 <= i < |us| :: all[i] == us[i];
    assert all[|us|] == u;
    NoneOf(us, !service);
    if Precede(all, service) && u.ServiceUpdate? == service {
      forall x | x in us ensures x.ServiceUpdate? == service {
        var i :| 0 <= i < |us| && us[i] == x;
        assert all[i].ServiceUpdate? == service;
      }
    }
    hide Part;
  }

  lemma NoneOf(us: seq<Update>, service: bool)
    ensures Part(us, service) == [] <==> forall x | x in us :: x.ServiceUpdate? != service
  {
    forall x ensures x in Part(us, service) <==> x in us && x.ServiceUpdate? == service {
      PartMembers(us, service, x);
    }
    hide Part;
    if Part(us, service) != [] {
      assert Part(us, service)[0] in Part(us, service);
    }
  }

  lemma ToldMoreEndpoints(us: seq<Update>, u: Update, past: Past, idleS: bool, empty: bool)
    requires u.EndpointsUpdate? && Commits(u) && (idleS ==> Part(us, true) != [])
    ensures Told(idleS, empty, us + [u], past)
       <==> Told(idleS, false, us, past) || (empty && if Part(us, true) != [] then idleS else past.flagS)
  {
    PrecedeMore(us, u, true);
    PrecedeMore(us, u, false);
    PartMore(us, u, true);
    NoneOf(us, true);
    PartsMore(us, u);
    hide Part, Commits;
    assert (us + [u])[|us|] == u;
  }

  lemma ToldMoreServices(us: seq<Update>, u: Update, past: Past, idleE: bool, empty: bool)
    requires u.ServiceUpdate? && (idleE ==> Part(us, false) != [])
    ensures Told(empty, idleE, us + [u], past)
       <==> Told(false, idleE, us, past)
            || (empty && Commits(u) && if Part(us, false) != [] then idleE else past.flagE)
  {
    PrecedeMore(us, u, true);
    PrecedeMore(us, u, false);
    PartMore(us, u, true);
    NoneOf(us, false);
    hide Part, Commits;
    assert (us + [u])[|us|] == u;
  }

  /** A request stands for what was let through; `still` if nothing was rendered since. */
  ghost predicate Requested(y: Sys, told: bool, past: Past, still: bool) {
    && (Asked(y) ==> past.asked || told)
    && (!(past.asked || told) ==> y.rendered == past.rendered)
    && (still ==> (past.asked || told ==> Asked(y)) && y.rendered == past.rendered)
  }

  ghost predicate Flags(y: Sys, us: seq<Update>, past: Past) {
    && FlagIs(y.s, y.lock == ByService, Part(us, true) != [], past.flagS)
    && FlagIs(y.e, y.lock == ByEndpoints, Part(us, false) != [], past.flagE)
  }

  ghost predicate Telling(y: Sys, l: Lists, past: Past, still: bool) {
    && Relisting(y, l) && y.master
    && |Part(l.before, true)| == |l.logS| && |Part(l.before, false)| == |l.logE|
    && l.ss.Keys != {} && l.es.Keys != {}
    && Flags(y, Since(y, l), past)
    && Requested(y, Told(AllDone(y.s), AllDone(y.e), Since(y, l), past), past, still)
  }

  /** The rest of the list is what the flag says. */
  lemma ConsumedIffEmpty<V>(w: D.World<V>)
    requires D.Inv(w) && w.q.queue == D.Pending(w)
    ensures w.q.lastReplaceKey == "" <==> w.q.queue == []
  {
    hide D.KeyInv;
    if w.q.queue != [] {
      assert w.q.queue[|w.q.queue| - 1] in w.q.queue;
    }
  }

  /** How many have been applied, and that a queue that is done has delivered something. */
  lemma SinceCounts(y: Sys, l: Lists)
    requires Relisting(y, l) && |Part(l.before, true)| == |l.logS| && |Part(l.before, false)| == |l.logE|
    requires l.ss.Keys != {} && l.es.Keys != {}
    ensures y.s.applied >= |l.logS| && y.e.applied >= |l.logE|
    ensures AllDone(y.s) ==> Part(Since(y, l), true) != []
    ensures AllDone(y.e) ==> Part(Since(y, l), false) != []
  {
    hide *;
    RelistingIs(y, l);
    HistoryIsLong(y);
    WorldsAreInv(y);
    SinceServices(y, l);
    SinceEndpoints(y, l);
    OfServicesCount(y.s.w.log[|l.logS|..y.s.applied]);
    OfEndpointsCount(y.e.w.log[|l.logE|..y.e.applied]);
    if AllDone(y.s) {
      IdleIs(y.s);
      var k :| k in l.ss;
      ListDelivered(y.s.w, l.ss, |l.logS|, k);
    }
    if AllDone(y.e) {
      IdleIs(y.e);
      var k :| k in l.es;
      ListDelivered(y.e.w, l.es, |l.logE|, k);
    }
  }

  lemma OfServicesCount(log: seq<Delivery<Service>>)
    ensures |OfServices(log)| == |log|
  {
  }

  lemma OfEndpointsCount(log: seq<Delivery<Endpoints>>)
    ensures |OfEndpointsLog(log)| == |log|
  {
  }

  /** What comes from the list of the endpoints commits. */
  lemma NextEndpointsCommits(y: Sys, l: Lists)
    requires Relisting(y, l) && y.e.Holds() && y.e.applied >= |l.logE|
    ensures Commits(NextEndpoints(y))
  {
    RelistingIs(y, l);
    hide Relisting, Inv, Listing, Part;
    var d := y.e.w.log[y.e.applied];
    assert d.event == Modified;
  }

  lemma SinceMore(y: Sys, y': Sys, l: Lists, u: Update)
    requires l.before <= y.done && y'.done == y.done + [u]
    ensures l.before <= y'.done && Since(y', l) == Since(y, l) + [u]
  {
  }

  lemma TellingIs(y: Sys, l: Lists, past: Past, still: bool)
    requires Telling(y, l, past, still)
    ensures Relisting(y, l) && Inv(y) && y.master && l.before <= y.done
    ensures |Part(l.before, true)| == |l.logS| && |Part(l.before, false)| == |l.logE|
    ensures l.ss.Keys != {} && l.es.Keys != {}
    ensures FlagIs(y.s, y.lock == ByService, Part(Since(y, l), true) != [], past.flagS)
    ensures FlagIs(y.e, y.lock == ByEndpoints, Part(Since(y, l), false) != [], past.flagE)
    ensures Requested(y, Told(AllDone(y.s), AllDone(y.e), Since(y, l), past), past, still)
  {
    hide Inv, Part, Listing, Told, AllDone, Requested, FlagIs, Since;
  }

  lemma TellingHolds(y: Sys, l: Lists, past: Past, still: bool)
    requires Relisting(y, l) && y.master && l.before <= y.done
    requires |Part(l.before, true)| == |l.logS| && |Part(l.before, false)| == |l.logE|
    requires l.ss.Keys != {} && l.es.Keys != {}
    requires FlagIs(y.s, y.lock == ByService, Part(Since(y, l), true) != [], past.flagS)
    requires FlagIs(y.e, y.lock == ByEndpoints, Part(Since(y, l), false) != [], past.flagE)
    requires Requested(y, Told(AllDone(y.s), AllDone(y.e), Since(y, l), past), past, still)
    ensures Telling(y, l, past, still)
  {
    hide Relisting, Part, Told, AllDone, Requested, FlagIs, Since;
  }

  lemma RequestedSame(y: Sys, y': Sys, told: bool, past: Past, still: bool)
    requires Requested(y, told, past, still)
    requires y'.queued == y.queued && y'.worker == y.worker && y'.rendered == y.rendered
    ensures Requested(y', told, past, still)
  {
  }

  lemma SameSince(y: Sys, y': Sys, l: Lists)
    requires l.before <= y.done && y'.done == y.done
    ensures Since(y', l) == Since(y, l)
  {
  }

  lemma FlagPop<V>(x: Side<V>, x': Side<V>, started: bool, before: bool)
    requires FlagIs(x, false, started, before) && x.applied >= |x.w.log| && x.w.q.queue != []
    requires x' == x.(w := x'.w) && |x'.w.log| == |x.w.log| + 1 && x.applied == |x.w.log|
    ensures FlagIs(x', false, started, before) && !AllDone(x) && !AllDone(x')
  {
  }

  lemma FlagSample<V>(x: Side<V>, started: bool, before: bool)
    requires D.Inv(x.w) && x.w.q.queue == D.Pending(x.w) && x.applied < |x.w.log|
    ensures FlagIs(x.Sample(), true, started, before) && !AllDone(x) && !AllDone(x.Sample())
  {
    ConsumedIffEmpty(x.w);
    hide D.Inv, D.Pending;
  }

  lemma FlagApply<V>(x: Side<V>, started: bool, before: bool)
    requires FlagIs(x, true, started, before) && |x.w.log| == x.applied + 1
    ensures var x' := x.(applied := x.applied + 1);
            && FlagIs(x', false, true, before) && !AllDone(x) && (AllDone(x') <==> x.w.q.queue == [])
            && x.flag == (x.w.q.queue == [])
  {
  }

  /** The flag of the side that is not sampling. */
  lemma FlagOther<V>(x: Side<V>, started: bool, before: bool)
    requires FlagIs(x, false, started, before)
    ensures x.flag == if started then AllDone(x) else before
  {
  }

  lemma NotIdle<V>(x: Side<V>)
    requires x.Holds()
    ensures !AllDone(x)
  {
  }

  lemma NotHeld<V>(x: Side<V>)
    ensures x.Holds() <==> x.applied < |x.w.log|
  {
  }

  lemma PopServiceTelling(y: Sys, l: Lists, past: Past, still: bool)
    requires Telling(y, l, past, still) && Enabled(y, FromServices(D.Pop)) && Relisting(Step(y, FromServices(D.Pop)), l)
    ensures Telling(Step(y, FromServices(D.Pop)), l, past, still)
  {
    hide *;
    TellingIs(y, l, past, still);
    WorldsAreInv(y);
    HistoryIsLong(y);
    PopServiceStep(y);
    NotHeld(y.s);
    SamplingHolds(y);
    LogGrows(y.s.w, D.Pop);
    var y' := Step(y, FromServices(D.Pop));
    FlagPop(y.s, y'.s, Part(Since(y, l), true) != [], past.flagS);
    SameSince(y, y', l);
    RequestedSame(y, y', Told(AllDone(y.s), AllDone(y.e), Since(y, l), past), past, still);
    TellingHolds(y', l, past, still);
  }

  lemma PopEndpointsTelling(y: Sys, l: Lists, past: Past, still: bool)
    requires Telling(y, l, past, still) && Enabled(y, FromEndpoints(D.Pop))
    requires Relisting(Step(y, FromEndpoints(D.Pop)), l)
    ensures Telling(Step(y, FromEndpoints(D.Pop)), l, past, still)
  {
    hide *;
    TellingIs(y, l, past, still);
    WorldsAreInv(y);
    HistoryIsLong(y);
    PopEndpointsStep(y);
    NotHeld(y.e);
    SamplingHolds(y);
    LogGrows(y.e.w, D.Pop);
    var y' := Step(y, FromEndpoints(D.Pop));
    FlagPop(y.e, y'.e, Part(Since(y, l), false) != [], past.flagE);
    SameSince(y, y', l);
    RequestedSame(y, y', Told(AllDone(y.s), AllDone(y.e), Since(y, l), past), past, still);
    TellingHolds(y', l, past, still);
  }

  lemma ListingQueue<V>(w: D.World<V>, m: map<Key, V>, from: nat)
    requires Listing(w, m, from)
    ensures w.q.queue == D.Pending(w)
  {
    hide D.Pending, Queued, Delivered, Popping;
  }

  lemma SampleServiceTelling(y: Sys, l: Lists, past: Past, still: bool)
    requires Telling(y, l, past, still) && Enabled(y, SampleService) && Relisting(Step(y, SampleService), l)
    ensures Telling(Step(y, SampleService), l, past, still)
  {
    SampleEnabled(y, SampleService);
    hide *;
    TellingIs(y, l, past, still);
    RelistingIs(y, l);
    WorldsAreInv(y);
    NotHeld(y.s);
    SampleServiceStep(y);
    SampledIs(y.(s := y.s.Sample(), lock := ByService));
    ListingQueue(y.s.w, l.ss, |l.logS|);
    FlagSample(y.s, Part(Since(y, l), true) != [], past.flagS);
    var y' := Step(y, SampleService);
    SameSince(y, y', l);
    RequestedSame(y, y', Told(AllDone(y.s), AllDone(y.e), Since(y, l), past), past, still);
    TellingHolds(y', l, past, still);
  }

  lemma SampleEndpointsTelling(y: Sys, l: Lists, past: Past, still: bool)
    requires Telling(y, l, past, still) && Enabled(y, SampleEndpoints) && Relisting(Step(y, SampleEndpoints), l)
    ensures Telling(Step(y, SampleEndpoints), l, past, still)
  {
    SampleEnabled(y, SampleEndpoints);
    hide *;
    TellingIs(y, l, past, still);
    RelistingIs(y, l);
    WorldsAreInv(y);
    NotHeld(y.e);
    SampleEndpointsStep(y);
    SampledIs(y.(e := y.e.Sample(), lock := ByEndpoints));
    ListingQueue(y.e.w, l.es, |l.logE|);
    FlagSample(y.e, Part(Since(y, l), false) != [], past.flagE);
    var y' := Step(y, SampleEndpoints);
    SameSince(y, y', l);
    RequestedSame(y, y', Told(AllDone(y.s), AllDone(y.e), Since(y, l), past), past, still);
    TellingHolds(y', l, past, still);
  }

  /** A request is put exactly if the update is let through. */
  lemma RequestedMore(y: Sys, y': Sys, told: bool, asks: bool, past: Past, still: bool)
    requires Requested(y, told, past, still)
    requires y'.queued == (y.queued || asks) && y'.worker == y.worker && y'.rendered == y.rendered
    ensures Requested(y', told || asks, past, still)
  {
  }

  lemma ApplyServiceFlags(y: Sys, l: Lists, past: Past, still: bool)
    requires Telling(y, l, past, still) && Enabled(y, ApplyService)
    ensures Inv(y) && l.before <= y.done && y.s.Holds()
    ensures var y', u, us := Step(y, ApplyService), NextService(y), Since(y, l);
            && y'.lock == Unlocked && y'.master && y'.done == y.done + [u] && y'.e == y.e
            && FlagIs(y'.s, false, true, past.flagS) && FlagIs(y'.e, false, Part(us, false) != [], past.flagE)
            && (AllDone(y'.s) <==> y.s.w.q.queue == [])
            && y'.worker == y.worker && y'.rendered == y.rendered
            && y'.queued == (y.queued || (Commits(u) && y.s.w.q.queue == []
                                          && if Part(us, false) != [] then AllDone(y.e) else past.flagE))
  {
    ApplyServiceEnabled(y);
    hide *;
    TellingIs(y, l, past, still);
    HistoryIsLong(y);
    NotHeld(y.s);
    SamplingHolds(y);
    ApplyServiceStep(y);
    AppliedIs(y, NextService(y));
    FlagApply(y.s, Part(Since(y, l), true) != [], past.flagS);
    FlagOther(y.e, Part(Since(y, l), false) != [], past.flagE);
  }

  lemma ApplyServiceEnabled(y: Sys)
    requires Enabled(y, ApplyService)
    ensures y.lock == ByService && y.s.Holds()
  {
  }

  lemma ApplyServiceTelling(y: Sys, l: Lists, past: Past, still: bool)
    requires Telling(y, l, past, still) && Enabled(y, ApplyService) && Relisting(Step(y, ApplyService), l)
    ensures Telling(Step(y, ApplyService), l, past, still)
  {
    hide *;
    ApplyServiceFlags(y, l, past, still);
    TellingIs(y, l, past, still);
    SinceCounts(y, l);
    NextIsService(y);
    var y', u, us, empty := Step(y, ApplyService), NextService(y), Since(y, l), y.s.w.q.queue == [];
    var asks := Commits(u) && empty && if Part(us, false) != [] then AllDone(y.e) else past.flagE;
    ToldMoreServices(us, u, past, AllDone(y.e), empty);
    NotIdle(y.s);
    RequestedMore(y, y', Told(false, AllDone(y.e), us, past), asks, past, still);
    SinceMore(y, y', l, u);
    PartsMore(us, u);
    TellingHolds(y', l, past, still);
  }

  lemma PartsMore(us: seq<Update>, u: Update)
    ensures Part(us + [u], u.ServiceUpdate?) != []
    ensures Part(us + [u], !u.ServiceUpdate?) == Part(us, !u.ServiceUpdate?)
  {
    PartMore(us, u, true);
    PartMore(us, u, false);
    hide Part;
  }

  lemma NextIsService(y: Sys)
    requires y.s.Holds()
    ensures NextService(y).ServiceUpdate?
  {
  }

  lemma NextIsEndpoints(y: Sys)
    requires y.e.Holds()
    ensures NextEndpoints(y).EndpointsUpdate?
  {
  }

  lemma ApplyEndpointsFlags(y: Sys, l: Lists, past: Past, still: bool)
    requires Telling(y, l, past, still) && Enabled(y, ApplyEndpoints)
    ensures Inv(y) && l.before <= y.done && y.e.Holds()
    ensures var y', u, us := Step(y, ApplyEndpoints), NextEndpoints(y), Since(y, l);
            && y'.lock == Unlocked && y'.master && y'.done == y.done + [u] && y'.s == y.s
            && FlagIs(y'.e, false, true, past.flagE) && FlagIs(y'.s, false, Part(us, true) != [], past.flagS)
            && (AllDone(y'.e) <==> y.e.w.q.queue == [])
            && y'.worker == y.worker && y'.rendered == y.rendered
            && y'.queued == (y.queued || (Commits(u) && y.e.w.q.queue == []
                                          && if Part(us, true) != [] then AllDone(y.s) else past.flagS))
  {
    ApplyEndpointsEnabled(y);
    hide *;
    TellingIs(y, l, past, still);
    HistoryIsLong(y);
    NotHeld(y.e);
    SamplingHolds(y);
    ApplyEndpointsStep(y);
    AppliedIs(y, NextEndpoints(y));
    FlagApply(y.e, Part(Since(y, l), false) != [], past.flagE);
    FlagOther(y.s, Part(Since(y, l), true) != [], past.flagS);
  }

  lemma ApplyEndpointsEnabled(y: Sys)
    requires Enabled(y, ApplyEndpoints)
    ensures y.lock == ByEndpoints && y.e.Holds()
  {
  }

  lemma ApplyEndpointsTelling(y: Sys, l: Lists, past: Past, still: bool)
    requires Telling(y, l, past, still) && Enabled(y, ApplyEndpoints) && Relisting(Step(y, ApplyEndpoints), l)
    ensures Telling(Step(y, ApplyEndpoints), l, past, still)
  {
    hide *;
    ApplyEndpointsFlags(y, l, past, still);
    TellingIs(y, l, past, still);
    SinceCounts(y, l);
    NextIsEndpoints(y);
    NextEndpointsCommits(y, l);
    var y', u, us, empty := Step(y, ApplyEndpoints), NextEndpoints(y), Since(y, l), y.e.w.q.queue == [];
    var asks := Commits(u) && empty && if Part(us, true) != [] then AllDone(y.s) else past.flagS;
    ToldMoreEndpoints(us, u, past, AllDone(y.s), empty);
    NotIdle(y.e);
    RequestedMore(y, y', Told(AllDone(y.s), false, us, past), asks, past, still);
    SinceMore(y, y', l, u);
    PartsMore(us, u);
    TellingHolds(y', l, past, still);
  }

  lemma WorkRequested(y: Sys, a: Action, told: bool, past: Past, still: bool)
    requires Requested(y, told, past, still) && Enabled(y, a) && Quiet(a) && !OfQueues(a) && a != RenderDirectly
    requires still ==> a != Render
    ensures Requested(Worked(y, a), told, past, still) && Worked(y, a).master == (y.master || a == BecomeMaster)
  {
    RenderEnabled(y, a);
    hide Enabled;
  }

  lemma WorkTelling(y: Sys, a: Action, l: Lists, past: Past, still: bool)
    requires Telling(y, l, past, still) && Enabled(y, a) && Quiet(a) && !OfQueues(a) && a != RenderDirectly
    requires (still ==> a != Render) && Relisting(Step(y, a), l)
    ensures Telling(Step(y, a), l, past, still)
  {
    hide *;
    TellingIs(y, l, past, still);
    WorkedIs(y, a);
    var y' := Step(y, a);
    SameSince(y, y', l);
    WorkRequested(y, a, Told(AllDone(y.s), AllDone(y.e), Since(y, l), past), past, still);
    TellingHolds(y', l, past, still);
  }

  /** Quiet, and without renders that nobody asked for; `still` if without any. */
  predicate Plain(a: Action, still: bool) {
    Quiet(a) && a != RenderDirectly && (still ==> a != Render)
  }

  lemma PlainIs(a: Action, still: bool)
    requires Plain(a, still)
    ensures Silent(a) && Quiet(a) && a != RenderDirectly && (still ==> a != Render)
  {
  }

  lemma PlainStep(y: Sys, a: Action, l: Lists, past: Past, still: bool)
    requires Telling(y, l, past, still) && Enabled(y, a) && Plain(a, still)
    ensures Inv(y) && Telling(Step(y, a), l, past, still)
  {
    hide *;
    PlainIs(a, still);
    ActionIs(a);
    TellingIs(y, l, past, still);
    SilentStep(y, a, l);
    match a
    case FromServices(_) => PopServiceTelling(y, l, past, still);
    case FromEndpoints(_) => PopEndpointsTelling(y, l, past, still);
    case SampleService => SampleServiceTelling(y, l, past, still);
    case SampleEndpoints => SampleEndpointsTelling(y, l, past, still);
    case ApplyService => ApplyServiceTelling(y, l, past, still);
    case ApplyEndpoints => ApplyEndpointsTelling(y, l, past, still);
    case _ => WorkTelling(y, a, l, past, still);
  }

  lemma {:induction false} PlainRun(y: Sys, run: seq<Action>, y': Sys, l: Lists, past: Past, still: bool)
    requires Telling(y, l, past, still) && Reaches(y, run, y') && forall a | a in run :: Plain(a, still)
    ensures Telling(y', l, past, still)
    decreases |run|
  {
    hide Telling, Inv, Step, Enabled, Plain;
    if run != [] {
      assert run[0] in run && forall a | a in run[1..] :: a in run;
      PlainStep(y, run[0], l, past, still);
      PlainRun(Step(y, run[0]), run[1..], y', l, past, still);
    }
  }

  /** Whether a relist is told of: what was applied last got as far as its commit, or all endpoints came first
      while the services' flag was still set from the list before. */
  predicate ToldOf(us: seq<Update>, flagS: bool) {
    us != [] && (Commits(us[|us| - 1]) || (flagS && Precede(us, false)))
  }

  lemma EndpointsCommit(y: Sys, l: Lists, u: Update)
    requires Relisting(y, l) && |Part(l.before, false)| == |l.logE| && u in Since(y, l) && u.EndpointsUpdate?
    ensures Commits(u)
  {
    hide *;
    RelistingIs(y, l);
    SinceEndpoints(y, l);
    PartMembers(Since(y, l), false, u);
    ListedCommits(y.e.w.log, l.es, |l.logE|, y.e.applied, u);
  }

  lemma ListedCommits(log: seq<Delivery<Endpoints>>, es: EndpointsMap, from: nat, to: nat, u: Update)
    requires from <= to <= |log| && Delivered(log, es, from) && u in OfEndpointsLog(log[from..to])
    ensures Commits(u)
  {
    var part := OfEndpointsLog(log[from..to]);
    var q :| 0 <= q < |part| && part[q] == u;
    assert u == OfEndpointsDelivery(log[from + q]) && log[from + q].event == Modified;
  }

  lemma DrainedTold(y: Sys, l: Lists, past: Past, still: bool)
    requires Telling(y, l, past, still) && Drained(y)
    ensures l.before <= y.done && Since(y, l) != []
    ensures Told(AllDone(y.s), AllDone(y.e), Since(y, l), past) <==> ToldOf(Since(y, l), past.flagS)
  {
    hide *;
    TellingIs(y, l, past, still);
    DrainedIs(y);
    SinceCounts(y, l);
    var us := Since(y, l);
    NoneOf(us, false);
    if Precede(us, true) {
      LastIsEndpoints(us);
      EndpointsCommit(y, l, us[|us| - 1]);
    }
    ToldAllDone(us, past);
  }

  lemma ToldAllDone(us: seq<Update>, past: Past)
    requires us != [] && (Precede(us, true) ==> Commits(us[|us| - 1]))
    ensures Told(true, true, us, past) <==> ToldOf(us, past.flagS)
  {
    hide Precede, Commits, LastServiceCommits;
  }

  lemma LastIsEndpoints(us: seq<Update>)
    requires us != [] && Precede(us, true) && exists x :: x in us && x.EndpointsUpdate?
    ensures us[|us| - 1].EndpointsUpdate? && us[|us| - 1] in us
  {
    var x :| x in us && x.EndpointsUpdate?;
    var i :| 0 <= i < |us| && us[i] == x;
  }

  lemma TellingStarts(y: Sys, y2: Sys, services: seq<Item<Service>>, endpoints: seq<Item<Endpoints>>, still: bool)
    requires Inv(y) && y.master && y.lock == Unlocked && !y.s.Holds() && !y.e.Holds()
    requires services != [] && endpoints != [] && y2.s.w.q.queue != [] && y2.e.w.q.queue != []
    requires Relisting(y2, ListsOf(y, services, endpoints))
    requires y2 == y.(s := y.s.(w := y2.s.w), e := y.e.(w := y2.e.w))
    requires y2.s.w.log == y.s.w.log && y2.e.w.log == y.e.w.log
    ensures Telling(y2, ListsOf(y, services, endpoints), Past(y.s.flag, y.e.flag, Asked(y), y.rendered), still)
  {
    var l, past := ListsOf(y, services, endpoints), Past(y.s.flag, y.e.flag, Asked(y), y.rendered);
    ListsStart(y, y2, services, endpoints);
    RequestedStarts(y, y2, past, still);
    hide *;
    HistoryIsLong(y);
    FlagStarts(y.s, y2.s);
    FlagStarts(y.e, y2.e);
    NotTold(past);
    TellingHolds(y2, l, past, still);
  }

  lemma ListsStart(y: Sys, y2: Sys, services: seq<Item<Service>>, endpoints: seq<Item<Endpoints>>)
    requires Inv(y) && !y.s.Holds() && !y.e.Holds() && services != [] && endpoints != [] && y2.done == y.done
    ensures var l := ListsOf(y, services, endpoints);
            && l.ss.Keys != {} && l.es.Keys != {} && l.before == y.done && Since(y2, l) == []
            && |Part(l.before, true)| == |l.logS| && |Part(l.before, false)| == |l.logE|
    ensures Part([], true) == [] && Part([], false) == []
  {
    HistoryIsLong(y);
    D.StoreOfItems(services);
    D.StoreOfItems(endpoints);
    hide Inv, StoreOf;
    assert Keys(services)[0] in StoreOf(services) && Keys(endpoints)[0] in StoreOf(endpoints);
  }

  lemma RequestedStarts(y: Sys, y2: Sys, past: Past, still: bool)
    requires past.asked == Asked(y) && past.rendered == y.rendered
    requires y2.queued == y.queued && y2.worker == y.worker && y2.rendered == y.rendered
    ensures Requested(y2, false, past, still)
  {
  }

  lemma FlagStarts<V>(x: Side<V>, x2: Side<V>)
    requires x2 == x.(w := x2.w) && x2.w.q.queue != []
    ensures FlagIs(x2, false, false, x.flag) && !AllDone(x2)
  {
  }

  lemma NotTold(past: Past)
    ensures !Told(false, false, [], past)
  {
    hide Commits;
  }

  /** Exactly when a relist is shown: from a state of the master between events, in every run that drains both
      queues without a render in between, the table is rendered or asked for exactly if it was before, or the
      relist is told of.  Even with renders in between, a relist that is not told of is not shown. */
  lemma RelistShownExactly(y: Sys, services: seq<Item<Service>>, endpoints: seq<Item<Endpoints>>, y1: Sys, y2: Sys,
                           run: seq<Action>, y': Sys, still: bool)
    requires Inv(y) && y.master && y.lock == Unlocked && !y.s.Holds() && !y.e.Holds()
    requires CanList(services, endpoints) && services != [] && endpoints != []
    requires Enabled(y, FromServices(D.Replace(services))) && y1 == Step(y, FromServices(D.Replace(services)))
    requires Inv(y1) && Enabled(y1, FromEndpoints(D.Replace(endpoints)))
    requires y2 == Step(y1, FromEndpoints(D.Replace(endpoints)))
    requires Reaches(y2, run, y') && (forall a | a in run :: Plain(a, still)) && Drained(y')
    ensures y.done <= y'.done && y'.lock == Unlocked
    ensures var us := y'.done[|y.done|..];
            && (still ==> (Asked(y') || y'.rendered == y'.table
                           <==> Asked(y) || ToldOf(us, y.s.flag) || y'.table == y.rendered))
            && (!Asked(y) && !ToldOf(us, y.s.flag) ==> !Asked(y') && y'.rendered == y.rendered)
  {
    var l, past := ListsOf(y, services, endpoints), Past(y.s.flag, y.e.flag, Asked(y), y.rendered);
    var z1, z2 := RelistStep(y, services, endpoints);
    TellingStarts(y, y2, services, endpoints, still);
    PlainRun(y2, run, y', l, past, still);
    DrainedTold(y', l, past, still);
    assert Inv(y') && Since(y', l) == y'.done[|y.done|..];
    hide Inv, Reaches, Step, Enabled, CanList, Relisting, Plain, Told, ToldOf, StoreOf, Flags, Part, Drained, Asked;
    IdleIsUnlocked(y');
  }

  // Two runs

  lemma PopServiceReaches(y0: Sys, run: seq<Action>, y: Sys) returns (y': Sys)
    requires Reaches(y0, run, y) && Inv(y) && y.s.w.q.queue != [] && y.s.applied == |y.s.w.log|
    ensures Reaches(y0, run + [FromServices(D.Pop)], y') && Inv(y')
    ensures y' == y.(s := y.s.(w := D.Step(y.s.w, D.Pop)))
  {
    PopEnabled(y);
    hide *;
    ReachesMore(y0, run, y, FromServices(D.Pop));
    PopServiceStep(y);
    y' := Step(y, FromServices(D.Pop));
  }

  lemma PopEndpointsReaches(y0: Sys, run: seq<Action>, y: Sys) returns (y': Sys)
    requires Reaches(y0, run, y) && Inv(y) && y.e.w.q.queue != [] && y.e.applied == |y.e.w.log|
    ensures Reaches(y0, run + [FromEndpoints(D.Pop)], y') && Inv(y')
    ensures y' == y.(e := y.e.(w := D.Step(y.e.w, D.Pop)))
  {
    PopEnabled(y);
    hide *;
    ReachesMore(y0, run, y, FromEndpoints(D.Pop));
    PopEndpointsStep(y);
    y' := Step(y, FromEndpoints(D.Pop));
  }

  lemma PopEnabled(y: Sys)
    ensures y.s.w.q.queue != [] && y.s.applied == |y.s.w.log| ==> Enabled(y, FromServices(D.Pop))
    ensures y.e.w.q.queue != [] && y.e.applied == |y.e.w.log| ==> Enabled(y, FromEndpoints(D.Pop))
  {
  }

  function Modification<V>(i: Item<V>): Delivery<V> {
    Delivery(Modified, i.key, i.obj)
  }

  /** A list of one is delivered. */
  lemma OneListed<V>(w: D.World<V>, a: Item<V>)
    requires a.key != ""
    ensures var w1 := D.Step(w, D.Replace([a]));
            var w2 := D.Step(w1, D.Pop);
            && w1.log == w.log && w1.q.queue == [a.key]
            && w2.log == w.log + [Modification(a)] && w2.q.queue == [] && w2.q.lastReplaceKey == ""
  {
    assert [a][..0] == [] && StoreOf([a])[a.key] == a.obj;
    assert Keys([a]) == [a.key];
    hide StoreOf, D.Apply;
  }

  /** A list of two, one by one. */
  lemma TwoListed<V>(w: D.World<V>, a: Item<V>, b: Item<V>)
    requires a.key != "" && b.key != "" && a.key != b.key
    ensures var w1 := D.Step(w, D.Replace([a, b]));
            var w2 := D.Step(w1, D.Pop);
            var w3 := D.Step(w2, D.Pop);
            && w1.log == w.log && w1.q.queue == [a.key, b.key]
            && w2.log == w.log + [Modification(a)] && w2.q.queue == [b.key] && w2.q.lastReplaceKey == b.key
            && w3.log == w2.log + [Modification(b)] && w3.q.queue == [] && w3.q.lastReplaceKey == ""
  {
    var w1 := D.Step(w, D.Replace([a, b]));
    TwoStored(w, a, b);
    hide StoreOf, AfterReplace, D.Apply;
    assert w1.q.queue == [a.key, b.key];
  }

  lemma TwoStored<V>(w: D.World<V>, a: Item<V>, b: Item<V>)
    requires a.key != b.key
    ensures var w1 := D.Step(w, D.Replace([a, b]));
            && w1.log == w.log && w1.q.queue == [a.key, b.key] && w1.q.lastReplaceKey == b.key
            && w1.q.events == map[a.key := Modified, b.key := Modified]
            && w1.q.store == map[a.key := a.obj, b.key := b.obj]
  {
    assert [a, b][..1] == [a] && [a][..0] == [];
    assert StoreOf([a]) == map[a.key := a.obj];
    assert Keys([a, b]) == [a.key, b.key];
  }

  const DB := Service("default", "db", "None", [ServicePort("sql", 5432, "TCP")])
  const WEB_ITEM := Item(WEB_KEY, WEB)
  const DB_ITEM := Item("default/db", DB)
  const PODS_ITEM := Item(WEB_KEY, PODS)

  lemma ExampleLists()
    ensures CanList([WEB_ITEM, DB_ITEM], [PODS_ITEM]) && CanList([WEB_ITEM], [PODS_ITEM])
    ensures !Commits(ServiceUpdate(Modified, DB)) && ValidUpdate(ServiceUpdate(Modified, DB))
    ensures !Commits(ServiceUpdate(Modified, DB_ITEM.obj))
    ensures WEB_ITEM.key != "" && DB_ITEM.key != "" && WEB_ITEM.key != DB_ITEM.key && PODS_ITEM.key != ""
  {
    ExampleIsValid();
    WebIsValid();
    assert ValidUpdate(STRAIGHT[0]);
    assert NoColon("default") && NoColon("db") && NoColon("sql");
    assert |WEB_KEY| == 11;
    assert Keys([WEB_ITEM, DB_ITEM]) == [WEB_ITEM.key, DB_ITEM.key] && Keys([PODS_ITEM]) == [PODS_ITEM.key];
    assert Keys([WEB_ITEM]) == [WEB_ITEM.key];
  }

  lemma NextEndpointsIs(y: Sys, d: Delivery<Endpoints>)
    requires y.e.applied + 1 == |y.e.w.log| && y.e.w.log[y.e.applied] == d
    ensures y.e.Holds() && NextEndpoints(y) == OfEndpointsDelivery(d)
  {
  }

  /** One service is popped and delivered. */
  lemma ServiceTurn(y0: Sys, run: seq<Action>, y: Sys, d: Delivery<Service>) returns (run': seq<Action>, y': Sys)
    requires Reaches(y0, run, y) && Inv(y) && y.lock == Unlocked && y.s.w.q.queue != []
    requires y.s.applied == |y.s.w.log| && D.Step(y.s.w, D.Pop).log == y.s.w.log + [d]
    ensures run' == run + [FromServices(D.Pop)] + [SampleService] + [ApplyService]
    ensures Reaches(y0, run', y') && Inv(y') && y'.lock == Unlocked
    ensures y'.s.w == D.Step(y.s.w, D.Pop) && y'.s.applied == |y'.s.w.log| && y'.e == y.e && y'.master == y.master
    ensures y'.s.flag == (y'.s.w.q.lastReplaceKey == "")
    ensures y'.done == y.done + [OfServiceDelivery(d)] && y'.rendered == y.rendered && y'.worker == y.worker
    ensures y'.queued == (y.queued || (Commits(OfServiceDelivery(d)) && y.master && y'.s.flag && y.e.flag))
  {
    hide *;
    var y1 := PopServiceReaches(y0, run, y);
    HeldService(y1, d);
    run', y' := DeliverService(y0, run + [FromServices(D.Pop)], y1);
  }

  lemma HeldService(y: Sys, d: Delivery<Service>)
    requires y.s.applied + 1 == |y.s.w.log| && y.s.w.log[y.s.applied] == d
    ensures y.s.Holds() && NextService(y) == OfServiceDelivery(d)
  {
  }

  lemma EndpointsTurn(y0: Sys, run: seq<Action>, y: Sys, d: Delivery<Endpoints>) returns (run': seq<Action>, y': Sys)
    requires Reaches(y0, run, y) && Inv(y) && y.lock == Unlocked && y.e.w.q.queue != []
    requires y.e.applied == |y.e.w.log| && D.Step(y.e.w, D.Pop).log == y.e.w.log + [d]
    ensures run' == run + [FromEndpoints(D.Pop)] + [SampleEndpoints] + [ApplyEndpoints]
    ensures Reaches(y0, run', y') && Inv(y') && y'.lock == Unlocked
    ensures y'.e.w == D.Step(y.e.w, D.Pop) && y'.e.applied == |y'.e.w.log| && y'.s == y.s && y'.master == y.master
    ensures y'.e.flag == (y'.e.w.q.lastReplaceKey == "")
    ensures y'.done == y.done + [OfEndpointsDelivery(d)] && y'.rendered == y.rendered && y'.worker == y.worker
    ensures y'.queued == (y.queued || (Commits(OfEndpointsDelivery(d)) && y.master && y'.e.flag && y.s.flag))
  {
    hide *;
    var y1 := PopEndpointsReaches(y0, run, y);
    NextEndpointsIs(y1, d);
    run', y' := DeliverEndpoints(y0, run + [FromEndpoints(D.Pop)], y1);
  }

  lemma ReachesSelf(y: Sys)
    ensures Reaches(y, [], y)
  {
  }

  lemma ModificationIs(a: Item<Service>, c: Item<Endpoints>)
    ensures OfServiceDelivery(Modification(a)) == ServiceUpdate(Modified, a.obj)
    ensures OfEndpointsDelivery(Modification(c)) == EndpointsUpdate(Modified, c.obj)
  {
  }

  lemma FinishedRun(y: Sys)
    requires !y.queued && y.worker == Idle && y.s.w.q.queue == [] && y.s.applied == |y.s.w.log|
    requires y.e.w.q.queue == [] && y.e.applied == |y.e.w.log|
    ensures !Asked(y) && Drained(y)
  {
  }

  /** Two services were listed, the latter without an IP, and endpoints: these come first. */
  lemma HeadlessComesLast(y2: Sys, w: D.World<Service>, v: D.World<Endpoints>, a: Item<Service>, b: Item<Service>,
                          c: Item<Endpoints>) returns (run: seq<Action>, y': Sys)
    requires Inv(y2) && y2.lock == Unlocked && !y2.queued && y2.worker == Idle
    requires !y2.s.flag && y2.s.applied == |w.log| && y2.s.w == D.Step(w, D.Replace([a, b]))
    requires !y2.e.flag && y2.e.applied == |v.log| && y2.e.w == D.Step(v, D.Replace([c]))
    requires a.key != "" && b.key != "" && a.key != b.key && c.key != ""
    requires !Commits(ServiceUpdate(Modified, b.obj))
    ensures Reaches(y2, run, y') && Inv(y') && y'.lock == Unlocked && (forall a | a in run :: Quiet(a)) && Drained(y')
    ensures y'.s.flag && y'.e.flag && !Asked(y') && y'.rendered == y2.rendered
    ensures y'.done == y2.done + [EndpointsUpdate(Modified, c.obj)] + [ServiceUpdate(Modified, a.obj)]
                       + [ServiceUpdate(Modified, b.obj)]
  {
    hide *;
    TwoListed(w, a, b);
    OneListed(v, c);
    ReachesSelf(y2);
    ModificationIs(a, c);
    ModificationIs(b, c);
    var run3, y3 := EndpointsTurn(y2, [], y2, Modification(c));
    var run4, y4 := ServiceTurn(y2, run3, y3, Modification(a));
    run, y' := ServiceTurn(y2, run4, y4, Modification(b));
    AllQuiet(run);
    FinishedRun(y');
  }

  lemma AllQuiet(run: seq<Action>)
    requires run == [] + [FromEndpoints(D.Pop)] + [SampleEndpoints] + [ApplyEndpoints]
                    + [FromServices(D.Pop)] + [SampleService] + [ApplyService]
                    + [FromServices(D.Pop)] + [SampleService] + [ApplyService]
    ensures forall a | a in run :: Quiet(a)
  {
  }

  /** What the table came to. */
  lemma HeadlessTable(us: seq<Update>)
    requires us == STRAIGHT + [ServiceUpdate(Modified, DB)]
    ensures ValidUpdates(us) && ApplyAll(map[], us) != map[]
  {
    ExampleLists();
    TableDependsOnThePast();
    DoneMore(STRAIGHT, ServiceUpdate(Modified, DB));
    UncommittedIsSame(ApplyAll(map[], STRAIGHT), ServiceUpdate(Modified, DB));
    hide Commits, ApplyAll, Apply, ValidUpdates, KeyAt;
    assert KeyAt(WEB, 0) in ApplyAll(map[], STRAIGHT);
  }

  lemma StartsAsMaster() returns (y: Sys)
    ensures y == Initial().(master := true) && Inv(y) && Reaches(Initial(), [BecomeMaster], y)
  {
    InitialInv();
    hide Inv, Reaches, Enabled, Step;
    ReachesSelf(Initial());
    MasterStep(Initial());
    ReachesMore(Initial(), [], Initial(), BecomeMaster);
    y := Step(Initial(), BecomeMaster);
    assert [] + [BecomeMaster] == [BecomeMaster];
  }

  /** Both queues are replaced while nothing is going on. */
  lemma HeadlessRelist(y: Sys, a: Item<Service>, b: Item<Service>, c: Item<Endpoints>)
      returns (y1: Sys, y2: Sys, run: seq<Action>, y': Sys)
    requires Inv(y) && y.lock == Unlocked && !y.queued && y.worker == Idle && !y.s.flag && !y.e.flag
    requires y.s.applied == |y.s.w.log| && y.e.applied == |y.e.w.log|
    requires CanList([a, b], [c]) && !Commits(ServiceUpdate(Modified, b.obj))
    requires a.key != "" && b.key != "" && a.key != b.key && c.key != ""
    ensures Enabled(y, FromServices(D.Replace([a, b]))) && y1 == Step(y, FromServices(D.Replace([a, b])))
    ensures Inv(y1) && Enabled(y1, FromEndpoints(D.Replace([c]))) && y2 == Step(y1, FromEndpoints(D.Replace([c])))
    ensures Reaches(y2, run, y') && Inv(y') && y'.lock == Unlocked && (forall a | a in run :: Quiet(a)) && Drained(y')
    ensures y'.s.flag && y'.e.flag && !Asked(y') && y'.rendered == y.rendered
    ensures y'.done == y.done + [EndpointsUpdate(Modified, c.obj)] + [ServiceUpdate(Modified, a.obj)]
                       + [ServiceUpdate(Modified, b.obj)]
  {
    hide *;
    y1, y2 := RelistStep(y, [a, b], [c]);
    RelistingIs(y2, ListsOf(y, [a, b], [c]));
    run, y' := HeadlessComesLast(y2, y.s.w, y.e.w, a, b, c);
  }

  /** From the start: this becomes MASTER, both queues are replaced, the endpoints come first, and a service without
      an IP comes last.  Both lists are consumed, and the table is neither rendered nor asked for. */
  lemma HeadlessServiceHidesRelist() returns (y: Sys, y1: Sys, y2: Sys, run: seq<Action>, y': Sys)
    ensures Reaches(Initial(), [BecomeMaster], y) && Inv(y) && y.master && CanList([WEB_ITEM, DB_ITEM], [PODS_ITEM])
    ensures Enabled(y, FromServices(D.Replace([WEB_ITEM, DB_ITEM])))
    ensures y1 == Step(y, FromServices(D.Replace([WEB_ITEM, DB_ITEM])))
    ensures Inv(y1) && Enabled(y1, FromEndpoints(D.Replace([PODS_ITEM])))
    ensures y2 == Step(y1, FromEndpoints(D.Replace([PODS_ITEM])))
    ensures Reaches(y2, run, y') && (forall a | a in run :: Quiet(a)) && Drained(y') && y'.lock == Unlocked
    ensures y'.s.flag && y'.e.flag && !Asked(y') && y'.rendered != y'.table
  {
    y := StartsAsMaster();
    ExampleLists();
    InitialIs();
    hide *;
    y1, y2, run, y' := HeadlessRelist(y, WEB_ITEM, DB_ITEM, PODS_ITEM);
    StraightThenDb(y'.done);
    HeadlessTable(y'.done);
    TableIsCurrent(y');
  }

  lemma InitialIs()
    ensures var y := Initial();
            && y.lock == Unlocked && !y.queued && y.worker == Idle && !y.s.flag && !y.e.flag && y.done == []
            && y.s.applied == |y.s.w.log| && y.e.applied == |y.e.w.log| && y.rendered == map[]
  {
  }

  lemma StraightThenDb(us: seq<Update>)
    requires us == [] + [EndpointsUpdate(Modified, PODS_ITEM.obj)] + [ServiceUpdate(Modified, WEB_ITEM.obj)]
                   + [ServiceUpdate(Modified, DB_ITEM.obj)]
    ensures us == STRAIGHT + [ServiceUpdate(Modified, DB)]
  {
    assert STRAIGHT == [EndpointsUpdate(Modified, PODS)] + [ServiceUpdate(Modified, WEB)];
  }

  const GONE_WEB := Delivery(Deleted, WEB_KEY, WEB)

  function AddedWorld(): D.World<Service> {
    D.Step(NewWorld(), D.Add(WEB_KEY, WEB))
  }

  function DeletedWorld(): D.World<Service> {
    D.Step(D.Step(AddedWorld(), D.Pop), D.Delete(WEB_KEY, WEB))
  }

  lemma DeletedWorldIs()
    ensures D.Legal(NewWorld<Service>(), D.Add(WEB_KEY, WEB))
    ensures D.Legal(D.Step(AddedWorld(), D.Pop), D.Delete(WEB_KEY, WEB))
    ensures AddedWorld().q.queue == [WEB_KEY] && AddedWorld().log == []
    ensures D.Step(AddedWorld(), D.Pop).log == [NEW_WEB]
    ensures DeletedWorld().q.queue == [WEB_KEY] && DeletedWorld().log == [NEW_WEB]
    ensures D.Step(DeletedWorld(), D.Pop).log == [NEW_WEB, GONE_WEB]
  {
    WebIsDelivered();
  }

  lemma ProducerStep(y: Sys, x: D.Action<Service>)
    requires Inv(y) && x != D.Pop && D.Legal(y.s.w, x) && ValidAction(FromServices(x))
    ensures var a := FromServices(x);
            Enabled(y, a) && Step(y, a) == y.(s := y.s.(w := D.Step(y.s.w, x)))
  {
    hide Inv, D.Step, D.Legal, ValidAction;
  }

  lemma DeletionFacts(y0: Sys, add: Action, delete: Action)
    requires y0 == Initial()
    requires add == FromServices(D.Add(WEB_KEY, WEB)) && delete == FromServices(D.Delete(WEB_KEY, WEB))
    ensures ValidAction(add) && ValidAction(delete) && y0.s.w == NewWorld() && y0.done == [] && y0.lock == Unlocked
    ensures OfServiceDelivery(NEW_WEB) == ServiceUpdate(Added, WEB) && AddedWorld() == D.Step(NewWorld(), add.a)
    ensures y0.s.applied == 0 && DeletedWorld() == D.Step(D.Step(AddedWorld(), D.Pop), delete.a)
  {
    WebIsValid();
    hide D.Step, ValidService;
  }

  /** What the producer says is delivered. */
  lemma SaidDelivered(y: Sys, x: D.Action<Service>, d: Delivery<Service>) returns (run: seq<Action>, y': Sys)
    requires Inv(y) && y.lock == Unlocked && y.s.applied == |y.s.w.log|
    requires x != D.Pop && D.Legal(y.s.w, x) && ValidAction(FromServices(x))
    requires var w := D.Step(y.s.w, x);
             w.log == y.s.w.log && w.q.queue != [] && D.Step(w, D.Pop).log == w.log + [d]
    ensures Reaches(y, run, y') && Inv(y') && y'.lock == Unlocked && y'.s.applied == |y'.s.w.log|
    ensures y'.s.w == D.Step(D.Step(y.s.w, x), D.Pop) && y'.e == y.e && y'.done == y.done + [OfServiceDelivery(d)]
  {
    hide *;
    ReachesSelf(y);
    ProducerStep(y, x);
    ReachesMore(y, [], y, FromServices(x));
    run, y' := ServiceTurn(y, [] + [FromServices(x)], Step(y, FromServices(x)), d);
  }

  /** The service was added and delivered. */
  lemma AdditionDelivered() returns (run: seq<Action>, y: Sys)
    ensures Reaches(Initial(), run, y) && Inv(y) && y.lock == Unlocked && y.s.applied == 1
    ensures y.s.w == D.Step(AddedWorld(), D.Pop) && y.e == Initial().e && y.done == [ServiceUpdate(Added, WEB)]
  {
    var y0, x := Initial(), D.Add(WEB_KEY, WEB);
    DeletedWorldIs();
    InitialInv();
    DeletionFacts(y0, FromServices(x), FromServices(D.Delete(WEB_KEY, WEB)));
    assert y0.s.w.log == [] && AddedWorld().log + [NEW_WEB] == [NEW_WEB];
    hide *;
    run, y := SaidDelivered(y0, x, NEW_WEB);
    assert y.done == [] + [ServiceUpdate(Added, WEB)];
  }

  /** Then it was deleted, and its deletion popped. */
  lemma DeletionHeld() returns (run: seq<Action>, y: Sys)
    ensures Reaches(Initial(), run, y) && Inv(y) && y.lock == Unlocked && y.s.applied == 1
    ensures y.s.w.log == [NEW_WEB, GONE_WEB] && y.e == Initial().e && y.done == [ServiceUpdate(Added, WEB)]
  {
    var add, delete := FromServices(D.Add(WEB_KEY, WEB)), FromServices(D.Delete(WEB_KEY, WEB));
    var run2, y2 := AdditionDelivered();
    DeletedWorldIs();
    DeletionFacts(Initial(), add, delete);
    hide *;
    ProducerStep(y2, delete.a);
    ReachesMore(Initial(), run2, y2, delete);
    run := run2 + [delete] + [FromServices(D.Pop)];
    y := PopServiceReaches(Initial(), run2 + [delete], Step(y2, delete));
  }

  /** The endpoints come before it, the service after it. */
  lemma DeletionComesBetween(y2: Sys, w: D.World<Service>, v: D.World<Endpoints>, d: Delivery<Service>,
                             a: Item<Service>, c: Item<Endpoints>) returns (run: seq<Action>, y': Sys)
    requires Inv(y2) && y2.lock == Unlocked
    requires y2.s.applied + 1 == |w.log| && w.log[y2.s.applied] == d && y2.s.w == D.Step(w, D.Replace([a]))
    requires y2.e.applied == |v.log| && y2.e.w == D.Step(v, D.Replace([c])) && a.key != "" && c.key != ""
    ensures Reaches(y2, run, y') && Inv(y') && y'.lock == Unlocked && (forall a | a in run :: Silent(a)) && Drained(y')
    ensures y'.done == y2.done + [EndpointsUpdate(Modified, c.obj)] + [OfServiceDelivery(d)]
                       + [ServiceUpdate(Modified, a.obj)]
  {
    hide *;
    OneListed(w, a);
    OneListed(v, c);
    ReachesSelf(y2);
    ModificationIs(a, c);
    var run3, y3 := EndpointsTurn(y2, [], y2, Modification(c));
    HeldService(y3, d);
    var run4, y4 := DeliverService(y2, run3, y3);
    run, y' := ServiceTurn(y2, run4, y4, Modification(a));
    AllSilent(run);
    NothingLeft(y');
  }

  lemma AllSilent(run: seq<Action>)
    requires run == [] + [FromEndpoints(D.Pop)] + [SampleEndpoints] + [ApplyEndpoints] + [SampleService]
                    + [ApplyService] + [FromServices(D.Pop)] + [SampleService] + [ApplyService]
    ensures forall a | a in run :: Silent(a)
  {
  }

  lemma NothingLeft(y: Sys)
    requires y.s.w.q.queue == [] && y.s.applied == |y.s.w.log| && y.e.w.q.queue == [] && y.e.applied == |y.e.w.log|
    ensures Drained(y)
  {
  }

  /** Both queues are replaced while a delivery is held. */
  lemma HeldRelist(y: Sys, d: Delivery<Service>, a: Item<Service>, c: Item<Endpoints>)
      returns (y1: Sys, y2: Sys, run: seq<Action>, y': Sys)
    requires Inv(y) && y.lock == Unlocked && y.s.applied + 1 == |y.s.w.log| && y.s.w.log[y.s.applied] == d
    requires y.e.applied == |y.e.w.log| && CanList([a], [c]) && a.key != "" && c.key != ""
    ensures Enabled(y, FromServices(D.Replace([a]))) && y1 == Step(y, FromServices(D.Replace([a])))
    ensures Inv(y1) && Enabled(y1, FromEndpoints(D.Replace([c]))) && y2 == Step(y1, FromEndpoints(D.Replace([c])))
    ensures Reaches(y2, run, y') && Inv(y') && y'.lock == Unlocked && (forall a | a in run :: Silent(a)) && Drained(y')
    ensures y'.done == y.done + [EndpointsUpdate(Modified, c.obj)] + [OfServiceDelivery(d)]
                       + [ServiceUpdate(Modified, a.obj)]
  {
    hide *;
    y1, y2 := RelistStep(y, [a], [c]);
    RelistingIs(y2, ListsOf(y, [a], [c]));
    run, y' := DeletionComesBetween(y2, y.s.w, y.e.w, d, a, c);
  }

  lemma GoneIs(y: Sys)
    requires y.s.applied == 1 && y.s.w.log == [NEW_WEB, GONE_WEB] && y.e == Initial().e
    ensures y.s.applied + 1 == |y.s.w.log| && y.s.w.log[y.s.applied] == GONE_WEB && y.s.Holds()
    ensures NextService(y) == OfServiceDelivery(GONE_WEB) == ServiceUpdate(Deleted, WEB)
    ensures y.e.applied == |y.e.w.log|
  {
  }

  lemma DeletedIs(us: seq<Update>)
    requires us == [ServiceUpdate(Added, WEB)] + [EndpointsUpdate(Modified, PODS_ITEM.obj)]
                   + [ServiceUpdate(Deleted, WEB)] + [ServiceUpdate(Modified, WEB_ITEM.obj)]
    ensures us == DELETED
  {
  }

  /** From the start: a service's deletion is held by the consumer while both queues are replaced by lists that have
      the service again, and applied after the endpoints.  The port is left without addresses. */
  lemma HeldDeletionEmptiesPort() returns (run0: seq<Action>, y: Sys, y1: Sys, y2: Sys, run: seq<Action>, y': Sys)
    ensures Reaches(Initial(), run0, y) && Inv(y) && y.s.Holds() && NextService(y) == ServiceUpdate(Deleted, WEB)
    ensures CanList([WEB_ITEM], [PODS_ITEM])
    ensures Enabled(y, FromServices(D.Replace([WEB_ITEM]))) && y1 == Step(y, FromServices(D.Replace([WEB_ITEM])))
    ensures Inv(y1) && Enabled(y1, FromEndpoints(D.Replace([PODS_ITEM])))
    ensures y2 == Step(y1, FromEndpoints(D.Replace([PODS_ITEM])))
    ensures Reaches(y2, run, y') && (forall a | a in run :: Silent(a)) && Drained(y')
    ensures var key := KeyAt(WEB, 0);
            key in y'.table && y'.table[key].endpoints == [] && Flatten(PODS.subsets, "http") == [POD]
  {
    run0, y := DeletionHeld();
    ExampleLists();
    GoneIs(y);
    hide *;
    y1, y2, run, y' := HeldRelist(y, GONE_WEB, WEB_ITEM, PODS_ITEM);
    DeletionBetween();
    TableIsCurrent(y');
    DeletedIs(y'.done);
  }
}
