/** From the two event queues to the rendered route table (`proxy/controller/controller.go`,
  `proxy/template/proxier.go`, `util/ratelimiter/ratelimiter.go`), as one machine whose steps interleave.

  A consumer pops under its queue's lock only; it then samples its list flag, and after that applies the
  event, all under the controller's lock.  While an event is applied the route table may be in any state,
  under the proxier's lock, which a render takes too.  The backoff shows here as a request that may go
  back to its slot. */
module Pipeline {
  import opened EventQueue
  import opened RouteTable
  import opened Relist
  import D = EventDelivery

  /** One queue and its consumer.  `applied` of the deliveries in `w.log` have been applied; `flag` is the
      sampled list flag, taken when `sampled` deliveries had been popped, and `drained` whether the latest
      list had been popped by then. */
  datatype Side<V> = Side(w: D.World<V>, applied: nat, flag: bool, sampled: nat, drained: bool) {
    /** The consumer holds a delivery it has not applied. */
    predicate Holds() {
      applied < |w.log|
    }

    function Sample(): Side<V> {
      this.(flag := w.q.lastReplaceKey == "", sampled := |w.log|, drained := w.listed <= w.popped)
    }
  }

  datatype Lock = Unlocked | ByService | ByEndpoints

  datatype Worker = Idle | Holding | Starting | Rendered

  datatype Sys = Sys(
    s: Side<Service>,
    e: Side<Endpoints>,
    lock: Lock,               // the controller's lock
    busy: bool,               // the proxier's lock is held by a handler
    master: bool,
    skipCommit: bool,
    table: Table,
    done: seq<Update>,        // the deliveries applied, in order
    queued: bool,             // the rate limiter's slot
    worker: Worker,
    rendered: Table,
    shown: nat,               // how many deliveries had been applied at the last render
    missed: bool)             // since the last render one failed, or a change was not asked to be rendered

  datatype Action =
    | FromServices(a: D.Action<Service>)
    | FromEndpoints(b: D.Action<Endpoints>)
    | SampleService
    | SampleEndpoints
    | Touch(t: Table)         // somewhere within a handler
    | ApplyService
    | ApplyEndpoints
    | TakeRequest
    | BackOff
    | Start
    | Render
    | FailToRender
    | Finish
    | BecomeMaster            // the master flag is set, after the renders of SetMaster(true)
    | BecomeBackup
    | RenderDirectly          // a render of SetMaster(true)

  /** The table between handlers. */
  function Current(y: Sys): (t: Table)
    requires ValidUpdates(y.done)
    ensures TableInv(t)
  {
    ApplyAll(map[], y.done)
  }

  predicate ValidAction(a: Action) {
    match a
    case FromServices(x) =>
      && (x.Add? || x.Update? || x.Delete? ==> ValidService(x.obj))
      && (x.Replace? ==> forall i | i in x.items :: ValidService(i.obj))
    case FromEndpoints(x) =>
      && (x.Add? || x.Update? || x.Delete? ==> ValidEndpoints(x.obj))
      && (x.Replace? ==> forall i | i in x.items :: ValidEndpoints(i.obj))
    case _ => true
  }

  predicate Enabled(y: Sys, a: Action) {
    && ValidAction(a)
    && match a
       case FromServices(x) => D.Legal(y.s.w, x) && (x == D.Pop ==> !y.s.Holds())
       case FromEndpoints(x) => D.Legal(y.e.w, x) && (x == D.Pop ==> !y.e.Holds())
       case SampleService => y.lock == Unlocked && y.s.Holds()
       case SampleEndpoints => y.lock == Unlocked && y.e.Holds()
       case Touch(_) => y.lock != Unlocked
       case ApplyService => y.lock == ByService && y.s.Holds()
       case ApplyEndpoints => y.lock == ByEndpoints && y.e.Holds()
       case TakeRequest => y.worker == Idle && y.queued
       case BackOff => y.worker == Holding
       case Start => y.worker == Holding
       case Render => y.worker == Starting && !y.busy
       case FailToRender => y.worker == Starting
       case Finish => y.worker == Rendered
       case RenderDirectly => !y.busy
       case _ => true
  }

  /** Whether the handler gets as far as its commit. */
  predicate Commits(u: Update) {
    match u
    case ServiceUpdate(event, s) => event == Deleted || IPSet(s)
    case EndpointsUpdate(event, e) => event != Added || e.subsets != []
  }

  /** The end of a handler. */
  function Applied(y: Sys, u: Update): Sys
    requires ValidUpdates(y.done) && ValidUpdate(u)
  {
    var t := Apply(Current(y), u);
    var asks := Commits(u) && y.master && !y.skipCommit;
    y.(lock := Unlocked, busy := false, table := t, done := y.done + [u],
       queued := y.queued || asks, missed := y.missed || (!asks && t != Current(y)))
  }

  function Sampled(y: Sys): Sys {
    y.(skipCommit := !(y.e.flag && y.s.flag))
  }

  function OfServiceDelivery(d: Delivery<Service>): Update {
    ServiceUpdate(d.event, d.obj)
  }

  function OfEndpointsDelivery(d: Delivery<Endpoints>): Update {
    EndpointsUpdate(d.event, d.obj)
  }

  /** What the service consumer holds. */
  function NextService(y: Sys): Update
    requires y.s.Holds()
  {
    OfServiceDelivery(y.s.w.log[y.s.applied])
  }

  function NextEndpoints(y: Sys): Update
    requires y.e.Holds()
  {
    OfEndpointsDelivery(y.e.w.log[y.e.applied])
  }

  /** What goes on in a handler, in the worker and in `SetMaster`. */
  function Worked(y: Sys, a: Action): Sys {
    match a
    case Touch(t) => y.(busy := true, table := t)
    case TakeRequest => y.(worker := Holding, queued := false)
    case BackOff => y.(worker := Idle, queued := true)
    case Start => y.(worker := Starting)
    case Render => y.(worker := Rendered, rendered := y.table, shown := |y.done|, missed := false)
    case FailToRender => y.(worker := Rendered, missed := true)
    case Finish => y.(worker := Idle)
    case BecomeMaster => y.(master := true)
    case BecomeBackup => y.(master := false)
    case RenderDirectly => y.(rendered := y.table, shown := |y.done|, missed := false)
    case _ => y
  }

  function Step(y: Sys, a: Action): Sys
    requires Enabled(y, a) && Inv(y)
  {
    match a
    case FromServices(x) => y.(s := y.s.(w := D.Step(y.s.w, x)))
    case FromEndpoints(x) => y.(e := y.e.(w := D.Step(y.e.w, x)))
    case SampleService => Sampled(y.(s := y.s.Sample(), lock := ByService))
    case SampleEndpoints => Sampled(y.(e := y.e.Sample(), lock := ByEndpoints))
    case ApplyService => NextIsValid(y, a); Applied(y, NextService(y)).(s := y.s.(applied := y.s.applied + 1))
    case ApplyEndpoints => NextIsValid(y, a); Applied(y, NextEndpoints(y)).(e := y.e.(applied := y.e.applied + 1))
    case _ => Worked(y, a)
  }

  function NewWorld<V>(): D.World<V> {
    D.Initial()
  }

  function Initial(): Sys {
    Sys(Side(NewWorld(), 0, false, 0, true), Side(NewWorld(), 0, false, 0, true), Unlocked, false, false, false,
        map[], [], false, Idle, map[], 0, false)
  }

  // The invariant

  ghost predicate SideInv<V>(x: Side<V>, sampling: bool) {
    && D.Inv(x.w)
    && x.applied <= |x.w.log| <= x.applied + 1
    && x.sampled <= x.applied + (if sampling then 1 else 0)
    && (sampling ==> |x.w.log| == x.applied + 1)
    && (x.flag ==> x.drained)
  }

  ghost predicate ValidServices(w: D.World<Service>) {
    && (forall k | k in w.last :: ValidService(w.last[k]))
    && (forall d | d in w.log :: ValidService(d.obj))
  }

  ghost predicate ValidEndpointsOf(w: D.World<Endpoints>) {
    && (forall k | k in w.last :: ValidEndpoints(w.last[k]))
    && (forall d | d in w.log :: ValidEndpoints(d.obj))
  }

  /** A request is in the slot, or with the worker and not yet rendered. */
  predicate Asked(y: Sys) {
    y.queued || y.worker == Holding || y.worker == Starting
  }

  /** The last render shows the table as it was after the first `shown` deliveries. */
  ghost predicate Tables(y: Sys) {
    && ValidUpdates(y.done)
    && (!y.busy ==> y.table == Current(y))
    && (y.lock == Unlocked ==> !y.busy)
    && y.shown <= |y.done|
    && y.rendered == TableUpTo(y.done, y.shown)
  }

  /** The table after the first `n` updates. */
  function TableUpTo(us: seq<Update>, n: nat): Table
    requires ValidUpdates(us) && n <= |us|
  {
    ApplyAll(map[], us[..n])
  }

  function OfServices(log: seq<Delivery<Service>>): seq<Update> {
    seq(|log|, i requires 0 <= i < |log| => OfServiceDelivery(log[i]))
  }

  function OfEndpointsLog(log: seq<Delivery<Endpoints>>): seq<Update> {
    seq(|log|, i requires 0 <= i < |log| => OfEndpointsDelivery(log[i]))
  }

  /** What was applied is what either queue delivered, each in its order, as far as its consumer has come. */
  ghost predicate History(y: Sys) {
    && y.s.applied <= |y.s.w.log| && y.e.applied <= |y.e.w.log|
    && Part(y.done, true) == OfServices(y.s.w.log[..y.s.applied])
    && Part(y.done, false) == OfEndpointsLog(y.e.w.log[..y.e.applied])
  }

  /** No request is lost: a table that was not rendered is one a render is asked for, or whose change was
      not asked to be rendered. */
  ghost predicate Covered(y: Sys)
    requires ValidUpdates(y.done)
  {
    y.rendered == Current(y) || Asked(y) || y.missed
  }

  ghost predicate Inv(y: Sys) {
    && SideInv(y.s, y.lock == ByService)
    && SideInv(y.e, y.lock == ByEndpoints)
    && ValidServices(y.s.w)
    && ValidEndpointsOf(y.e.w)
    && Tables(y)
    && History(y)
    && Covered(y)
    && (y.lock != Unlocked ==> y.skipCommit == !(y.s.flag && y.e.flag))
  }

  lemma NextIsValid(y: Sys, a: Action)
    requires Inv(y) && Enabled(y, a)
    ensures ValidUpdates(y.done)
    ensures a == ApplyService ==> ValidUpdate(NextService(y))
    ensures a == ApplyEndpoints ==> ValidUpdate(NextEndpoints(y))
  {
    hide SideInv, ValidUpdates, History, Covered, ValidService, ValidEndpoints;
    if a == ApplyService {
      assert y.s.w.log[y.s.applied] in y.s.w.log;
    }
    if a == ApplyEndpoints {
      assert y.e.w.log[y.e.applied] in y.e.w.log;
    }
  }

  lemma FromQueueKeepsSide<V>(x: Side<V>, a: D.Action<V>, sampling: bool)
    requires SideInv(x, sampling) && D.Legal(x.w, a) && (a == D.Pop ==> !x.Holds())
    ensures SideInv(x.(w := D.Step(x.w, a)), sampling)
  {
    LogGrows(x.w, a);
    D.StepKeepsInv(x.w, a);
    hide D.Inv, D.Step, D.Legal;
  }

  /** Only a delivery makes the log longer, by the last object heard of for its key. */
  lemma LogGrows<V>(w: D.World<V>, a: D.Action<V>)
    requires D.Inv(w) && D.Legal(w, a)
    ensures a != D.Pop ==> D.Step(w, a).log == w.log
    ensures a == D.Pop ==>
              && CanPop(w.q)
              && var d := Popped(w.q); D.Step(w, a).log == w.log + [d] && d.key in w.last && d.obj == w.last[d.key]
  {
    if a == D.Pop {
      D.DeliveryCarriesLast(w);
    }
    hide D.Inv, CanPop, Popped, AfterPop, AfterReplace, Handle;
  }

  /** The objects a queue has heard of come from its producer's calls. */
  lemma FromQueueKeepsLast<V>(w: D.World<V>, a: D.Action<V>, k: Key)
    requires D.Inv(w) && D.Legal(w, a) && k in D.Step(w, a).last
    ensures var v := D.Step(w, a).last[k];
            || (k in w.last && v == w.last[k])
            || ((a.Add? || a.Update?) && v == a.obj)
            || (a.Replace? && exists i | i in a.items :: i.obj == v)
  {
    hide D.Inv, CanPop, Popped, AfterPop, AfterReplace, Handle, StoreOf, D.Apply;
    match a
    case Replace(items) =>
      if k in StoreOf(items) {
        StoreOfValues(items, k);
      }
    case _ =>
  }

  lemma FromServicesKeepsValid(w: D.World<Service>, x: D.Action<Service>)
    requires D.Inv(w) && D.Legal(w, x) && ValidServices(w) && ValidAction(FromServices(x))
    ensures ValidServices(D.Step(w, x))
  {
    var w' := D.Step(w, x);
    LogGrows(w, x);
    hide D.Step, D.Inv, D.Legal, ValidService;
    forall k | k in w'.last ensures ValidService(w'.last[k]) {
      FromQueueKeepsLast(w, x, k);
    }
  }

  lemma FromEndpointsKeepsValid(w: D.World<Endpoints>, x: D.Action<Endpoints>)
    requires D.Inv(w) && D.Legal(w, x) && ValidEndpointsOf(w) && ValidAction(FromEndpoints(x))
    ensures ValidEndpointsOf(D.Step(w, x))
  {
    var w' := D.Step(w, x);
    LogGrows(w, x);
    hide D.Step, D.Inv, D.Legal, ValidEndpoints;
    forall k | k in w'.last ensures ValidEndpoints(w'.last[k]) {
      FromQueueKeepsLast(w, x, k);
    }
  }

  lemma {:induction false} StoreOfValues<V>(items: seq<Item<V>>, k: Key)
    requires k in StoreOf(items)
    ensures exists i | i in items :: i.key == k && i.obj == StoreOf(items)[k]
  {
    var last := items[|items| - 1];
    if last.key == k {
      assert last in items;
    } else {
      StoreOfValues(items[..|items| - 1], k);
      var i :| i in items[..|items| - 1] && i.key == k && i.obj == StoreOf(items[..|items| - 1])[k];
      assert i in items;
    }
  }

  /** One more update. */
  lemma DoneMore(us: seq<Update>, u: Update)
    requires ValidUpdates(us) && ValidUpdate(u)
    ensures ValidUpdates(us + [u]) && ApplyAll(map[], us + [u]) == Apply(ApplyAll(map[], us), u)
    ensures forall n: nat | n <= |us| :: TableUpTo(us + [u], n) == TableUpTo(us, n)
    ensures TableUpTo(us, |us|) == ApplyAll(map[], us)
  {
    var all := us + [u];
    assert all[..|us|] == us && us[..|us|] == us;
    assert ValidUpdates(all) by {
      hide ValidUpdate;
    }
    hide Apply, ValidUpdate, ApplyAll;
    ApplyLast(map[], all);
    forall n: nat | n <= |us| ensures TableUpTo(all, n) == TableUpTo(us, n) {
      assert all[..n] == us[..n];
    }
  }

  lemma AppliedKeepsTables(y: Sys, u: Update)
    requires Tables(y) && Covered(y) && ValidUpdate(u)
    ensures Tables(Applied(y, u)) && Covered(Applied(y, u))
  {
    DoneMore(y.done, u);
    hide ValidUpdates, ValidUpdate, ApplyAll, Apply, TableUpTo, Commits;
  }

  lemma PartMore(us: seq<Update>, u: Update, service: bool)
    ensures Part(us + [u], service) == Part(us, service) + if u.ServiceUpdate? == service then [u] else []
  {
    assert (us + [u])[..|us|] == us;
  }

  lemma ServiceHistory(y: Sys)
    requires History(y) && y.s.Holds()
    ensures History(y.(done := y.done + [NextService(y)], s := y.s.(applied := y.s.applied + 1)))
  {
    var n := y.s.applied;
    PartMore(y.done, NextService(y), true);
    PartMore(y.done, NextService(y), false);
    hide Part;
    assert OfServices(y.s.w.log[..n + 1]) == OfServices(y.s.w.log[..n]) + [NextService(y)];
  }

  lemma EndpointsHistory(y: Sys)
    requires History(y) && y.e.Holds()
    ensures History(y.(done := y.done + [NextEndpoints(y)], e := y.e.(applied := y.e.applied + 1)))
  {
    var n := y.e.applied;
    PartMore(y.done, NextEndpoints(y), true);
    PartMore(y.done, NextEndpoints(y), false);
    hide Part;
    assert OfEndpointsLog(y.e.w.log[..n + 1]) == OfEndpointsLog(y.e.w.log[..n]) + [NextEndpoints(y)];
  }

  /** The parts that do not look at some of the fields. */
  lemma SameTables(y: Sys, y': Sys)
    requires Tables(y) && Covered(y)
    requires y'.done == y.done && y'.busy == y.busy && y'.table == y.table && (y'.lock == Unlocked ==> !y.busy)
    requires y'.shown == y.shown && y'.rendered == y.rendered && y'.missed == y.missed && (Asked(y) ==> Asked(y'))
    ensures Tables(y') && Covered(y')
  {
    hide ValidUpdates, TableUpTo, ApplyAll;
  }

  lemma SameHistory(y: Sys, y': Sys)
    requires History(y) && y'.done == y.done && y'.s.applied == y.s.applied && y'.e.applied == y.e.applied
    requires y.s.w.log <= y'.s.w.log && y.e.w.log <= y'.e.w.log
    ensures History(y')
  {
    assert y'.s.w.log[..y.s.applied] == y.s.w.log[..y.s.applied];
    assert y'.e.w.log[..y.e.applied] == y.e.w.log[..y.e.applied];
    hide Part, OfServices, OfEndpointsLog;
  }

  lemma ApplyServiceStep(y: Sys)
    requires Inv(y) && y.lock == ByService && y.s.Holds()
    ensures Enabled(y, ApplyService) && ValidUpdates(y.done) && ValidUpdate(NextService(y))
    ensures Step(y, ApplyService) == Applied(y, NextService(y)).(s := y.s.(applied := y.s.applied + 1))
  {
    hide SideInv, Tables, History, Covered, ValidServices, ValidEndpointsOf, Applied, NextService, ValidUpdates;
    NextIsValid(y, ApplyService);
  }

  lemma ApplyEndpointsStep(y: Sys)
    requires Inv(y) && y.lock == ByEndpoints && y.e.Holds()
    ensures Enabled(y, ApplyEndpoints) && ValidUpdates(y.done) && ValidUpdate(NextEndpoints(y))
    ensures Step(y, ApplyEndpoints) == Applied(y, NextEndpoints(y)).(e := y.e.(applied := y.e.applied + 1))
  {
    hide SideInv, Tables, History, Covered, ValidServices, ValidEndpointsOf, Applied, NextEndpoints, ValidUpdates;
    NextIsValid(y, ApplyEndpoints);
  }

  lemma AppliedKeepsSide<V>(x: Side<V>)
    requires SideInv(x, true)
    ensures SideInv(x.(applied := x.applied + 1), false)
  {
    hide D.Inv;
  }

  lemma ApplyServiceKeepsInv(y: Sys)
    requires Inv(y) && Enabled(y, ApplyService)
    ensures Inv(Step(y, ApplyService))
  {
    assert y.lock == ByService && y.s.Holds();
    hide Step, Enabled, SideInv, Tables, History, Covered, ValidUpdate, ValidUpdates, ValidServices, ValidEndpointsOf,
      NextService, Apply, Commits, Current;
    ApplyServiceStep(y);
    var u := NextService(y);
    var applied, y' := Applied(y, u), Step(y, ApplyService);
    AppliedKeepsSide(y.s);
    AppliedKeepsTables(y, u);
    SameTables(applied, y');
    ServiceHistory(y);
    SameHistory(y.(done := y.done + [u], s := y.s.(applied := y.s.applied + 1)), y');
  }

  lemma ApplyEndpointsKeepsInv(y: Sys)
    requires Inv(y) && Enabled(y, ApplyEndpoints)
    ensures Inv(Step(y, ApplyEndpoints))
  {
    assert y.lock == ByEndpoints && y.e.Holds();
    hide Step, Enabled, SideInv, Tables, History, Covered, ValidUpdate, ValidUpdates, ValidServices, ValidEndpointsOf,
      NextEndpoints, Apply, Commits, Current;
    ApplyEndpointsStep(y);
    var u := NextEndpoints(y);
    var applied, y' := Applied(y, u), Step(y, ApplyEndpoints);
    AppliedKeepsSide(y.e);
    AppliedKeepsTables(y, u);
    SameTables(applied, y');
    EndpointsHistory(y);
    SameHistory(y.(done := y.done + [u], e := y.e.(applied := y.e.applied + 1)), y');
  }

  lemma FromServicesKeepsInv(y: Sys, x: D.Action<Service>)
    requires Inv(y) && Enabled(y, FromServices(x))
    ensures Inv(Step(y, FromServices(x)))
  {
    var y' := Step(y, FromServices(x));
    FromQueueKeepsSide(y.s, x, y.lock == ByService);
    LogGrows(y.s.w, x);
    FromServicesKeepsValid(y.s.w, x);
    hide Tables, Covered, SideInv, D.Step, D.Inv, D.Legal, ValidServices, ValidEndpointsOf, ValidAction, History;
    SameTables(y, y');
    SameHistory(y, y');
  }

  lemma FromEndpointsKeepsInv(y: Sys, x: D.Action<Endpoints>)
    requires Inv(y) && Enabled(y, FromEndpoints(x))
    ensures Inv(Step(y, FromEndpoints(x)))
  {
    var y' := Step(y, FromEndpoints(x));
    FromQueueKeepsSide(y.e, x, y.lock == ByEndpoints);
    LogGrows(y.e.w, x);
    FromEndpointsKeepsValid(y.e.w, x);
    hide Tables, Covered, SideInv, D.Step, D.Inv, D.Legal, ValidServices, ValidEndpointsOf, ValidAction, History;
    SameTables(y, y');
    SameHistory(y, y');
  }

  lemma SampleKeepsSide<V>(x: Side<V>)
    requires SideInv(x, false) && x.Holds()
    ensures SideInv(x.Sample(), true)
  {
    D.ListGate(x.w);
    hide D.Inv;
  }

  lemma SampleKeepsInv(y: Sys, a: Action)
    requires Inv(y) && Enabled(y, a) && (a == SampleService || a == SampleEndpoints)
    ensures Inv(Step(y, a))
  {
    var y' := Step(y, a);
    if a == SampleService {
      SampleKeepsSide(y.s);
    } else {
      SampleKeepsSide(y.e);
    }
    assert !y.busy;
    hide Tables, Covered, SideInv, ValidServices, ValidEndpointsOf, History;
    SameTables(y, y');
    SameHistory(y, y');
  }

  predicate OfQueues(a: Action) {
    a.FromServices? || a.FromEndpoints? || a.SampleService? || a.SampleEndpoints? || a.ApplyService?
      || a.ApplyEndpoints?
  }

  /** A render shows everything applied; whether it comes between handlers is what the proxier's lock is for. */
  lemma RenderKeepsTables(y: Sys)
    requires Tables(y) && !y.busy
    ensures var y' := y.(rendered := y.table, shown := |y.done|, missed := false); Tables(y') && Covered(y')
  {
    assert y.done[..|y.done|] == y.done;
    hide ValidUpdates, ApplyAll;
  }

  lemma WorkedIs(y: Sys, a: Action)
    requires Inv(y) && Enabled(y, a) && !OfQueues(a)
    ensures var y' := Step(y, a);
            && y' == Worked(y, a) && y'.s == y.s && y'.e == y.e && y'.done == y.done && y'.lock == y.lock
            && y'.skipCommit == y.skipCommit
  {
    hide Inv, Enabled;
  }

  lemma WorkedKeepsTables(y: Sys, a: Action)
    requires Tables(y) && Covered(y) && Enabled(y, a) && !OfQueues(a)
    ensures var y' := Worked(y, a); Tables(y') && Covered(y')
  {
    if a == Render || a == RenderDirectly {
      RenderKeepsTables(y);
    }
    hide ValidUpdates, ApplyAll, TableUpTo, D.Legal, ValidAction;
  }

  lemma RestKeepsInv(y: Sys, a: Action)
    requires Inv(y) && Enabled(y, a) && !OfQueues(a)
    ensures Inv(Step(y, a))
  {
    WorkedIs(y, a);
    hide Step, Enabled, Worked, Tables, Covered, SideInv, ValidServices, ValidEndpointsOf, History, OfQueues;
    WorkedKeepsTables(y, a);
    SameHistory(y, Step(y, a));
  }

  /** Every step, in whatever interleaving, keeps the invariant. */
  lemma StepKeepsInv(y: Sys, a: Action)
    requires Inv(y) && Enabled(y, a)
    ensures Inv(Step(y, a))
  {
    hide Inv, Enabled, Step;
    match a
    case FromServices(x) => FromServicesKeepsInv(y, x);
    case FromEndpoints(x) => FromEndpointsKeepsInv(y, x);
    case SampleService => SampleKeepsInv(y, a);
    case SampleEndpoints => SampleKeepsInv(y, a);
    case ApplyService => ApplyServiceKeepsInv(y);
    case ApplyEndpoints => ApplyEndpointsKeepsInv(y);
    case _ => RestKeepsInv(y, a);
  }

  lemma InitialInv()
    ensures Inv(Initial())
  {
    D.InitialInv<Service>();
    D.InitialInv<Endpoints>();
    hide D.Inv;
  }

  // Every reachable state

  /** The states of a run from `y`, as far as every action is enabled. */
  ghost predicate Reaches(y: Sys, run: seq<Action>, y': Sys)
    decreases |run|
  {
    if run == [] then y == y'
    else Inv(y) && Enabled(y, run[0]) && Reaches(Step(y, run[0]), run[1..], y')
  }

  lemma {:induction false} ReachedInv(y: Sys, run: seq<Action>, y': Sys)
    requires Inv(y) && Reaches(y, run, y')
    ensures Inv(y')
    decreases |run|
  {
    hide Inv, Enabled, Step;
    if run != [] {
      StepKeepsInv(y, run[0]);
      ReachedInv(Step(y, run[0]), run[1..], y');
    }
  }

  /** A run goes one step on. */
  lemma {:induction false} ReachesMore(y: Sys, run: seq<Action>, z: Sys, a: Action)
    requires Reaches(y, run, z) && Inv(z) && Enabled(z, a)
    ensures Reaches(y, run + [a], Step(z, a)) && Inv(Step(z, a))
    decreases |run|
  {
    hide Inv, Enabled, Step;
    if run == [] {
      StepKeepsInv(z, a);
      assert [] + [a] == [a] && [a][1..] == [];
    } else {
      ReachesMore(Step(y, run[0]), run[1..], z, a);
      assert (run + [a])[1..] == run[1..] + [a];
    }
  }

  /** A handler reaches a commit that is let through only if, when either queue's flag was last sampled, that
      queue had drained its latest list; and every event popped by then is applied by the time the lock is
      released. */
  lemma CommitsOnlyWhenDrained(run: seq<Action>, y: Sys, a: Action)
    requires Reaches(Initial(), run, y) && Inv(y) && Enabled(y, a)
    requires (a == ApplyService || a == ApplyEndpoints) && y.master && !y.skipCommit
    ensures y.s.drained && y.e.drained
    ensures var y' := Step(y, a);
            y'.lock == Unlocked && y'.s.sampled <= y'.s.applied && y'.e.sampled <= y'.e.applied
  {
    hide D.Inv, Tables, Covered, History, ValidServices, ValidEndpointsOf, Apply, ApplyAll, Commits;
  }

  /** In every reachable state what was rendered last is the table after a prefix of the deliveries applied,
      which are the ones that either queue delivered first, in its order; and a render shows all of them. */
  lemma RendersAPrefix(run: seq<Action>, y: Sys, a: Action)
    requires Reaches(Initial(), run, y) && Enabled(y, a)
    ensures Inv(y) && ValidUpdates(y.done)
    ensures y.shown <= |y.done| && y.rendered == TableUpTo(y.done, y.shown)
    ensures y.s.applied <= |y.s.w.log| && Part(y.done, true) == OfServices(y.s.w.log[..y.s.applied])
    ensures y.e.applied <= |y.e.w.log| && Part(y.done, false) == OfEndpointsLog(y.e.w.log[..y.e.applied])
    ensures a == Render || a == RenderDirectly ==>
              Step(y, a).rendered == ApplyAll(map[], y.done) && Step(y, a).shown == |y.done|
    ensures Step(y, a).shown >= y.shown
  {
    hide *;
    InitialInv();
    ReachedInv(Initial(), run, y);
    PrefixRendered(y);
    ShownGrows(y, a);
  }

  lemma PrefixRendered(y: Sys)
    requires Inv(y)
    ensures ValidUpdates(y.done) && y.shown <= |y.done| && y.rendered == TableUpTo(y.done, y.shown)
    ensures y.s.applied <= |y.s.w.log| && Part(y.done, true) == OfServices(y.s.w.log[..y.s.applied])
    ensures y.e.applied <= |y.e.w.log| && Part(y.done, false) == OfEndpointsLog(y.e.w.log[..y.e.applied])
  {
    hide SideInv, Covered, ValidServices, ValidEndpointsOf, ApplyAll, Part, ValidUpdates, TableUpTo;
  }

  lemma ShownGrows(y: Sys, a: Action)
    requires Inv(y) && Enabled(y, a)
    ensures ValidUpdates(y.done) && Step(y, a).shown >= y.shown
    ensures a == Render || a == RenderDirectly ==>
              Step(y, a).rendered == ApplyAll(map[], y.done) && Step(y, a).shown == |y.done|
  {
    RenderSees(y, a);
    if a == ApplyService || a == ApplyEndpoints {
      ApplyShows(y, a);
    } else if OfQueues(a) {
      QueueMisses(y, a);
    } else {
      WorkShows(y, a);
    }
    hide *;
  }

  lemma ApplyShows(y: Sys, a: Action)
    requires Inv(y) && Enabled(y, a) && (a == ApplyService || a == ApplyEndpoints)
    ensures Step(y, a).shown == y.shown
  {
    if a == ApplyService {
      assert y.lock == ByService && y.s.Holds();
      hide Inv, Step, Enabled, Apply, Current, Commits, NextService, ValidUpdate, ValidUpdates;
      ApplyServiceStep(y);
    } else {
      assert y.lock == ByEndpoints && y.e.Holds();
      hide Inv, Step, Enabled, Apply, Current, Commits, NextEndpoints, ValidUpdate, ValidUpdates;
      ApplyEndpointsStep(y);
    }
  }

  lemma WorkShows(y: Sys, a: Action)
    requires Inv(y) && Enabled(y, a) && !OfQueues(a)
    ensures Step(y, a).shown >= y.shown
    ensures a == Render || a == RenderDirectly ==>
              Step(y, a).rendered == y.table && Step(y, a).shown == |y.done|
  {
    WorkedIs(y, a);
    PrefixRendered(y);
    hide Inv, Step, Enabled, ValidUpdates, TableUpTo, Part;
  }

  /** A render finds the table of between handlers. */
  lemma RenderSees(y: Sys, a: Action)
    requires Inv(y) && Enabled(y, a)
    ensures ValidUpdates(y.done) && (a == Render || a == RenderDirectly ==> y.table == ApplyAll(map[], y.done))
  {
    hide SideInv, History, Covered, ValidServices, ValidEndpointsOf, ApplyAll, ValidUpdates, TableUpTo, D.Legal,
      ValidAction;
  }

  /** The commit is let through, and no render fails. */
  predicate Open(y: Sys, a: Action) {
    && a != FailToRender
    && (a == ApplyService || a == ApplyEndpoints ==> y.master && !y.skipCommit)
  }

  ghost predicate OpenRun(y: Sys, run: seq<Action>)
    decreases |run|
  {
    run != [] ==> Open(y, run[0]) && (Inv(y) && Enabled(y, run[0]) ==> OpenRun(Step(y, run[0]), run[1..]))
  }

  /** A handler that returns before its commit has changed nothing. */
  lemma UncommittedIsSame(t: Table, u: Update)
    requires TableInv(t) && ValidUpdate(u) && !Commits(u)
    ensures Apply(t, u) == t
  {
    hide TableInv, ValidService, ValidEndpoints;
  }

  lemma OpenStepMissesNothing(y: Sys, a: Action)
    requires Inv(y) && Enabled(y, a) && Open(y, a) && !y.missed
    ensures !Step(y, a).missed
  {
    if a == ApplyService {
      ApplyServiceMisses(y);
    } else if a == ApplyEndpoints {
      ApplyEndpointsMisses(y);
    } else if OfQueues(a) {
      QueueMisses(y, a);
    } else {
      WorkedIs(y, a);
    }
    hide Inv, Step, Enabled;
  }

  lemma AppliedMisses(y: Sys, u: Update)
    requires ValidUpdates(y.done) && ValidUpdate(u) && y.master && !y.skipCommit && !y.missed
    ensures !Applied(y, u).missed
  {
    if !Commits(u) {
      UncommittedIsSame(Current(y), u);
    }
    hide Commits, Current, Apply, ValidUpdate, ValidUpdates;
  }

  lemma ApplyServiceMisses(y: Sys)
    requires Inv(y) && Enabled(y, ApplyService) && y.master && !y.skipCommit && !y.missed
    ensures !Step(y, ApplyService).missed
  {
    assert y.lock == ByService && y.s.Holds();
    hide Inv, Enabled, Step, Applied, NextService, ValidUpdates, ValidUpdate;
    ApplyServiceStep(y);
    AppliedMisses(y, NextService(y));
  }

  lemma ApplyEndpointsMisses(y: Sys)
    requires Inv(y) && Enabled(y, ApplyEndpoints) && y.master && !y.skipCommit && !y.missed
    ensures !Step(y, ApplyEndpoints).missed
  {
    assert y.lock == ByEndpoints && y.e.Holds();
    hide Inv, Enabled, Step, Applied, NextEndpoints, ValidUpdates, ValidUpdate;
    ApplyEndpointsStep(y);
    AppliedMisses(y, NextEndpoints(y));
  }

  lemma QueueMisses(y: Sys, a: Action)
    requires Inv(y) && Enabled(y, a) && OfQueues(a) && a != ApplyService && a != ApplyEndpoints
    ensures var y' := Step(y, a);
            && y'.missed == y.missed && y'.master == y.master && y'.rendered == y.rendered && y'.shown == y.shown
            && y'.queued == y.queued && y'.worker == y.worker && y'.done == y.done
  {
    hide Inv, Enabled, D.Step, Applied, Worked;
  }

  lemma {:induction false} OpenRunMissesNothing(y: Sys, run: seq<Action>, y': Sys)
    requires Inv(y) && Reaches(y, run, y') && OpenRun(y, run) && !y.missed
    ensures Inv(y') && !y'.missed
    decreases |run|
  {
    hide Inv, Step, Enabled, Open;
    if run != [] {
      StepKeepsInv(y, run[0]);
      OpenStepMissesNothing(y, run[0]);
      OpenRunMissesNothing(Step(y, run[0]), run[1..], y');
    }
  }

  /** Requests are never lost: while commits are let through and renders succeed, in every state between
      handlers the table is the one last rendered, or a request is in the slot or in the worker's hand,
      not yet rendered. */
  lemma RequestsAreNeverLost(y: Sys, run: seq<Action>, y': Sys)
    requires Inv(y) && !y.missed && Reaches(y, run, y') && OpenRun(y, run) && y'.lock == Unlocked
    ensures y'.rendered == y'.table || Asked(y')
  {
    OpenRunMissesNothing(y, run, y');
    hide Reaches, OpenRun, SideInv, History, Current, ValidServices, ValidEndpointsOf, ValidUpdates;
  }

  // Single steps

  lemma {:induction false} ApplyJoins(t: Table, a: seq<Update>, b: seq<Update>)
    requires TableInv(t) && ValidUpdates(a) && ValidUpdates(b)
    ensures ValidUpdates(a + b) && ApplyAll(t, a + b) == ApplyAll(ApplyAll(t, a), b)
    decreases |b|
  {
    if b == [] {
      assert a + b == a;
    } else {
      var init, u := b[..|b| - 1], b[|b| - 1];
      ApplyLast(ApplyAll(t, a), b);
      ApplyJoins(t, a, init);
      assert (a + b)[..|a + b| - 1] == a + init && (a + b)[|a + b| - 1] == u;
      hide Apply, ValidUpdate, TableInv;
    }
  }

  lemma CurrentIs(y: Sys)
    requires ValidUpdates(y.done)
    ensures Current(y) == ApplyAll(map[], y.done)
  {
  }

  lemma MasterStep(y: Sys)
    requires Inv(y)
    ensures Enabled(y, BecomeMaster) && Step(y, BecomeMaster) == y.(master := true)
  {
    hide Inv;
  }

  lemma AppliedIs(y: Sys, u: Update)
    requires ValidUpdates(y.done) && ValidUpdate(u)
    ensures var y' := Applied(y, u);
            && y' == y.(lock := Unlocked, busy := false, table := y'.table, done := y.done + [u], queued := y'.queued,
                        missed := y'.missed)
            && y'.queued == (y.queued || (Commits(u) && y.master && !y.skipCommit))
            && y'.table == Apply(Current(y), u)
  {
    hide Commits, Apply, Current, ValidUpdates, ValidUpdate;
  }

  lemma ApplyEnabled(y: Sys, a: Action)
    requires Enabled(y, a)
    ensures a == ApplyService ==> y.lock == ByService && y.s.Holds()
    ensures a == ApplyEndpoints ==> y.lock == ByEndpoints && y.e.Holds()
  {
  }

  lemma SampleServiceStep(y: Sys)
    requires Inv(y) && y.lock == Unlocked && y.s.Holds()
    ensures Enabled(y, SampleService) && Step(y, SampleService) == Sampled(y.(s := y.s.Sample(), lock := ByService))
  {
    hide Inv;
  }

  /** The service consumer delivers what it holds. */
  lemma DeliverService(y0: Sys, run: seq<Action>, y: Sys) returns (run': seq<Action>, y': Sys)
    requires Reaches(y0, run, y) && Inv(y) && y.lock == Unlocked && y.s.Holds()
    ensures run' == run + [SampleService] + [ApplyService] && Reaches(y0, run', y') && Inv(y') && y'.lock == Unlocked
    ensures y'.s.w == y.s.w && y'.s.applied == y.s.applied + 1 && y'.e == y.e && y'.master == y.master
    ensures y'.s.flag == (y.s.w.q.lastReplaceKey == "")
    ensures y'.done == y.done + [NextService(y)] && y'.rendered == y.rendered && y'.worker == y.worker
    ensures y'.queued == (y.queued || (Commits(NextService(y)) && y.master && y'.s.flag && y.e.flag))
  {
    hide Inv, Reaches, Enabled, Step, Apply, ApplyAll, Commits, ValidUpdates;
    SampleServiceStep(y);
    ReachesMore(y0, run, y, SampleService);
    var y1 := Step(y, SampleService);
    ApplyServiceStep(y1);
    ReachesMore(y0, run + [SampleService], y1, ApplyService);
    y' := Step(y1, ApplyService);
    run' := run + [SampleService] + [ApplyService];
  }

  lemma SampleEndpointsStep(y: Sys)
    requires Inv(y) && y.lock == Unlocked && y.e.Holds()
    ensures Enabled(y, SampleEndpoints)
    ensures Step(y, SampleEndpoints) == Sampled(y.(e := y.e.Sample(), lock := ByEndpoints))
  {
    hide Inv;
  }

  /** The endpoints consumer delivers what it holds. */
  lemma DeliverEndpoints(y0: Sys, run: seq<Action>, y: Sys) returns (run': seq<Action>, y': Sys)
    requires Reaches(y0, run, y) && Inv(y) && y.lock == Unlocked && y.e.Holds()
    ensures run' == run + [SampleEndpoints] + [ApplyEndpoints]
    ensures Reaches(y0, run', y') && Inv(y') && y'.lock == Unlocked
    ensures y'.e.w == y.e.w && y'.e.applied == y.e.applied + 1 && y'.s == y.s && y'.master == y.master
    ensures y'.e.flag == (y.e.w.q.lastReplaceKey == "")
    ensures y'.done == y.done + [NextEndpoints(y)] && y'.rendered == y.rendered && y'.worker == y.worker
    ensures y'.queued == (y.queued || (Commits(NextEndpoints(y)) && y.master && y'.e.flag && y.s.flag))
  {
    hide Inv, Reaches, Enabled, Step, Apply, ApplyAll, Commits, ValidUpdates;
    SampleEndpointsStep(y);
    ReachesMore(y0, run, y, SampleEndpoints);
    var y1 := Step(y, SampleEndpoints);
    ApplyEndpointsStep(y1);
    ReachesMore(y0, run + [SampleEndpoints], y1, ApplyEndpoints);
    y' := Step(y1, ApplyEndpoints);
    run' := run + [SampleEndpoints] + [ApplyEndpoints];
  }

  // A run that loses a change

  const WEB_KEY := "default/web"
  const NEW_WEB := Delivery(Added, WEB_KEY, WEB)

  lemma WebIsValid()
    ensures ValidService(WEB) && IPSet(WEB)
  {
    ExampleIsValid();
    assert NoColon("default") && NoColon("web") && NoColon("http");
  }

  /** A service is added to an empty queue, and delivered. */
  lemma WebIsDelivered()
    ensures var w1 := D.Step(NewWorld<Service>(), D.Add(WEB_KEY, WEB));
            && D.Legal(NewWorld<Service>(), D.Add(WEB_KEY, WEB)) && D.Legal(w1, D.Pop) && w1.log == []
            && D.Step(w1, D.Pop).log == [NEW_WEB] && D.Step(w1, D.Pop).q.queue == []
  {
  }

  lemma WebChangesTable()
    ensures ValidUpdate(ServiceUpdate(Added, WEB)) && ValidUpdates([])
    ensures ValidUpdates([ServiceUpdate(Added, WEB)])
    ensures ApplyAll(map[], [ServiceUpdate(Added, WEB)]) != map[]
  {
    WebIsValid();
    ExampleIsValid();
    UniquePort(WEB, 1, 0);
    var u, key := ServiceUpdate(Added, WEB), KeyAt(WEB, 0);
    ServiceEventAt(map[], Added, WEB, key);
    assert [u][..0] == [];
    hide ServiceEvent, KeyAt, InfoUpTo, ValidService, IPSet;
    assert ApplyAll(map[], [u]) == Apply(map[], u);
  }

  /** There is a run from the start that loses a change so: a service is delivered while this becomes MASTER. */
  lemma ChangeLostBecomingMaster() returns (run: seq<Action>, y: Sys)
    ensures Reaches(Initial(), run, y) && Inv(y) && y.master && y.lock == Unlocked && !Asked(y)
    ensures y.rendered != y.table
  {
    var y0 := Initial();
    InitialInv();
    WebIsValid();
    WebIsDelivered();
    WebChangesTable();
    hide Inv, D.Step, D.Legal, ValidService, ApplyAll, Apply, ValidUpdate, ValidUpdates;
    ReachesMore(y0, [], y0, FromServices(D.Add(WEB_KEY, WEB)));
    var y1 := Step(y0, FromServices(D.Add(WEB_KEY, WEB)));
    ReachesMore(y0, [] + [FromServices(D.Add(WEB_KEY, WEB))], y1, FromServices(D.Pop));
    var y2 := Step(y1, FromServices(D.Pop));
    run := [] + [FromServices(D.Add(WEB_KEY, WEB))] + [FromServices(D.Pop)];
    run, y := LosesChange(run, y2);
  }

  /** From where that service is held. */
  lemma LosesChange(run0: seq<Action>, y2: Sys) returns (run: seq<Action>, y: Sys)
    requires Reaches(Initial(), run0, y2) && Inv(y2) && y2.lock == Unlocked && !y2.busy && !y2.master && !Asked(y2)
    requires y2.s.w.log == [NEW_WEB] && y2.s.applied == 0 && y2.done == []
    ensures Reaches(Initial(), run, y) && Inv(y) && y.master && y.lock == Unlocked && !Asked(y)
    ensures y.rendered != y.table
  {
    var y0 := Initial();
    WebChangesTable();
    TableIsCurrent(y2);
    RenderStep(y2);
    hide Inv, Reaches, Enabled, Step, ApplyAll, ValidUpdates, ValidUpdate, Apply, Commits;
    ReachesMore(y0, run0, y2, RenderDirectly);
    var run1, y3 := DeliverService(y0, run0 + [RenderDirectly], Step(y2, RenderDirectly));
    MasterStep(y3);
    ReachesMore(y0, run1, y3, BecomeMaster);
    run, y := run1 + [BecomeMaster], Step(y3, BecomeMaster);
    TableIsCurrent(y);
    assert y.done == [ServiceUpdate(Added, WEB)];
  }

  lemma RenderStep(y: Sys)
    requires Inv(y) && !y.busy
    ensures Enabled(y, RenderDirectly)
    ensures Step(y, RenderDirectly) == y.(rendered := y.table, shown := |y.done|, missed := false)
  {
    hide Inv;
  }

  lemma TableIsCurrent(y: Sys)
    requires Inv(y) && y.lock == Unlocked
    ensures ValidUpdates(y.done) && y.table == ApplyAll(map[], y.done)
  {
    hide SideInv, ApplyAll, ValidUpdates, TableUpTo, History;
  }
}
