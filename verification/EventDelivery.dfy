/** What the event queue means to the two sides of it, over every run.

  `World` is the queue together with what its producer has said so far (`produced`, and `last` for the
  last state stored of every key ever), what its consumer has made of the deliveries (`consumed`, and
  the deliveries themselves in `log`), and what became of the latest list. */
module EventDelivery {
  import opened EventQueue

  datatype World<V> = World(
    q: State<V>,
    produced: map<Key, V>,
    last: map<Key, V>,
    consumed: map<Key, V>,
    log: seq<Delivery<V>>,
    stale: set<Key>,       // what the consumer held when the latest list omitted it
    relisted: bool,        // whether there has been a list
    listed: seq<Key>,      // the keys of the latest list
    popped: seq<Key>,      // the keys delivered since the latest list
    panicked: bool)

  datatype Action<V> = Add(key: Key, obj: V) | Update(key: Key, obj: V) | Delete(key: Key, obj: V)
                     | Replace(items: seq<Item<V>>) | Pop

  /** What a reflector does: it adds what is absent, updates and deletes what is present, never adds a key
      again while its deletion is pending, and lists each key once.  Only a queue that holds something
      is popped. */
  predicate Legal<V>(w: World<V>, a: Action<V>) {
    match a
    case Add(k, _) => k != "" && k !in w.produced && !(k in w.q.events && w.q.events[k] == Deleted)
    case Update(k, _) => k in w.produced
    case Delete(k, _) => k in w.produced
    case Replace(items) => Distinct(Keys(items)) && "" !in Keys(items)
    case Pop => w.q.queue != []
  }

  /** The consumer's side of one delivery. */
  function Apply<V>(m: map<Key, V>, d: Delivery<V>): map<Key, V> {
    if d.event == Deleted then m - {d.key} else m[d.key := d.obj]
  }

  function Handling<V>(w: World<V>, key: Key, obj: V, event: EventType): World<V> {
    match Handle(w.q, key, obj, event)
    case InvalidTransition => w.(panicked := true)
    case Done(q) =>
      if event == Deleted then w.(q := q, produced := w.produced - {key})
      else w.(q := q, produced := w.produced[key := obj], last := w.last[key := obj])
  }

  function Step<V>(w: World<V>, a: Action<V>): World<V> {
    match a
    case Add(k, obj) => Handling(w, k, obj, Added)
    case Update(k, obj) => Handling(w, k, obj, Modified)
    case Delete(k, obj) => Handling(w, k, obj, Deleted)
    case Replace(items) =>
      var m := StoreOf(items);
      w.(q := AfterReplace(items), produced := m, last := w.last + m, stale := w.consumed.Keys - m.Keys,
         relisted := true, listed := Keys(items), popped := [])
    case Pop =>
      if !CanPop(w.q) then w.(panicked := true)
      else
        var d := Popped(w.q);
        w.(q := AfterPop(w.q), consumed := Apply(w.consumed, d), log := w.log + [d], popped := w.popped + [d.key])
  }

  function Initial<V>(): World<V> {
    World(State(map[], [], map[], ""), map[], map[], map[], [], {}, false, [], [], false)
  }

  predicate LegalRun<V>(w: World<V>, run: seq<Action<V>>)
    decreases |run|
  {
    run != [] ==> Legal(w, run[0]) && LegalRun(Step(w, run[0]), run[1..])
  }

  function Run<V>(w: World<V>, run: seq<Action<V>>): World<V>
    decreases |run|
  {
    if run == [] then w else Run(Step(w, run[0]), run[1..])
  }

  // The invariant

  /** The keys of the latest list that are still to be popped. */
  function Pending<V>(w: World<V>): seq<Key> {
    if |w.popped| <= |w.listed| then w.listed[|w.popped|..] else []
  }

  /** What the pending event of `k`, if any, says about the two sides. */
  ghost predicate KeyInv<V>(w: World<V>, k: Key) {
    && (k in w.produced ==> k != "" && k in w.q.store && k in w.last && w.q.store[k] == w.produced[k] == w.last[k])
    && (k in w.q.events ==> k in w.q.store && k in w.last && w.q.store[k] == w.last[k])
    && (k in w.consumed ==> k in w.produced || k in w.stale || (k in w.q.events && w.q.events[k] == Deleted))
    && if k !in w.q.events then k in w.produced ==> k in w.consumed && w.consumed[k] == w.produced[k]
       else
         match w.q.events[k]
         case Added => k in w.produced && (k in w.consumed ==> k in w.stale)
         case Modified => k in w.produced && (k in w.consumed || w.relisted)
         case Deleted => k !in w.produced && (k in w.consumed || w.relisted)
  }

  /** The keys queued are those with an event, each once. */
  ghost predicate Aligned<V>(s: State<V>) {
    && Distinct(s.queue)
    && (forall k :: k in s.queue <==> k in s.events)
    && "" !in s.queue
  }

  ghost predicate QueueInv<V>(w: World<V>) {
    && Aligned(w.q)
    && (!w.relisted ==> w.stale == {})
  }

  /** The latest list is popped first, in its order, and `lastReplaceKey` is the last key of what is left. */
  ghost predicate ListInv<V>(w: World<V>) {
    && Pending(w) <= w.q.queue
    && (if |w.popped| <= |w.listed| then w.popped == w.listed[..|w.popped|] else w.listed <= w.popped)
    && w.q.lastReplaceKey == (if Pending(w) == [] then "" else Pending(w)[|Pending(w)| - 1])
    && (forall k | k in Pending(w) && k in w.q.events :: w.q.events[k] != Added)
  }

  ghost predicate Inv<V>(w: World<V>) {
    && !w.panicked
    && QueueInv(w)
    && ListInv(w)
    && (forall k :: KeyInv(w, k))
  }

  lemma {:induction false} WithoutMembers(q: seq<Key>, key: Key)
    requires Distinct(q)
    ensures Distinct(Without(q, key))
    ensures forall k :: k in Without(q, key) <==> k in q && k != key
    ensures key !in q ==> Without(q, key) == q
  {
    if q != [] {
      WithoutMembers(q[1..], key);
      assert forall k :: k in q <==> k == q[0] || k in q[1..];
      var rest := Without(q[1..], key);
      if q[0] != key {
        assert q[0] !in rest;
        assert Without(q, key) == [q[0]] + rest;
      } else {
        assert Without(q, key) == rest;
      }
    }
  }

  /** Keys before the withdrawn one keep their places. */
  lemma {:induction false} WithoutPrefix(p: seq<Key>, q: seq<Key>, key: Key)
    requires p <= q && key !in p
    ensures p <= Without(q, key)
  {
    if p != [] {
      WithoutPrefix(p[1..], q[1..], key);
      assert Without(q, key) == [q[0]] + Without(q[1..], key);
    }
  }

  lemma {:induction false} StoreOfItems<V>(items: seq<Item<V>>)
    ensures forall k :: k in StoreOf(items) <==> k in Keys(items)
  {
    if items != [] {
      var front := items[..|items| - 1];
      StoreOfItems(front);
      assert Keys(items) == Keys(front) + [items[|items| - 1].key];
    }
  }

  function EventOf<V>(a: Action<V>): EventType
    requires a.Add? || a.Update? || a.Delete?
  {
    match a
    case Add(_, _) => Added
    case Update(_, _) => Modified
    case Delete(_, _) => Deleted
  }

  /** What the producer may say is always a transition the queue knows. */
  lemma LegalIsDone<V>(w: World<V>, a: Action<V>)
    requires Inv(w) && Legal(w, a) && (a.Add? || a.Update? || a.Delete?)
    ensures a.key != "" && Handle(w.q, a.key, a.obj, EventOf(a)).Done?
  {
    assert KeyInv(w, a.key);
  }

  lemma DistinctMore(q: seq<Key>, key: Key)
    requires Distinct(q) && key !in q
    ensures Distinct(q + [key])
  {
  }

  /** What becomes of the queue and the events. */
  lemma HandledIs<V>(s: State<V>, key: Key, obj: V, event: EventType)
    requires Handle(s, key, obj, event).Done?
    ensures var s' := Handle(s, key, obj, event).s;
            && s'.lastReplaceKey == s.lastReplaceKey
            && s'.store == (if event == Deleted then s.store else s.store[key := obj])
            && if key !in s.events then
                 s'.queue == s.queue + [key] && s'.events == s.events[key := event]
               else if s.events[key] == Added && event == Deleted then
                 s'.queue == Without(s.queue, key) && s'.events == s.events - {key}
               else
                 && s'.queue == s.queue && event != Added && s.events[key] != Deleted
                 && s'.events == s.events[key := if event == Deleted then Deleted else s.events[key]]
  {
    hide Without;
  }

  lemma HandlingIs<V>(w: World<V>, key: Key, obj: V, event: EventType)
    requires Handle(w.q, key, obj, event).Done?
    ensures var w' := Handling(w, key, obj, event);
            && w' == w.(q := w'.q, produced := w'.produced, last := w'.last)
            && w'.q == Handle(w.q, key, obj, event).s
            && w'.produced == (if event == Deleted then w.produced - {key} else w.produced[key := obj])
            && w'.last == (if event == Deleted then w.last else w.last[key := obj])
  {
    hide Handle;
  }

  lemma HandleKeepsAligned<V>(s: State<V>, key: Key, obj: V, event: EventType)
    requires Aligned(s) && Handle(s, key, obj, event).Done? && key != ""
    ensures Aligned(Handle(s, key, obj, event).s)
  {
    HandledIs(s, key, obj, event);
    hide Handle, Without;
    if key !in s.events {
      DistinctMore(s.queue, key);
      hide Distinct;
    } else if s.events[key] == Added && event == Deleted {
      WithoutMembers(s.queue, key);
      hide Distinct;
    }
  }

  lemma HandlingKeepsQueue<V>(w: World<V>, key: Key, obj: V, event: EventType)
    requires QueueInv(w) && Handle(w.q, key, obj, event).Done? && key != ""
    ensures QueueInv(Handling(w, key, obj, event))
  {
    HandlingIs(w, key, obj, event);
    HandleKeepsAligned(w.q, key, obj, event);
    hide Handling, Handle, Aligned;
  }

  /** What is left of the list is still there, in front, and none of it is an addition. */
  lemma HandleKeepsPending<V>(s: State<V>, pending: seq<Key>, key: Key, obj: V, event: EventType)
    requires Aligned(s) && pending <= s.queue && Handle(s, key, obj, event).Done?
    requires forall k | k in pending && k in s.events :: s.events[k] != Added
    ensures var s' := Handle(s, key, obj, event).s;
            pending <= s'.queue && forall k | k in pending && k in s'.events :: s'.events[k] != Added
  {
    HandledIs(s, key, obj, event);
    assert forall k | k in pending :: k in s.queue;
    hide Handle, Without, Distinct;
    if key in s.events && s.events[key] == Added && event == Deleted {
      WithoutPrefix(pending, s.queue, key);
    }
  }

  lemma HandlingKeepsList<V>(w: World<V>, key: Key, obj: V, event: EventType)
    requires QueueInv(w) && ListInv(w) && Handle(w.q, key, obj, event).Done?
    ensures ListInv(Handling(w, key, obj, event))
  {
    HandlingIs(w, key, obj, event);
    HandledIs(w.q, key, obj, event);
    assert Pending(Handling(w, key, obj, event)) == Pending(w);
    hide Handling, Handle, Aligned, Pending, Without;
    HandleKeepsPending(w.q, Pending(w), key, obj, event);
  }

  lemma HandlingKeepsOther<V>(w: World<V>, key: Key, obj: V, event: EventType, k: Key)
    requires KeyInv(w, k) && Handle(w.q, key, obj, event).Done? && k != key
    ensures KeyInv(Handling(w, key, obj, event), k)
  {
    HandlingIs(w, key, obj, event);
    HandledIs(w.q, key, obj, event);
    hide Handling, Handle, Without;
  }

  /** The key of what the producer says. */
  lemma HandlingKeepsOwn<V>(w: World<V>, key: Key, obj: V, event: EventType)
    requires KeyInv(w, key) && Handle(w.q, key, obj, event).Done? && key != ""
    requires if event == Added then key !in w.produced else key in w.produced
    requires !w.relisted ==> w.stale == {}
    ensures KeyInv(Handling(w, key, obj, event), key)
  {
    HandlingIs(w, key, obj, event);
    HandledIs(w.q, key, obj, event);
    hide Handling, Handle, Without;
  }

  lemma HandlingKeepsKey<V>(w: World<V>, a: Action<V>, k: Key)
    requires Inv(w) && Legal(w, a) && (a.Add? || a.Update? || a.Delete?)
    requires Handle(w.q, a.key, a.obj, EventOf(a)).Done? && a.key != ""
    ensures KeyInv(Step(w, a), k)
  {
    assert KeyInv(w, a.key) && KeyInv(w, k);
    hide KeyInv, Handling, Handle, ListInv, Aligned;
    if k == a.key {
      HandlingKeepsOwn(w, a.key, a.obj, EventOf(a));
    } else {
      HandlingKeepsOther(w, a.key, a.obj, EventOf(a), k);
    }
  }

  lemma HandlingKeepsInv<V>(w: World<V>, a: Action<V>)
    requires Inv(w) && Legal(w, a) && (a.Add? || a.Update? || a.Delete?)
    ensures Inv(Step(w, a))
  {
    LegalIsDone(w, a);
    hide KeyInv, QueueInv, ListInv, Handling, Handle;
    HandlingKeepsQueue(w, a.key, a.obj, EventOf(a));
    HandlingKeepsList(w, a.key, a.obj, EventOf(a));
    forall k ensures KeyInv(Step(w, a), k) {
      HandlingKeepsKey(w, a, k);
    }
  }

  lemma PopIs<V>(w: World<V>)
    requires CanPop(w.q)
    ensures var d := Popped(w.q);
            Step(w, Pop) == w.(q := AfterPop(w.q), consumed := Apply(w.consumed, d), log := w.log + [d],
                               popped := w.popped + [w.q.queue[0]])
  {
    hide Apply, AfterPop;
  }

  lemma PopKeepsAligned<V>(s: State<V>)
    requires Aligned(s) && CanPop(s)
    ensures Aligned(AfterPop(s))
  {
    assert s.queue == [s.queue[0]] + s.queue[1..];
  }

  lemma PopKeepsQueue<V>(w: World<V>)
    requires QueueInv(w) && CanPop(w.q)
    ensures QueueInv(Step(w, Pop))
  {
    PopIs(w);
    hide Step, Apply, AfterPop, Aligned;
    PopKeepsAligned(w.q);
  }

  /** The first pending key of the list, if any is left, is the one popped. */
  lemma PopPending<V>(w: World<V>, w': World<V>)
    requires ListInv(w) && w.q.queue != [] && w'.listed == w.listed && w'.popped == w.popped + [w.q.queue[0]]
    ensures Pending(w') == if Pending(w) == [] then [] else Pending(w)[1..]
    ensures Pending(w') <= w.q.queue[1..]
    ensures if |w'.popped| <= |w.listed| then w'.popped == w.listed[..|w'.popped|] else w.listed <= w'.popped
  {
    if Pending(w) != [] {
      assert Pending(w)[0] == w.q.queue[0];
    }
  }

  /** The last key of what is left is still that, unless it is the one popped. */
  lemma PopLast(pending: seq<Key>, queue: seq<Key>, last: Key)
    requires Distinct(queue) && "" !in queue && pending <= queue && queue != []
    requires last == if pending == [] then "" else pending[|pending| - 1]
    ensures var rest := if pending == [] then [] else pending[1..];
            (if last == queue[0] then "" else last) == if rest == [] then "" else rest[|rest| - 1]
  {
    if |pending| > 1 {
      assert pending[|pending| - 1] == queue[|pending| - 1];
    }
  }

  lemma PopKeepsList<V>(w: World<V>)
    requires QueueInv(w) && ListInv(w) && CanPop(w.q)
    ensures ListInv(Step(w, Pop))
  {
    hide Step, Pending, Apply, Aligned, CanPop, AfterPop;
    PopIs(w);
    AfterPopIs(w.q);
    var w' := Step(w, Pop);
    PopPending(w, w');
    AlignedIs(w.q);
    PopLast(Pending(w), w.q.queue, w.q.lastReplaceKey);
    PopKeepsEvents(w.q, Pending(w), Pending(w'));
  }

  lemma AlignedIs<V>(s: State<V>)
    requires Aligned(s)
    ensures Distinct(s.queue) && "" !in s.queue
  {
  }

  lemma AfterPopIs<V>(s: State<V>)
    requires CanPop(s)
    ensures var s' := AfterPop(s);
            s.queue != [] && s'.queue == s.queue[1..]
            && s'.lastReplaceKey == if s.lastReplaceKey == s.queue[0] then "" else s.lastReplaceKey
  {
  }

  lemma PopKeepsEvents<V>(s: State<V>, pending: seq<Key>, rest: seq<Key>)
    requires CanPop(s) && rest == if pending == [] then [] else pending[1..]
    requires forall k | k in pending && k in s.events :: s.events[k] != Added
    ensures forall k | k in rest && k in AfterPop(s).events :: AfterPop(s).events[k] != Added
  {
    assert forall k | k in rest :: k in pending;
  }

  /** What stands first in the queue can be popped. */
  lemma HeadCanPop<V>(w: World<V>)
    requires Inv(w) && w.q.queue != []
    ensures CanPop(w.q)
  {
    assert KeyInv(w, w.q.queue[0]);
  }

  lemma PopKeepsKey<V>(w: World<V>, k: Key)
    requires Inv(w) && CanPop(w.q)
    ensures KeyInv(Step(w, Pop), k)
  {
    assert KeyInv(w, w.q.queue[0]) && KeyInv(w, k) && Aligned(w.q) && (!w.relisted ==> w.stale == {});
    hide Step, Inv, Aligned, ListInv;
    PopIs(w);
  }

  lemma PopKeepsInv<V>(w: World<V>)
    requires Inv(w) && Legal(w, Pop)
    ensures CanPop(w.q) && Inv(Step(w, Pop))
  {
    HeadCanPop(w);
    hide KeyInv, QueueInv, ListInv, Step;
    PopKeepsQueue(w);
    PopKeepsList(w);
    PopIs(w);
    forall k ensures KeyInv(Step(w, Pop), k) {
      PopKeepsKey(w, k);
    }
  }

  lemma ReplaceKeepsInv<V>(w: World<V>, items: seq<Item<V>>)
    requires Inv(w) && Legal(w, Replace(items))
    ensures Inv(Step(w, Replace(items)))
  {
    StoreOfItems(items);
    var w' := Step(w, Replace(items));
    assert Pending(w') == Keys(items);
    forall k ensures KeyInv(w', k) {
      assert KeyInv(w, k);
    }
  }

  lemma StepKeepsInv<V>(w: World<V>, a: Action<V>)
    requires Inv(w) && Legal(w, a)
    ensures Inv(Step(w, a))
  {
    hide Inv, Step, Legal;
    match a
    case Replace(items) => ReplaceKeepsInv(w, items);
    case Pop => PopKeepsInv(w);
    case _ => HandlingKeepsInv(w, a);
  }

  lemma {:induction false} RunKeepsInv<V>(w: World<V>, run: seq<Action<V>>)
    requires Inv(w) && LegalRun(w, run)
    ensures Inv(Run(w, run))
    decreases |run|
  {
    hide Inv, Step, Legal;
    if run != [] {
      StepKeepsInv(w, run[0]);
      RunKeepsInv(Step(w, run[0]), run[1..]);
    }
  }

  lemma InitialInv<V>()
    ensures Inv(Initial<V>())
  {
  }

  // What the deliveries mean

  /** The consumer's map once every pending event has reached it. */
  function Settled<V>(w: World<V>): map<Key, V>
    requires w.q.events.Keys <= w.q.store.Keys
  {
    map k | k in w.consumed.Keys + w.q.events.Keys && (k in w.q.events ==> w.q.events[k] != Deleted)
          :: if k in w.q.events then w.q.store[k] else w.consumed[k]
  }

  /** Compressed delivery means the same as the raw stream: what the consumer holds, once the pending
      events reach it, agrees with the producer on every key the producer holds, and any further key is
      one the consumer held when the latest list omitted it. */
  lemma CompressionPreservesMeaning<V>(w: World<V>)
    requires Inv(w)
    ensures w.q.events.Keys <= w.q.store.Keys
    ensures forall k | k in w.produced :: k in Settled(w) && Settled(w)[k] == w.produced[k]
    ensures forall k | k in Settled(w) && k !in w.produced :: k in w.stale
    ensures !w.relisted ==> Settled(w) == w.produced
  {
    forall k | k in w.q.events ensures k in w.q.store {
      assert KeyInv(w, k);
    }
    forall k | k in w.produced ensures k in Settled(w) && Settled(w)[k] == w.produced[k] {
      assert KeyInv(w, k);
    }
    forall k | k in Settled(w) && k !in w.produced ensures k in w.stale {
      assert KeyInv(w, k);
    }
  }

  /** A delivery moves a pending event to the consumer and changes nothing else. */
  lemma PopKeepsSettled<V>(w: World<V>)
    requires Inv(w) && Legal(w, Pop)
    ensures Inv(Step(w, Pop))
    ensures w.q.events.Keys <= w.q.store.Keys && Step(w, Pop).q.events.Keys <= Step(w, Pop).q.store.Keys
    ensures Settled(Step(w, Pop)) == Settled(w)
  {
    hide *;
    PopKeepsInv(w);
    CompressionPreservesMeaning(w);
    CompressionPreservesMeaning(Step(w, Pop));
    PopIs(w);
    PopSettles(w, Step(w, Pop));
  }

  lemma PopSettles<V>(w: World<V>, w': World<V>)
    requires CanPop(w.q) && w'.q == AfterPop(w.q) && w'.consumed == Apply(w.consumed, Popped(w.q))
    requires w.q.events.Keys <= w.q.store.Keys && w'.q.events.Keys <= w'.q.store.Keys
    ensures Settled(w') == Settled(w)
  {
    var key := w.q.queue[0];
    forall k
      ensures k in Settled(w') <==> k in Settled(w)
      ensures k in Settled(w) ==> Settled(w')[k] == Settled(w)[k]
    {
      if k != key {
        assert k in w'.q.events <==> k in w.q.events;
        assert k in w'.consumed <==> k in w.consumed;
      }
    }
  }

  lemma EmptyIsSettled<V>(w: World<V>)
    requires Inv(w) && w.q.queue == []
    ensures w.q.events.Keys <= w.q.store.Keys && Settled(w) == w.consumed
  {
    assert w.q.events.Keys == {} by {
      assert forall k :: k in w.q.events ==> k in w.q.queue;
    }
  }

  /** `n` deliveries in a row. */
  function Deliver<V>(w: World<V>, n: nat): World<V>
    decreases n
  {
    if n == 0 then w else Deliver(Step(w, Pop), n - 1)
  }

  lemma DeliverStep<V>(w: World<V>)
    requires Inv(w) && w.q.queue != []
    ensures |Step(w, Pop).q.queue| < |w.q.queue|
    ensures Deliver(w, |w.q.queue|) == Deliver(Step(w, Pop), |Step(w, Pop).q.queue|)
  {
    hide Inv, Step, CanPop, Apply, AfterPop, Deliver;
    HeadCanPop(w);
    PopIs(w);
    AfterPopIs(w.q);
    DeliverOnce(w, |w.q.queue|);
  }

  lemma DeliverOnce<V>(w: World<V>, n: nat)
    requires n > 0
    ensures Deliver(w, n) == Deliver(Step(w, Pop), n - 1)
  {
    hide Step;
  }

  /** Draining the queue leaves the consumer with exactly that. */
  lemma {:induction false} DrainDelivers<V>(w: World<V>)
    requires Inv(w)
    ensures w.q.events.Keys <= w.q.store.Keys
    ensures Inv(Deliver(w, |w.q.queue|)) && Deliver(w, |w.q.queue|).q.queue == []
    ensures Deliver(w, |w.q.queue|).consumed == Settled(w)
    decreases |w.q.queue|
  {
    if w.q.queue == [] {
      EmptyIsSettled(w);
    } else {
      PopKeepsSettled(w);
      DeliverStep(w);
      DrainDelivers(Step(w, Pop));
    }
  }

  /** `ListConsumed` says exactly that every key of the latest list has been popped. */
  lemma ListGate<V>(w: World<V>)
    requires Inv(w)
    ensures w.q.lastReplaceKey == "" <==> w.listed <= w.popped
    ensures w.q.lastReplaceKey != "" ==> w.listed == w.popped + Pending(w) && Pending(w) <= w.q.queue
  {
    if Pending(w) != [] {
      assert Pending(w)[|Pending(w)| - 1] in w.q.queue;
    }
  }

  /** Every delivery, a deletion included, carries the last state stored for its key. */
  lemma DeliveryCarriesLast<V>(w: World<V>)
    requires Inv(w) && Legal(w, Pop)
    ensures CanPop(w.q)
    ensures var d := Popped(w.q);
            && d.key in w.last && d.obj == w.last[d.key]
            && (d.event == Deleted <==> d.key !in w.produced)
  {
    assert KeyInv(w, w.q.queue[0]);
  }

  /** An event that finds its key queued leaves every key in its place, unless it withdraws its own. */
  lemma CompressionKeepsPlaces<V>(s: State<V>, key: Key, obj: V, event: EventType)
    requires Distinct(s.queue) && (forall k :: k in s.queue <==> k in s.events)
    requires Handle(s, key, obj, event).Done?
    ensures var q := Handle(s, key, obj, event).s.queue;
            if key !in s.events then q == s.queue + [key]
            else if s.events[key] == Added && event == Deleted then q == Without(s.queue, key) && key !in q
            else q == s.queue
  {
    WithoutMembers(s.queue, key);
  }

  /** The panic on an invalid transition is reached exactly by an event that follows a queued deletion, or
      an addition of a key that is queued. */
  lemma PanicsExactly<V>(s: State<V>, key: Key, obj: V, event: EventType)
    ensures Handle(s, key, obj, event).InvalidTransition?
         <==> key in s.events && (s.events[key] == Deleted || event == Added)
  {
  }

  /** Where a key stands after a run of deliveries of the form (Added Modified* Deleted)*. */
  datatype Phase = Absent | Present | Broken

  function After<V>(before: Phase, d: Delivery<V>, key: Key): Phase {
    if d.key != key then before
    else
      match (before, d.event)
      case (Absent, Added) => Present
      case (Present, Modified) => Present
      case (Present, Deleted) => Absent
      case _ => Broken
  }

  function PhaseOf<V>(log: seq<Delivery<V>>, key: Key): Phase {
    if log == [] then Absent else After(PhaseOf(log[..|log| - 1], key), log[|log| - 1], key)
  }

  function Replay<V>(log: seq<Delivery<V>>): map<Key, V> {
    if log == [] then map[] else Apply(Replay(log[..|log| - 1]), log[|log| - 1])
  }

  ghost predicate LogInv<V>(w: World<V>) {
    && w.consumed == Replay(w.log)
    && (!w.relisted ==> forall k :: PhaseOf(w.log, k) == if k in w.consumed then Present else Absent)
  }

  lemma PopKeepsLog<V>(w: World<V>)
    requires Inv(w) && LogInv(w) && Legal(w, Pop)
    ensures LogInv(Step(w, Pop))
  {
    HeadCanPop(w);
    PopIs(w);
    hide Inv, Step, Replay, PhaseOf, Apply;
    var w', d := Step(w, Pop), Popped(w.q);
    LogMore(w.log, d);
    forall k | !w.relisted ensures PhaseOf(w'.log, k) == if k in w'.consumed then Present else Absent {
      PopPhase(w, d, k);
    }
  }

  /** Without a list, a delivery takes its key to the phase that the consumer's map then shows. */
  lemma PopPhase<V>(w: World<V>, d: Delivery<V>, k: Key)
    requires Inv(w) && CanPop(w.q) && d == Popped(w.q) && !w.relisted
    requires PhaseOf(w.log, k) == if k in w.consumed then Present else Absent
    ensures PhaseOf(w.log + [d], k) == if k in Apply(w.consumed, d) then Present else Absent
  {
    assert KeyInv(w, d.key) && w.stale == {};
    hide Inv, PhaseOf, AfterPop;
    PhaseMore(w.log, d, k);
  }

  lemma LogMore<V>(log: seq<Delivery<V>>, d: Delivery<V>)
    ensures Replay(log + [d]) == Apply(Replay(log), d)
  {
    assert (log + [d])[..|log|] == log;
  }

  lemma PhaseMore<V>(log: seq<Delivery<V>>, d: Delivery<V>, key: Key)
    ensures PhaseOf(log + [d], key) == After(PhaseOf(log, key), d, key)
  {
    assert (log + [d])[..|log|] == log;
  }

  lemma StepKeepsLog<V>(w: World<V>, a: Action<V>)
    requires Inv(w) && LogInv(w) && Legal(w, a)
    ensures LogInv(Step(w, a))
  {
    hide Inv, PhaseOf, Replay;
    if a == Pop {
      PopKeepsLog(w);
    } else {
      OtherKeepsLog(w, a);
    }
  }

  lemma OtherKeepsLog<V>(w: World<V>, a: Action<V>)
    requires Legal(w, a) && a != Pop
    ensures Step(w, a).log == w.log && Step(w, a).consumed == w.consumed && (w.relisted ==> Step(w, a).relisted)
    ensures !a.Replace? ==> Step(w, a).relisted == w.relisted
  {
    hide Handle, AfterReplace, StoreOf;
  }

  lemma StepKeepsRelisted<V>(w: World<V>, a: Action<V>)
    requires Inv(w) && Legal(w, a)
    ensures !a.Replace? ==> Step(w, a).relisted == w.relisted
  {
    if a == Pop {
      HeadCanPop(w);
      PopIs(w);
    } else {
      OtherKeepsLog(w, a);
    }
    hide *;
  }

  lemma {:induction false} RunKeepsLog<V>(w: World<V>, run: seq<Action<V>>)
    requires Inv(w) && LogInv(w) && LegalRun(w, run)
    ensures LogInv(Run(w, run))
    ensures (forall a | a in run :: !a.Replace?) ==> Run(w, run).relisted == w.relisted
    decreases |run|
  {
    hide Inv, LogInv, Step, Legal;
    if run != [] {
      StepKeepsInv(w, run[0]);
      StepKeepsLog(w, run[0]);
      StepKeepsRelisted(w, run[0]);
      assert run[0] in run && forall a | a in run[1..] :: a in run;
      RunKeepsLog(Step(w, run[0]), run[1..]);
    }
  }

  /** Over every run of a legal producer and any consumer: no panic is reached, the consumer's map is what
      its deliveries say, together with the pending ones it agrees with the producer, and without a list
      the deliveries of each key form (Added Modified* Deleted)*. */
  lemma EveryRun<V>(run: seq<Action<V>>)
    requires LegalRun(Initial<V>(), run)
    ensures var w := Run(Initial<V>(), run);
            && !w.panicked
            && w.consumed == Replay(w.log)
            && w.q.events.Keys <= w.q.store.Keys
            && (forall k | k in w.produced :: k in Settled(w) && Settled(w)[k] == w.produced[k])
            && (forall k | k in Settled(w) && k !in w.produced :: k in w.stale)
            && (w.q.lastReplaceKey == "" <==> w.listed <= w.popped)
    ensures var w := Run(Initial<V>(), run);
            (forall a | a in run :: !a.Replace?) ==>
            && Settled(w) == w.produced
            && forall k :: PhaseOf(w.log, k) != Broken && (PhaseOf(w.log, k) == Present <==> k in w.consumed)
  {
    RunKeepsInv(Initial<V>(), run);
    RunKeepsLog(Initial<V>(), run);
    CompressionPreservesMeaning(Run(Initial<V>(), run));
    var w := Run(Initial<V>(), run);
    ListGate(w);
    assert !w.panicked && LogInv(w);
    assert forall a | a in run && a.Replace? :: a in run;
    hide Inv, Settled, Replay, PhaseOf, Run;
  }
}
