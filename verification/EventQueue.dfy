/** The event queue between a reflector and a consumer (`util/cache/eventqueue.go`).

  `State` is the queue's fields as a value; the functions on it specify the methods of `EventQueue`.
  Every method of the source runs under one lock, so a run is a sequence of whole calls. */
module EventQueue {
  type Key = string

  datatype EventType = Added | Modified | Deleted

  datatype Effect = Enqueue | Compress | Withdraw

  datatype Option<+T> = None | Some(value: T)

  /** `watchEventEffectMatrix`; no entry means an invalid transition. */
  function EffectOf(queued: EventType, event: EventType): Option<Effect> {
    match (queued, event)
    case (Added, Modified) => Some(Compress)
    case (Added, Deleted) => Some(Withdraw)
    case (Modified, Modified) => Some(Compress)
    case (Modified, Deleted) => Some(Compress)
    case _ => None
  }

  /** `watchEventCompressionMatrix`. */
  function CompressionOf(queued: EventType, event: EventType): Option<EventType> {
    match (queued, event)
    case (Added, Modified) => Some(Added)
    case (Modified, Modified) => Some(Modified)
    case (Modified, Deleted) => Some(Deleted)
    case _ => None
  }

  datatype State<V> = State(events: map<Key, EventType>, queue: seq<Key>, store: map<Key, V>, lastReplaceKey: Key)

  /** `queueWithout`. */
  function Without(q: seq<Key>, key: Key): seq<Key> {
    if q == [] then [] else (if q[0] == key then [] else [q[0]]) + Without(q[1..], key)
  }

  lemma WithoutFrom(before: seq<Key>, q: seq<Key>, i: nat, key: Key)
    requires i < |q|
    ensures before + Without(q[i..], key)
         == (if q[i] == key then before else before + [q[i]]) + Without(q[i + 1..], key)
  {
    assert q[i..][1..] == q[i + 1..];
    var rest := Without(q[i + 1..], key);
    hide Without;
    assert before + ([q[i]] + rest) == before + [q[i]] + rest;
  }

  datatype Handled<V> = Done(s: State<V>) | InvalidTransition

  /** `handleEvent`; `obj` is not looked at for a deletion. */
  function Handle<V>(s: State<V>, key: Key, obj: V, event: EventType): Handled<V> {
    var effect := if key in s.events then EffectOf(s.events[key], event) else Some(Enqueue);
    if effect.None? then InvalidTransition
    else
      var s' := if event == Deleted then s else s.(store := s.store[key := obj]);
      match effect.value
      case Enqueue => Done(s'.(events := s.events[key := event], queue := s.queue + [key]))
      case Compress =>
        (match CompressionOf(s.events[key], event)
         case None => InvalidTransition
         case Some(t) => Done(s'.(events := s.events[key := t])))
      case Withdraw => Done(s'.(events := s.events - {key}, queue := Without(s.queue, key)))
  }

  datatype Delivery<V> = Delivery(event: EventType, key: Key, obj: V)

  /** Whether `Pop` finds what it looks up. */
  predicate CanPop<V>(s: State<V>) {
    s.queue != [] && s.queue[0] in s.events && s.queue[0] in s.store
  }

  function Popped<V>(s: State<V>): Delivery<V>
    requires CanPop(s)
  {
    Delivery(s.events[s.queue[0]], s.queue[0], s.store[s.queue[0]])
  }

  function AfterPop<V>(s: State<V>): State<V>
    requires CanPop(s)
  {
    var key := s.queue[0];
    State(s.events - {key},
          s.queue[1..],
          if s.events[key] == Deleted then s.store - {key} else s.store,
          if s.lastReplaceKey == key then "" else s.lastReplaceKey)
  }

  datatype Item<V> = Item(key: Key, obj: V)

  function Keys<V>(items: seq<Item<V>>): seq<Key> {
    seq(|items|, i requires 0 <= i < |items| => items[i].key)
  }

  predicate Distinct(keys: seq<Key>) {
    forall i, j | 0 <= i < j < |keys| :: keys[i] != keys[j]
  }

  /** What a store holds after it was replaced. */
  function StoreOf<V>(items: seq<Item<V>>): map<Key, V> {
    if items == [] then map[] else StoreOf(items[..|items| - 1])[items[|items| - 1].key := items[|items| - 1].obj]
  }

  function AfterReplace<V>(items: seq<Item<V>>): State<V> {
    var keys := Keys(items);
    State(map k | k in keys :: Modified, keys, StoreOf(items), if keys == [] then "" else keys[|keys| - 1])
  }

  class EventQueue<V> {
    var events: map<Key, EventType>
    var queue: seq<Key>
    var store: map<Key, V>
    var lastReplaceKey: Key

    constructor ()
      ensures Value() == State(map[], [], map[], "")
    {
      events, queue, store, lastReplaceKey := map[], [], map[], "";
    }

    function Value(): State<V>
      reads this
    {
      State(events, queue, store, lastReplaceKey)
    }

    /** `handleEvent`; false stands for the panic on an invalid transition. */
    method HandleEvent(key: Key, obj: V, event: EventType) returns (ok: bool)
      modifies this
      ensures ok == Handle(old(Value()), key, obj, event).Done?
      ensures Value() == if ok then Handle(old(Value()), key, obj, event).s else old(Value())
    {
      var queued := if key in events then Some(events[key]) else None;
      var effect := Some(Enqueue);
      if queued.Some? {
        effect := EffectOf(queued.value, event);
        if effect.None? {
          return false;
        }
      }
      if event != Deleted {
        store := store[key := obj];
      }
      match effect.value {
        case Enqueue =>
          events := events[key := event];
          queue := queue + [key];
        case Compress =>
          var t := CompressionOf(queued.value, event);
          events := events[key := t.value];
        case Withdraw =>
          events := events - {key};
          queue := QueueWithout(key);
      }
      ok := true;
    }

    method QueueWithout(key: Key) returns (rq: seq<Key>)
      ensures rq == Without(queue, key)
    {
      rq := [];
      var i := 0;
      assert queue[0..] == queue && Without([], key) == [];
      hide Without;
      while i < |queue|
        invariant 0 <= i <= |queue| && rq + Without(queue[i..], key) == Without(queue, key)
      {
        WithoutFrom(rq, queue, i, key);
        if queue[i] != key {
          rq := rq + [queue[i]];
        }
        i := i + 1;
      }
    }

    /** `Pop` once the queue is not empty. */
    method Pop() returns (d: Delivery<V>)
      requires CanPop(Value())
      modifies this
      ensures d == Popped(old(Value())) && Value() == AfterPop(old(Value()))
    {
      var key := queue[0];
      queue := queue[1..];
      var event := events[key];
      events := events - {key};
      if lastReplaceKey != "" && lastReplaceKey == key {
        lastReplaceKey := "";
      }
      d := Delivery(event, key, store[key]);
      if event == Deleted {
        store := store - {key};
      }
    }

    method Replace(items: seq<Item<V>>)
      modifies this
      ensures Value() == AfterReplace(items)
    {
      events, queue := map[], [];
      var i := 0;
      while i < |items|
        invariant 0 <= i <= |items|
        invariant queue == Keys(items[..i]) && events == map k | k in queue :: Modified
      {
        assert Keys(items[..i + 1]) == Keys(items[..i]) + [items[i].key];
        queue := queue + [items[i].key];
        events := events[items[i].key := Modified];
        i := i + 1;
      }
      assert items[..i] == items;
      store := StoreOf(items);
      if |queue| > 0 {
        lastReplaceKey := queue[|queue| - 1];
      } else {
        lastReplaceKey := "";
      }
    }

    method ListConsumed() returns (b: bool)
      ensures b <==> Value().lastReplaceKey == ""
    {
      b := lastReplaceKey == "";
    }
  }
}
