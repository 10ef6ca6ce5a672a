/** The token bucket (`juju/ratelimit`), with debt and rounding up.

  Times are counted from the bucket's creation, in nanoseconds; integers do not overflow here. */
module TokenBucket {
  datatype Config = Config(capacity: int, quantum: int, fillInterval: int)

  /** What the constructor does not panic on. */
  predicate ValidConfig(c: Config) {
    c.capacity > 0 && c.quantum > 0 && c.fillInterval > 0
  }

  datatype State = State(avail: int, availTick: int)

  function Min(a: int, b: int): int {
    if a <= b then a else b
  }

  function Tick(c: Config, now: int): int
    requires ValidConfig(c) && now >= 0
  {
    now / c.fillInterval
  }

  /** What a number of ticks fills. */
  function Tokens(c: Config, ticks: int): int {
    ticks * c.quantum
  }

  function Adjusted(c: Config, s: State, now: int): State
    requires ValidConfig(c) && now >= 0
  {
    if s.avail >= c.capacity then s
    else State(Min(s.avail + Tokens(c, Tick(c, now) - s.availTick), c.capacity), Tick(c, now))
  }

  /** The outcome of `take`: the wait, or a refusal that takes nothing. */
  datatype Taken = Wait(time: int) | TooLong

  /** The tick at which a bucket left with `avail` tokens, a debt, has them. */
  function EndTick(c: Config, avail: int, now: int): int
    requires ValidConfig(c) && now >= 0
  {
    Tick(c, now) + (-avail + c.quantum - 1) / c.quantum
  }

  class Bucket {
    const c: Config
    var avail: int
    var availTick: int

    constructor (c: Config)
      requires ValidConfig(c)
      ensures this.c == c && Value() == State(c.capacity, 0)
    {
      this.c := c;
      avail, availTick := c.capacity, 0;
    }

    function Value(): State
      reads this
    {
      State(avail, availTick)
    }

    method Adjust(now: int) returns (currentTick: int)
      requires ValidConfig(c) && now >= 0
      modifies this
      ensures currentTick == Tick(c, now) && Value() == Adjusted(c, old(Value()), now)
    {
      currentTick := now / c.fillInterval;
      if avail >= c.capacity {
        return;
      }
      avail := avail + (currentTick - availTick) * c.quantum;
      if avail > c.capacity {
        avail := c.capacity;
      }
      availTick := currentTick;
    }

    method Take(now: int, count: int, maxWait: int) returns (r: Taken)
      requires ValidConfig(c) && now >= 0
      modifies this
      ensures Value() == AfterTake(c, old(Value()), now, count, maxWait).0
      ensures r == AfterTake(c, old(Value()), now, count, maxWait).1
    {
      if count <= 0 {
        return Wait(0);
      }
      var currentTick := Adjust(now);
      var left := avail - count;
      if left >= 0 {
        avail := left;
        return Wait(0);
      }
      var endTick := currentTick + (-left + c.quantum - 1) / c.quantum;
      var waitTime := endTick * c.fillInterval - now;
      if waitTime > maxWait {
        return TooLong;
      }
      avail := left;
      return Wait(waitTime);
    }

    method TakeAvailable(now: int, count: int) returns (n: int)
      requires ValidConfig(c) && now >= 0
      modifies this
      ensures Value() == AfterTakeAvailable(c, old(Value()), now, count).0
      ensures n == AfterTakeAvailable(c, old(Value()), now, count).1
    {
      if count <= 0 {
        return 0;
      }
      var _ := Adjust(now);
      if avail <= 0 {
        return 0;
      }
      n := if count > avail then avail else count;
      avail := avail - n;
    }
  }

  function AfterTake(c: Config, s: State, now: int, count: int, maxWait: int): (State, Taken)
    requires ValidConfig(c) && now >= 0
  {
    if count <= 0 then (s, Wait(0))
    else
      var s' := Adjusted(c, s, now);
      var left := s'.avail - count;
      if left >= 0 then (s'.(avail := left), Wait(0))
      else
        var wait := EndTick(c, left, now) * c.fillInterval - now;
        if wait > maxWait then (s', TooLong) else (s'.(avail := left), Wait(wait))
  }

  function AfterTakeAvailable(c: Config, s: State, now: int, count: int): (State, int)
    requires ValidConfig(c) && now >= 0
  {
    if count <= 0 then (s, 0)
    else
      var s' := Adjusted(c, s, now);
      if s'.avail <= 0 then (s', 0)
      else
        var n := if count > s'.avail then s'.avail else count;
        (s'.(avail := s'.avail - n), n)
  }

  // Runs

  datatype Call = Take(now: int, count: int, maxWait: int) | TakeAvailable(now: int, count: int)

  /** A bucket with the tokens granted so far, and the time of its last call. */
  datatype Run = Run(s: State, granted: int, clock: int)

  function Granted(c: Config, s: State, call: Call): int
    requires ValidConfig(c) && call.now >= 0
  {
    match call
    case Take(now, count, maxWait) => if count > 0 && AfterTake(c, s, now, count, maxWait).1.Wait? then count else 0
    case TakeAvailable(now, count) => AfterTakeAvailable(c, s, now, count).1
  }

  function StateAfter(c: Config, s: State, call: Call): State
    requires ValidConfig(c) && call.now >= 0
  {
    match call
    case Take(now, count, maxWait) => AfterTake(c, s, now, count, maxWait).0
    case TakeAvailable(now, count) => AfterTakeAvailable(c, s, now, count).0
  }

  /** Calls at times that do not go back. */
  predicate Monotone(clock: int, calls: seq<Call>)
    decreases |calls|
  {
    calls != [] ==> clock <= calls[0].now && Monotone(calls[0].now, calls[1..])
  }

  function RunCalls(c: Config, r: Run, calls: seq<Call>): Run
    requires ValidConfig(c) && 0 <= r.clock && Monotone(r.clock, calls)
    decreases |calls|
  {
    if calls == [] then r
    else
      var call := calls[0];
      RunCalls(c, Run(StateAfter(c, r.s, call), r.granted + Granted(c, r.s, call), call.now), calls[1..])
  }

  function NewRun(c: Config): Run {
    Run(State(c.capacity, 0), 0, 0)
  }

  /** Grants and what is available stay within the capacity and the ticks filled since tick `base`. */
  predicate Bounded(c: Config, base: int, granted: int, s: State) {
    s.avail <= c.capacity && granted + s.avail <= c.capacity + Tokens(c, s.availTick - base)
  }

  predicate Inv(c: Config, r: Run) {
    && ValidConfig(c) && 0 <= r.clock
    && 0 <= r.s.availTick <= Tick(c, r.clock)
    && Bounded(c, 0, r.granted, r.s)
  }

  lemma TickMonotone(c: Config, a: int, b: int)
    requires ValidConfig(c) && 0 <= a <= b
    ensures 0 <= Tick(c, a) <= Tick(c, b)
  {
    Divides(a, c.fillInterval);
    Divides(b, c.fillInterval);
    if Tick(c, b) < Tick(c, a) {
      Scaled(Tick(c, b) + 1, Tick(c, a), c.fillInterval);
    }
  }

  lemma Divides(a: int, d: int)
    requires 0 <= a && 0 < d
    ensures 0 <= a / d && a / d * d <= a < (a / d + 1) * d
  {
  }

  lemma Scaled(a: int, b: int, m: int)
    requires a <= b && 0 <= m
    ensures a * m <= b * m
  {
    assert b * m == a * m + (b - a) * m;
  }

  lemma TokensAdd(c: Config, a: int, b: int)
    ensures Tokens(c, a + b) == Tokens(c, a) + Tokens(c, b)
  {
  }

  lemma TokensGrow(c: Config, a: int)
    requires ValidConfig(c)
    ensures a >= 0 ==> Tokens(c, a) >= a
    ensures a == 0 ==> Tokens(c, a) == 0
  {
    if a >= 0 {
      Scaled(1, c.quantum, a);
    }
  }

  lemma AdjustKeepsBound(c: Config, base: int, granted: int, s: State, now: int)
    requires ValidConfig(c) && now >= 0 && s.availTick <= Tick(c, now) && Bounded(c, base, granted, s)
    ensures Bounded(c, base, granted, Adjusted(c, s, now)) && Adjusted(c, s, now).avail >= s.avail
    ensures s.availTick <= Adjusted(c, s, now).availTick <= Tick(c, now)
  {
    TokensAdd(c, s.availTick - base, Tick(c, now) - s.availTick);
    TokensGrow(c, Tick(c, now) - s.availTick);
    hide Tokens, Tick;
  }

  lemma CallKeepsInv(c: Config, r: Run, call: Call)
    requires Inv(c, r) && r.clock <= call.now
    ensures Inv(c, Run(StateAfter(c, r.s, call), r.granted + Granted(c, r.s, call), call.now))
  {
    TickMonotone(c, r.clock, call.now);
    AdjustKeepsBound(c, 0, r.granted, r.s, call.now);
    hide Tokens, Tick, Adjusted, EndTick;
  }

  lemma {:induction false} RunKeepsInv(c: Config, r: Run, calls: seq<Call>)
    requires Inv(c, r) && Monotone(r.clock, calls)
    ensures Inv(c, RunCalls(c, r, calls)) && r.clock <= RunCalls(c, r, calls).clock
    decreases |calls|
  {
    assert ValidConfig(c) && 0 <= r.clock;
    hide Inv, StateAfter, Granted;
    if calls != [] {
      var call := calls[0];
      CallKeepsInv(c, r, call);
      RunKeepsInv(c, Run(StateAfter(c, r.s, call), r.granted + Granted(c, r.s, call), call.now), calls[1..]);
    }
  }

  lemma NewRunInv(c: Config)
    requires ValidConfig(c)
    ensures Inv(c, NewRun(c))
  {
  }

  lemma InvBound(c: Config, r: Run)
    requires Inv(c, r)
    ensures 0 <= r.clock && r.s.avail <= c.capacity
    ensures r.granted + r.s.avail <= c.capacity + c.quantum * r.s.availTick
    ensures r.s.avail >= 0 ==> r.granted <= c.capacity + c.quantum * Tick(c, r.clock)
  {
    Scaled(r.s.availTick, Tick(c, r.clock), c.quantum);
    hide Tick;
  }

  /** Over every run, what was granted and what is available stay within the capacity and the ticks the
      bucket has been filled for; so what was granted without leaving a debt is within the capacity and
      the ticks since creation. */
  lemma CumulativeBound(c: Config, calls: seq<Call>)
    requires ValidConfig(c) && Monotone(0, calls)
    ensures var r := RunCalls(c, NewRun(c), calls);
            && 0 <= r.clock
            && r.granted + r.s.avail <= c.capacity + c.quantum * r.s.availTick
            && (r.s.avail >= 0 ==> r.granted <= c.capacity + c.quantum * Tick(c, r.clock))
  {
    NewRunInv(c);
    RunKeepsInv(c, NewRun(c), calls);
    InvBound(c, RunCalls(c, NewRun(c), calls));
  }

  /** A grant with a wait is covered when the wait is over: everything granted so far, this grant included,
      is within the capacity and the ticks reached by then. */
  lemma WaitCovers(c: Config, calls: seq<Call>, now: int, count: int, maxWait: int)
    requires ValidConfig(c) && Monotone(0, calls)
    requires RunCalls(c, NewRun(c), calls).clock <= now && 0 <= RunCalls(c, NewRun(c), calls).clock && count > 0
    requires AfterTake(c, RunCalls(c, NewRun(c), calls).s, now, count, maxWait).1.Wait?
    ensures var r := RunCalls(c, NewRun(c), calls);
            var wait := AfterTake(c, r.s, now, count, maxWait).1.time;
            && 0 <= now + wait
            && r.granted + count <= c.capacity + c.quantum * Tick(c, now + wait)
  {
    NewRunInv(c);
    RunKeepsInv(c, NewRun(c), calls);
    WaitCoversFrom(c, RunCalls(c, NewRun(c), calls), now, count, maxWait);
  }

  lemma WaitCoversFrom(c: Config, r: Run, now: int, count: int, maxWait: int)
    requires Inv(c, r) && r.clock <= now && count > 0 && AfterTake(c, r.s, now, count, maxWait).1.Wait?
    ensures var wait := AfterTake(c, r.s, now, count, maxWait).1.time;
            && 0 <= now + wait
            && r.granted + count <= c.capacity + c.quantum * Tick(c, now + wait)
  {
    TickMonotone(c, r.clock, now);
    AdjustKeepsBound(c, 0, r.granted, r.s, now);
    var s := Adjusted(c, r.s, now);
    var end := if s.avail >= count then Tick(c, now) else EndTick(c, s.avail - count, now);
    if s.avail < count {
      EndTickCovers(c, s.avail - count, now);
      MultipleTick(c, end);
      TokensAdd(c, Tick(c, now), end - Tick(c, now));
    } else {
      TokensGrow(c, 0);
    }
    TokensAdd(c, s.availTick, Tick(c, now) - s.availTick);
    TokensGrow(c, Tick(c, now) - s.availTick);
    assert Tokens(c, end) == c.quantum * end;
    hide Tokens, Tick, Adjusted, EndTick;
  }

  /** By its end tick a debt is filled. */
  lemma EndTickCovers(c: Config, avail: int, now: int)
    requires ValidConfig(c) && now >= 0 && avail < 0
    ensures EndTick(c, avail, now) >= Tick(c, now) >= 0
    ensures Tokens(c, EndTick(c, avail, now) - Tick(c, now)) >= -avail
  {
    TickMonotone(c, now, now);
    RoundUp(-avail, c.quantum);
    hide Tick;
  }

  lemma RoundUp(a: int, q: int)
    requires 0 < a && 0 < q
    ensures (a + q - 1) / q >= 0 && (a + q - 1) / q * q >= a
  {
    Divides(a + q - 1, q);
    assert ((a + q - 1) / q + 1) * q == (a + q - 1) / q * q + q;
  }

  lemma MultipleTick(c: Config, n: int)
    requires ValidConfig(c) && 0 <= n
    ensures n * c.fillInterval >= 0 && Tick(c, n * c.fillInterval) == n
  {
    Scaled(0, n, c.fillInterval);
    Quotient(n, c.fillInterval);
  }

  lemma Quotient(n: int, d: int)
    requires 0 <= n && 0 < d
    ensures n * d / d == n
  {
    Scaled(0, n, d);
    Divides(n * d, d);
    var q := n * d / d;
    assert (n + 1) * d == n * d + d;
    if q < n {
      Scaled(q + 1, n, d);
    } else if n < q {
      Scaled(n + 1, q, d);
    }
  }

  // Windows

  /** What the calls of a window that starts at `now` are granted, from a bucket in state `s`. */
  function Window(c: Config, s: State, now: int, calls: seq<Call>): Run
    requires ValidConfig(c) && 0 <= now && Monotone(now, calls)
  {
    RunCalls(c, Run(s, 0, now), calls)
  }

  /** Unless they leave a debt, the calls are granted no more than the capacity and the ticks that passed. */
  predicate WithinWindow(c: Config, s: State, now: int, calls: seq<Call>)
    requires ValidConfig(c) && 0 <= now && Monotone(now, calls)
  {
    var r := Window(c, s, now, calls);
    r.clock >= now && (r.s.avail >= 0 ==> r.granted <= c.capacity + c.quantum * (Tick(c, r.clock) - Tick(c, now)))
  }

  /** The invariant of a window whose first tick is `base`: the bound holds of the bucket as it would be now. */
  predicate WindowInv(c: Config, base: int, r: Run) {
    && ValidConfig(c) && 0 <= r.clock && base <= Tick(c, r.clock) && r.s.availTick <= Tick(c, r.clock)
    && Bounded(c, base, r.granted, Adjusted(c, r.s, r.clock))
  }

  /** As the clock goes on the bound goes on to hold. */
  lemma LaterKeepsBound(c: Config, base: int, r: Run, now: int)
    requires WindowInv(c, base, r) && r.clock <= now
    ensures WindowInv(c, base, r.(clock := now))
  {
    TickMonotone(c, r.clock, now);
    var a, b, t := Tick(c, r.clock), Tick(c, now), r.s.availTick;
    TokensAdd(c, a - t, b - a);
    TokensAdd(c, a - base, b - a);
    TokensGrow(c, b - a);
    assert a - t + (b - a) == b - t && a - base + (b - a) == b - base;
    hide Tokens, Tick;
  }

  lemma CallKeepsWindow(c: Config, base: int, r: Run, call: Call)
    requires WindowInv(c, base, r) && r.clock <= call.now
    ensures WindowInv(c, base, Run(StateAfter(c, r.s, call), r.granted + Granted(c, r.s, call), call.now))
  {
    LaterKeepsBound(c, base, r, call.now);
    TickMonotone(c, r.clock, call.now);
    var s, n := StateAfter(c, r.s, call), Granted(c, r.s, call);
    CallIs(c, r.s, call);
    hide StateAfter, Granted, Tokens, Tick;
    if call.count > 0 {
      var full := Adjusted(c, r.s, call.now);
      assert Bounded(c, base, r.granted + n, s);
      hide Bounded, Adjusted;
      AdjustKeepsBound(c, base, r.granted + n, s, call.now);
    }
  }

  /** A call takes what it grants from the adjusted bucket, and one for nothing leaves it alone. */
  lemma CallIs(c: Config, s: State, call: Call)
    requires ValidConfig(c) && call.now >= 0
    ensures Granted(c, s, call) >= 0
    ensures call.count <= 0 ==> StateAfter(c, s, call) == s && Granted(c, s, call) == 0
    ensures call.count > 0 ==>
              var full := Adjusted(c, s, call.now);
              StateAfter(c, s, call) == full.(avail := full.avail - Granted(c, s, call))
  {
    hide Adjusted, EndTick;
  }

  lemma {:induction false} RunKeepsWindow(c: Config, base: int, r: Run, calls: seq<Call>)
    requires WindowInv(c, base, r) && Monotone(r.clock, calls)
    ensures WindowInv(c, base, RunCalls(c, r, calls)) && r.clock <= RunCalls(c, r, calls).clock
    decreases |calls|
  {
    assert ValidConfig(c) && 0 <= r.clock;
    hide WindowInv, StateAfter, Granted;
    if calls != [] {
      var call := calls[0];
      CallKeepsWindow(c, base, r, call);
      RunKeepsWindow(c, base, Run(StateAfter(c, r.s, call), r.granted + Granted(c, r.s, call), call.now), calls[1..]);
    }
  }

  /** From a bucket whose tick has come to the window's start every window is within its bound. */
  lemma WindowIsBounded(c: Config, s: State, now: int, calls: seq<Call>)
    requires ValidConfig(c) && 0 <= now && Monotone(now, calls)
    requires s.avail <= c.capacity && s.availTick <= Tick(c, now) && Adjusted(c, s, now).availTick == Tick(c, now)
    ensures WithinWindow(c, s, now, calls)
  {
    var base := Tick(c, now);
    TokensGrow(c, 0);
    assert WindowInv(c, base, Run(s, 0, now)) by {
      hide Tokens, Tick;
    }
    RunKeepsWindow(c, base, Run(s, 0, now), calls);
    var r := Window(c, s, now, calls);
    if r.s.avail >= 0 {
      WindowEnds(c, base, r);
    }
    hide Tick, Tokens, RunCalls, WindowInv;
  }

  lemma WindowEnds(c: Config, base: int, r: Run)
    requires WindowInv(c, base, r) && r.s.avail >= 0
    ensures r.granted <= c.capacity + c.quantum * (Tick(c, r.clock) - base)
  {
    var full, tick := Adjusted(c, r.s, r.clock), Tick(c, r.clock);
    TokensAdd(c, full.availTick - base, tick - full.availTick);
    TokensGrow(c, tick - full.availTick);
    TokensGrow(c, tick - r.s.availTick);
    assert Tokens(c, tick - base) == c.quantum * (tick - base);
    hide Tick, Tokens;
  }

  /** From a full bucket whose tick stands still the capacity and one more are granted at one instant. */
  lemma StaleWindow(c: Config, s: State, now: int) returns (calls: seq<Call>)
    requires ValidConfig(c) && 0 <= now && s.avail == c.capacity && s.availTick < Tick(c, now)
    ensures Monotone(now, calls) && !WithinWindow(c, s, now, calls)
  {
    var first, second := TakeAvailable(now, c.capacity), TakeAvailable(now, 1);
    calls := [first, second];
    assert calls[1..] == [second] && [second][1..] == [];
    TokensGrow(c, Tick(c, now) - s.availTick);
    var r := Run(State(0, s.availTick), c.capacity, now);
    assert Monotone(now, [second]);
    var s2 := Adjusted(c, r.s, now);
    hide Tokens, Tick;
    assert s2.avail >= 1;
    assert RunCalls(c, Run(s, 0, now), calls) == RunCalls(c, r, [second]);
    assert RunCalls(c, r, [second]) == RunCalls(c, Run(s2.(avail := s2.avail - 1), c.capacity + 1, now), []);
    assert c.quantum * (Tick(c, now) - Tick(c, now)) == 0;
  }

  /** Over a sliding window the bound holds exactly if the bucket's tick is the current one once it is
      adjusted at the window's start: the tick of a bucket that is full before that stands still. */
  lemma WindowBoundExactly(c: Config, calls: seq<Call>, now: int)
    requires ValidConfig(c) && Monotone(0, calls)
    requires 0 <= RunCalls(c, NewRun(c), calls).clock <= now
    ensures var s := RunCalls(c, NewRun(c), calls).s;
            (forall more | Monotone(now, more) :: WithinWindow(c, s, now, more))
            <==> Adjusted(c, s, now).availTick == Tick(c, now)
  {
    var r := RunCalls(c, NewRun(c), calls);
    NewRunInv(c);
    RunKeepsInv(c, NewRun(c), calls);
    TickMonotone(c, r.clock, now);
    InvBound(c, r);
    hide Tick, Tokens, RunCalls, WithinWindow, Bounded;
    if Adjusted(c, r.s, now).availTick == Tick(c, now) {
      forall more | Monotone(now, more) ensures WithinWindow(c, r.s, now, more) {
        WindowIsBounded(c, r.s, now, more);
      }
    } else {
      var more := StaleWindow(c, r.s, now);
    }
  }

  /** So a bucket that was idle for the ticks that fill it, or more, grants its capacity twice at one instant. */
  lemma WindowIsNotBounded(c: Config, idle: nat)
    requires ValidConfig(c) && c.capacity <= idle * c.quantum
    ensures var now := idle * c.fillInterval;
            && now >= 0
            && Monotone(0, [TakeAvailable(now, c.capacity), TakeAvailable(now, c.capacity)])
            && RunCalls(c, NewRun(c), [TakeAvailable(now, c.capacity), TakeAvailable(now, c.capacity)]).granted
               == 2 * c.capacity
  {
    var now := idle * c.fillInterval;
    MultipleTick(c, idle);
    var call := TakeAvailable(now, c.capacity);
    var r1 := Run(State(0, 0), c.capacity, now);
    assert [call, call][1..] == [call];
    assert [call][1..] == [];
    assert Monotone(now, [call]);
    assert Tokens(c, idle - 0) == idle * c.quantum;
    hide Tokens, Tick;
    var s2 := Adjusted(c, r1.s, now);
    assert s2 == State(c.capacity, idle);
    assert RunCalls(c, r1, [call]) == RunCalls(c, Run(State(0, idle), 2 * c.capacity, now), []);
    assert RunCalls(c, NewRun(c), [call, call]) == RunCalls(c, r1, [call]);
  }
}
