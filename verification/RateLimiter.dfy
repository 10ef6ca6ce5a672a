/** The rate-limited function (`util/ratelimiter/ratelimiter.go`) and its backoff
  (`util/flowcontrol/backoff.go`).

  Times and durations are whole numbers of one unit.  The FIFO behind the function has a constant key,
  so it holds at most one request. */
module RateLimiter {
  datatype Entry = Entry(backoff: int, lastUpdate: int)

  /** `hasExpired`. */
  predicate HasExpired(eventTime: int, lastUpdate: int, maxDuration: int) {
    eventTime - lastUpdate > maxDuration * 2
  }

  function NextEntry(perItem: map<string, Entry>, id: string, eventTime: int, now: int, initial: int, max: int): Entry {
    var kept := id in perItem && !HasExpired(eventTime, perItem[id].lastUpdate, max);
    Entry(if kept then perItem[id].backoff else initial, now)
  }

  class Backoff {
    const defaultDuration: int
    const maxDuration: int
    var perItem: map<string, Entry>

    constructor (initial: int, max: int)
      ensures defaultDuration == initial && maxDuration == max && perItem == map[]
    {
      defaultDuration, maxDuration, perItem := initial, max, map[];
    }

    /** `Next`, the clock showing `now` when it stores the entry: a backoff is never made longer, only
        started again. */
    method Next(id: string, eventTime: int, now: int)
      modifies this
      ensures perItem == old(perItem)[id := NextEntry(old(perItem), id, eventTime, now, defaultDuration, maxDuration)]
    {
      if id !in perItem || HasExpired(eventTime, perItem[id].lastUpdate, maxDuration) {
        perItem := perItem[id := Entry(defaultDuration, 0)];
      }
      perItem := perItem[id := perItem[id].(lastUpdate := now)];
    }

    method IsInBackOffSinceUpdate(id: string, eventTime: int) returns (b: bool)
      ensures b <==> id in perItem && InBackoff(perItem[id], eventTime, maxDuration)
    {
      if id !in perItem {
        return false;
      }
      if HasExpired(eventTime, perItem[id].lastUpdate, maxDuration) {
        return false;
      }
      return eventTime - perItem[id].lastUpdate < perItem[id].backoff;
    }
  }

  predicate InBackoff(e: Entry, eventTime: int, maxDuration: int) {
    !HasExpired(eventTime, e.lastUpdate, maxDuration) && eventTime - e.lastUpdate < e.backoff
  }

  class RateLimitedFunction {
    var queued: bool
    const backOff: Backoff

    constructor (period: int, max: int)
      ensures !queued && fresh(backOff) && backOff.perItem == map[]
      ensures backOff.defaultDuration == period && backOff.maxDuration == max
    {
      queued := false;
      backOff := new Backoff(period, max);
    }

    method Invoke()
      modifies this
      ensures queued
    {
      queued := true;
    }

    /** `handleOne` for a popped request, checked at `now`; the handler, run in between, ends by `eventTime`,
        and the clock shows `finished` when the backoff is stored.  A request that comes too early goes
        back to the queue. */
    method HandleOne(now: int, eventTime: int, finished: int) returns (started: bool)
      modifies this, backOff
      ensures started <==>
        !(KEY in old(backOff.perItem) && InBackoff(old(backOff.perItem)[KEY], now, backOff.maxDuration))
      ensures !started ==> queued && backOff.perItem == old(backOff.perItem)
      ensures started ==>
        && queued == old(queued)
        && backOff.perItem == old(backOff.perItem)[KEY :=
             NextEntry(old(backOff.perItem), KEY, eventTime, finished, backOff.defaultDuration, backOff.maxDuration)]
    {
      var inBackoff := backOff.IsInBackOffSinceUpdate(KEY, now);
      if inBackoff {
        queued := true;
        return false;
      }
      backOff.Next(KEY, eventTime, finished);
      started := true;
    }
  }

  /** The worker between requests, with a popped request in hand, and inside the handler. */
  datatype Worker = Idle | Holding | Running

  /** A rate-limited function with the times its handler started and finished so far. */
  datatype Limiter = Limiter(period: int, max: int, queued: bool, worker: Worker, entries: map<string, Entry>,
                             clock: int, starts: seq<int>, finishes: seq<int>)

  const KEY := "backoff"

  /** `Finish` computes the event time of `Next` some time before the entry is stored. */
  datatype Action = Tick(elapsed: nat) | Invoke | Take | HandleOne | Finish(lag: nat)

  predicate Enabled(l: Limiter, a: Action) {
    match a
    case Take => l.worker == Idle && l.queued
    case HandleOne => l.worker == Holding
    case Finish(_) => l.worker == Running
    case _ => true
  }

  function Step(l: Limiter, a: Action): Limiter {
    match a
    case Tick(elapsed) => l.(clock := l.clock + elapsed)
    case Invoke => l.(queued := true)
    case Take => l.(queued := false, worker := Holding)
    case HandleOne =>
      if KEY in l.entries && InBackoff(l.entries[KEY], l.clock, l.max) then l.(queued := true, worker := Idle)
      else l.(worker := Running, starts := l.starts + [l.clock])
    case Finish(lag) =>
      var entry := NextEntry(l.entries, KEY, l.clock - lag, l.clock, l.period, l.max);
      l.(worker := Idle, entries := l.entries[KEY := entry], finishes := l.finishes + [l.clock])
  }

  predicate EnabledRun(l: Limiter, run: seq<Action>)
    decreases |run|
  {
    run != [] ==> Enabled(l, run[0]) && EnabledRun(Step(l, run[0]), run[1..])
  }

  function Run(l: Limiter, run: seq<Action>): Limiter
    decreases |run|
  {
    if run == [] then l else Run(Step(l, run[0]), run[1..])
  }

  function Initial(period: int, max: int, clock: int): Limiter {
    Limiter(period, max, false, Idle, map[], clock, [], [])
  }

  /** How far apart a finish and the next start are at least. */
  function Gap(l: Limiter): int {
    if l.period <= 2 * l.max then l.period else 2 * l.max
  }

  /** Each start comes a gap after the finish before it, each finish after its start, and none after `clock`. */
  ghost predicate Spaced(starts: seq<int>, finishes: seq<int>, clock: int, gap: int) {
    && |finishes| <= |starts| <= |finishes| + 1
    && (forall i {:trigger finishes[i]} | 0 <= i < |finishes| :: starts[i] <= finishes[i] <= clock)
    && (forall i | 0 <= i < |starts| :: starts[i] <= clock)
    && (forall i {:trigger starts[i]} | 0 < i < |starts| :: starts[i] >= finishes[i - 1] + gap)
  }

  ghost predicate Inv(l: Limiter) {
    && |l.finishes| == |l.starts| - (if l.worker == Running then 1 else 0)
    && (l.finishes != [] <==> KEY in l.entries)
    && (KEY in l.entries ==> l.entries[KEY] == Entry(l.period, l.finishes[|l.finishes| - 1]))
    && Spaced(l.starts, l.finishes, l.clock, Gap(l))
  }

  lemma LaterSpaced(starts: seq<int>, finishes: seq<int>, clock: int, gap: int, later: int)
    requires Spaced(starts, finishes, clock, gap) && clock <= later
    ensures Spaced(starts, finishes, later, gap)
  {
  }

  lemma StartSpaced(starts: seq<int>, finishes: seq<int>, clock: int, gap: int)
    requires Spaced(starts, finishes, clock, gap) && |starts| == |finishes|
    requires finishes != [] ==> clock >= finishes[|finishes| - 1] + gap
    ensures Spaced(starts + [clock], finishes, clock, gap)
  {
    var all := starts + [clock];
    assert forall i | 0 <= i < |starts| :: all[i] == starts[i];
    assert all[|starts|] == clock;
  }

  lemma FinishSpaced(starts: seq<int>, finishes: seq<int>, clock: int, gap: int)
    requires Spaced(starts, finishes, clock, gap) && |starts| == |finishes| + 1
    ensures Spaced(starts, finishes + [clock], clock, gap)
  {
    var all := finishes + [clock];
    assert forall i | 0 <= i < |finishes| :: all[i] == finishes[i];
  }

  /** The handler starts only out of backoff. */
  lemma HandleOneKeepsInv(l: Limiter)
    requires Inv(l) && l.worker == Holding
    ensures Inv(Step(l, HandleOne))
  {
    if !(KEY in l.entries && InBackoff(l.entries[KEY], l.clock, l.max)) {
      OutOfBackoff(l);
    }
    hide Spaced, InBackoff, Gap;
    if !(KEY in l.entries && InBackoff(l.entries[KEY], l.clock, l.max)) {
      StartSpaced(l.starts, l.finishes, l.clock, Gap(l));
      GapStays(l, l.(worker := Running, starts := l.starts + [l.clock]));
    } else {
      GapStays(l, l.(queued := true, worker := Idle));
    }
  }

  lemma GapStays(l: Limiter, l': Limiter)
    requires l'.period == l.period && l'.max == l.max
    ensures Gap(l') == Gap(l)
  {
  }

  lemma OutOfBackoff(l: Limiter)
    requires Inv(l) && !(KEY in l.entries && InBackoff(l.entries[KEY], l.clock, l.max))
    ensures l.finishes != [] ==> l.clock >= l.finishes[|l.finishes| - 1] + Gap(l)
  {
    hide Spaced;
  }

  lemma FinishKeepsInv(l: Limiter, lag: nat)
    requires Inv(l) && l.worker == Running
    ensures Inv(Step(l, Finish(lag)))
  {
    FinishSpaced(l.starts, l.finishes, l.clock, Gap(l));
    hide Spaced;
  }

  lemma OtherKeepsInv(l: Limiter, a: Action)
    requires Inv(l) && Enabled(l, a) && !a.HandleOne? && !a.Finish?
    ensures Inv(Step(l, a))
  {
    LaterSpaced(l.starts, l.finishes, l.clock, Gap(l), Step(l, a).clock);
    hide Spaced;
  }

  lemma StepKeepsConfig(l: Limiter, a: Action)
    ensures Step(l, a).period == l.period && Step(l, a).max == l.max
  {
    hide InBackoff, NextEntry;
  }

  lemma StepKeepsInv(l: Limiter, a: Action)
    requires Inv(l) && Enabled(l, a)
    ensures Inv(Step(l, a)) && Step(l, a).period == l.period && Step(l, a).max == l.max
  {
    StepKeepsConfig(l, a);
    hide Inv, Step;
    match a
    case HandleOne => HandleOneKeepsInv(l);
    case Finish(lag) => FinishKeepsInv(l, lag);
    case _ => OtherKeepsInv(l, a);
  }

  lemma {:induction false} RunKeepsInv(l: Limiter, run: seq<Action>)
    requires Inv(l) && EnabledRun(l, run)
    ensures Inv(Run(l, run)) && Run(l, run).period == l.period && Run(l, run).max == l.max
    decreases |run|
  {
    hide Inv, Step, Enabled;
    if run != [] {
      StepKeepsInv(l, run[0]);
      RunKeepsInv(Step(l, run[0]), run[1..]);
    }
  }

  /** In every run each handler start comes at least min(period, 2 * max) after the finish before it, and
      the stored backoff is the configured period. */
  lemma ReloadSpacing(period: int, max: int, clock: int, run: seq<Action>)
    requires EnabledRun(Initial(period, max, clock), run)
    ensures var l := Run(Initial(period, max, clock), run);
            && |l.finishes| >= |l.starts| - 1
            && (forall i | 0 < i < |l.starts| ::
                  l.starts[i] >= l.finishes[i - 1] + (if period <= 2 * max then period else 2 * max))
            && (KEY in l.entries ==> l.entries[KEY].backoff == period)
  {
    RunKeepsInv(Initial(period, max, clock), run);
  }

  lemma NextStart(starts: seq<int>, finishes: seq<int>, clock: int, gap: int, j: nat)
    requires Spaced(starts, finishes, clock, gap) && 0 < j < |starts|
    ensures starts[j] >= starts[j - 1] + gap
  {
    assert starts[j - 1] <= finishes[j - 1];
  }

  function Times(n: int, m: int): int {
    n * m
  }

  lemma OneMore(n: int, m: int)
    ensures Times(0, m) == 0 && Times(n, m) == Times(n - 1, m) + m
  {
  }

  lemma {:induction false} Spread(starts: seq<int>, finishes: seq<int>, clock: int, gap: int, i: nat, j: nat)
    requires Spaced(starts, finishes, clock, gap) && 0 <= gap && i <= j < |starts|
    ensures starts[j] - starts[i] >= Times(j - i, gap)
    decreases j - i
  {
    hide Spaced, Times;
    OneMore(j - i, gap);
    if i < j {
      NextStart(starts, finishes, clock, gap, j);
      Spread(starts, finishes, clock, gap, i, j - 1);
    }
  }

  /** A window of length `width` holds at most width / min(period, 2 * max) + 1 handler starts. */
  lemma WindowBound(period: int, max: int, clock: int, run: seq<Action>, from: int, width: nat, i: nat, j: nat)
    requires EnabledRun(Initial(period, max, clock), run) && 0 < period && 0 < max
    requires var l := Run(Initial(period, max, clock), run);
             i <= j < |l.starts| && from <= l.starts[i] && l.starts[j] <= from + width
    ensures j - i + 1 <= width / (if period <= 2 * max then period else 2 * max) + 1
  {
    RunKeepsInv(Initial(period, max, clock), run);
    var l := Run(Initial(period, max, clock), run);
    Spread(l.starts, l.finishes, l.clock, Gap(l), i, j);
    Quotient(j - i, Gap(l), width);
  }

  lemma Scaled(a: nat, b: nat, m: int)
    requires a <= b && 0 <= m
    ensures a * m <= b * m
  {
    assert b * m == a * m + (b - a) * m;
  }

  lemma Quotient(n: nat, m: int, width: nat)
    requires 0 < m && n * m <= width
    ensures n <= width / m
  {
    var q := width / m;
    assert width < (q + 1) * m;
    if q < n {
      Scaled(q + 1, n, m);
    }
  }

  /** A request is in the slot or in the worker's hand. */
  predicate Waits(l: Limiter) {
    l.queued || l.worker == Holding
  }

  lemma StepKeepsRequest(l: Limiter, a: Action)
    requires Enabled(l, a)
    ensures l.starts <= Step(l, a).starts
    ensures Waits(l) ==> Waits(Step(l, a)) || |Step(l, a).starts| > |l.starts|
  {
    hide InBackoff, NextEntry;
  }

  /** A request put while the slot is taken is coalesced with the one there, and none is ever dropped: in every run
      it waits until a handler starts after it. */
  lemma {:induction false} RequestIsKept(l: Limiter, run: seq<Action>)
    requires EnabledRun(l, run)
    ensures var l' := Run(l, run);
            l.starts <= l'.starts && (Waits(l) ==> Waits(l') || |l'.starts| > |l.starts|)
    decreases |run|
  {
    hide Step, Enabled, Waits;
    if run != [] {
      StepKeepsRequest(l, run[0]);
      RequestIsKept(Step(l, run[0]), run[1..]);
    }
  }
}
