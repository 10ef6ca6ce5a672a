/** The emitter over whole streams: its bounded lookahead decides as the whole stream would, it takes exactly the
  streams that are well nested and valid, and it hands on every text. */
module EmitterRuns {
  import opened YamlChars
  import opened YamlEvents
  import opened EmitterSteps
  import opened EmitterSoundness

  lemma LoneOpening(queue: seq<Event>)
    requires |queue| == 1 && Level(queue[0]) == 1
    ensures !Closes(queue, 0)
  {
    assert queue[1..] == [];
  }

  /** A queue that is long enough shows whether the collection at its head is empty. */
  lemma EmptinessIsSeen(queue: seq<Event>, more: seq<Event>)
    requires !NeedMore(queue)
    ensures EmptySequence(queue) == EmptySequence(queue + more)
    ensures EmptyMapping(queue) == EmptyMapping(queue + more)
    ensures (queue + more)[0] == queue[0]
  {
    if |queue| == 1 && Level(queue[0]) == 1 {
      LoneOpening(queue);
    }
  }

  lemma NodeSame(c: Config, l: Line, s: Emit, q: seq<Event>, r: seq<Event>, d: Data, mapping: bool, simpleKey: bool)
    requires s.states != [] && d.Data? && q != [] && r != [] && q[0] == r[0]
    requires EmptySequence(q) == EmptySequence(r) && EmptyMapping(q) == EmptyMapping(r)
    ensures EmitNode(c, l, s, q, d, mapping, simpleKey) == EmitNode(c, l, s, r, d, mapping, simpleKey)
    ensures SimpleKey(q, d) == SimpleKey(r, d)
  {
    hide EmitScalar, EmitStart;
  }

  lemma FlowSame(c: Config, l: Line, s: Emit, q: seq<Event>, r: seq<Event>, d: Data, first: bool)
    requires d.Data? && s.states != [] && q != [] && r != [] && q[0] == r[0]
    requires EmptySequence(q) == EmptySequence(r) && EmptyMapping(q) == EmptyMapping(r)
    ensures EmitFlowMappingValue(c, l, s, q, d, first) == EmitFlowMappingValue(c, l, s, r, d, first)
    ensures !first ==> s.flowLevel > 0 && s.indents != [] ==>
      && EmitFlowSequenceItem(c, l, s, q, d, first) == EmitFlowSequenceItem(c, l, s, r, d, first)
      && EmitFlowMappingKey(c, l, s, q, d, first) == EmitFlowMappingKey(c, l, s, r, d, first)
    ensures first ==>
      && EmitFlowSequenceItem(c, l, s, q, d, first) == EmitFlowSequenceItem(c, l, s, r, d, first)
      && EmitFlowMappingKey(c, l, s, q, d, first) == EmitFlowMappingKey(c, l, s, r, d, first)
  {
    hide EmitNode, SimpleKey, CloseFlow, EmptySequence, EmptyMapping;
    forall t: Emit, mapping, simpleKey | t.states != []
      ensures EmitNode(c, l, t, q, d, mapping, simpleKey) == EmitNode(c, l, t, r, d, mapping, simpleKey)
    {
      NodeSame(c, l, t, q, r, d, mapping, simpleKey);
    }
    NodeSame(c, l, s, q, r, d, false, false);
  }

  lemma BlockSame(c: Config, l: Line, s: Emit, q: seq<Event>, r: seq<Event>, d: Data, first: bool)
    requires d.Data? && s.states != [] && q != [] && r != [] && q[0] == r[0] && (!first ==> s.indents != [])
    requires EmptySequence(q) == EmptySequence(r) && EmptyMapping(q) == EmptyMapping(r)
    ensures EmitBlockMappingValue(c, l, s, q, d, first) == EmitBlockMappingValue(c, l, s, r, d, first)
    ensures EmitBlockSequenceItem(c, l, s, q, d, first) == EmitBlockSequenceItem(c, l, s, r, d, first)
    ensures EmitBlockMappingKey(c, l, s, q, d, first) == EmitBlockMappingKey(c, l, s, r, d, first)
  {
    hide EmitNode, SimpleKey, EmptySequence, EmptyMapping;
    forall t: Emit, mapping, simpleKey | t.states != []
      ensures EmitNode(c, l, t, q, d, mapping, simpleKey) == EmitNode(c, l, t, r, d, mapping, simpleKey)
    {
      NodeSame(c, l, t, q, r, d, mapping, simpleKey);
    }
    NodeSame(c, l, s, q, r, d, false, false);
  }

  predicate IsFlow(state: State) {
    state.AtFlowSequenceFirstItem? || state.AtFlowMappingFirstKey? || InFlow(state)
  }

  predicate IsBlock(state: State) {
    state.AtBlockSequenceFirstItem? || state.AtBlockMappingFirstKey? || (Entered(state) && !InFlow(state))
  }

  lemma FlowStepSame(c: Config, l: Line, s: Emit, q: seq<Event>, r: seq<Event>)
    requires Valid(s) && q != [] && r != [] && q[0] == r[0] && Readable(q[0])
    requires EmptySequence(q) == EmptySequence(r) && EmptyMapping(q) == EmptyMapping(r)
    requires IsFlow(s.state)
    ensures Step(c, l, s, q) == Step(c, l, s, r)
  {
    hide EmitNode, AnalyzeEvent, EmitDocumentStart, EmitDocumentEnd, EmitStreamStart, EmitFlowSequenceItem,
      EmitFlowMappingKey, EmitFlowMappingValue, EmitBlockSequenceItem, EmitBlockMappingKey, EmitBlockMappingValue,
      EmptySequence, EmptyMapping, Context, Readable;
    var d := AnalyzeEvent(c, s.directives, q[0]);
    if d.Data? {
      FlowSame(c, l, s, q, r, d, true);
      FlowSame(c, l, s, q, r, d, false);
    }
  }

  lemma BlockStepSame(c: Config, l: Line, s: Emit, q: seq<Event>, r: seq<Event>)
    requires Valid(s) && q != [] && r != [] && q[0] == r[0] && Readable(q[0])
    requires EmptySequence(q) == EmptySequence(r) && EmptyMapping(q) == EmptyMapping(r)
    requires IsBlock(s.state)
    ensures Step(c, l, s, q) == Step(c, l, s, r)
  {
    hide EmitNode, AnalyzeEvent, EmitDocumentStart, EmitDocumentEnd, EmitStreamStart, EmitFlowSequenceItem,
      EmitFlowMappingKey, EmitFlowMappingValue, EmitBlockSequenceItem, EmitBlockMappingKey, EmitBlockMappingValue,
      EmptySequence, EmptyMapping, Context, Readable;
    var d := AnalyzeEvent(c, s.directives, q[0]);
    if d.Data? {
      BlockSame(c, l, s, q, r, d, true);
      if Entered(s.state) {
        BlockSame(c, l, s, q, r, d, false);
      }
    }
  }

  /** A step looks at the event at the head, and at whether its collection is empty. */
  lemma StepSame(c: Config, l: Line, s: Emit, q: seq<Event>, r: seq<Event>)
    requires Valid(s) && q != [] && r != [] && q[0] == r[0] && Readable(q[0])
    requires EmptySequence(q) == EmptySequence(r) && EmptyMapping(q) == EmptyMapping(r)
    ensures Step(c, l, s, q) == Step(c, l, s, r)
  {
    if IsFlow(s.state) {
      hide *;
      FlowStepSame(c, l, s, q, r);
    } else if IsBlock(s.state) {
      hide *;
      BlockStepSame(c, l, s, q, r);
    } else {
      var d := AnalyzeEvent(c, s.directives, q[0]);
      hide EmitNode, AnalyzeEvent, EmitDocumentStart, EmitDocumentEnd, EmitStreamStart, EmptySequence, EmptyMapping,
        Context, Readable, Valid;
      if d.Data? {
        NodeSame(c, l, s.Push(AtDocumentEnd), q, r, d, false, false);
      }
    }
  }

  /** The bounded lookahead decides as the whole of what is still to come would. */
  lemma LookaheadSuffices(c: Config, l: Line, s: Emit, queue: seq<Event>, more: seq<Event>)
    requires Valid(s) && !NeedMore(queue) && Readable(queue[0])
    ensures Step(c, l, s, queue) == Step(c, l, s, queue + more)
  {
    EmptinessIsSeen(queue, more);
    StepSame(c, l, s, queue, queue + more);
  }

  predicate AllReadable(es: seq<Event>) {
    forall i | 0 <= i < |es| :: Readable(es[i])
  }

  /** What the writers leave of the line before each step; any at all. */
  type Lines = nat -> Line

  /** An emitter that sees the whole stream: `k` steps have been made before. */
  function Ideal(c: Config, lines: Lines, s: Emit, es: seq<Event>, k: nat): Outcome
    requires Valid(s) && AllReadable(es)
    decreases |es|
  {
    if es == [] then Made(s)
    else
      StepExact(c, lines(k), s, es);
      match Step(c, lines(k), s, es)
      case Failed => Failed
      case Made(t) => Ideal(c, lines, t, es[1..], k + 1)
  }

  /** The emitter between calls: the events not yet emitted and the number of those that were. */
  datatype Emitter = Broken | Emitter(s: Emit, queue: seq<Event>, done: nat)

  predicate Sound(e: Emitter) {
    e.Emitter? ==> Valid(e.s) && AllReadable(e.queue)
  }

  /** The loop of `yaml_emitter_emit`. */
  function Drain(c: Config, lines: Lines, s: Emit, queue: seq<Event>, done: nat): (e: Emitter)
    requires Valid(s) && AllReadable(queue)
    ensures Sound(e)
    decreases |queue|
  {
    if NeedMore(queue) then Emitter(s, queue, done)
    else
      StepExact(c, lines(done), s, queue);
      match Step(c, lines(done), s, queue)
      case Failed => Broken
      case Made(t) => Drain(c, lines, t, queue[1..], done + 1)
  }

  /** `yaml_emitter_emit`. */
  function EmitEvent(c: Config, lines: Lines, e: Emitter, event: Event): (r: Emitter)
    requires Sound(e) && Readable(event)
    ensures Sound(r)
  {
    if e.Broken? then Broken else Drain(c, lines, e.s, e.queue + [event], e.done)
  }

  function EmitAll(c: Config, lines: Lines, es: seq<Event>): (e: Emitter)
    requires AllReadable(es)
    ensures Sound(e)
  {
    if es == [] then
      Outer(START);
      Emitter(START, [], 0)
    else EmitEvent(c, lines, EmitAll(c, lines, es[..|es| - 1]), es[|es| - 1])
  }

  /** Draining makes the steps that the ideal emitter makes, whatever is still to come. */
  lemma {:induction false} DrainIsIdeal(c: Config, lines: Lines, s: Emit, queue: seq<Event>, done: nat,
      more: seq<Event>)
    requires Valid(s) && AllReadable(queue) && AllReadable(more) && AllReadable(queue + more)
    ensures var r := Drain(c, lines, s, queue, done);
            match r
            case Broken => Ideal(c, lines, s, queue + more, done) == Failed
            case Emitter(t, rest, n) =>
              && NeedMore(rest) && AllReadable(rest + more) && n + |rest| == done + |queue|
              && Ideal(c, lines, s, queue + more, done) == Ideal(c, lines, t, rest + more, n)
    decreases |queue|
  {
    if !NeedMore(queue) {
      LookaheadSuffices(c, lines(done), s, queue, more);
      StepExact(c, lines(done), s, queue);
      assert (queue + more)[1..] == queue[1..] + more && (queue + more)[0] == queue[0];
      match Step(c, lines(done), s, queue)
      case Failed =>
      case Made(t) => DrainIsIdeal(c, lines, t, queue[1..], done + 1, more);
    }
  }

  lemma StartIsValid()
    ensures Valid(START) && NeedMore([])
  {
    Outer(START);
  }

  /** The emitter that is fed event by event does what the one that sees the whole stream does. */
  lemma {:induction false} EmitIsIdeal(c: Config, lines: Lines, es: seq<Event>, more: seq<Event>)
    requires AllReadable(es) && AllReadable(more) && AllReadable(es + more)
    ensures Valid(START)
    ensures match EmitAll(c, lines, es)
            case Broken => Ideal(c, lines, START, es + more, 0) == Failed
            case Emitter(t, rest, n) =>
              && NeedMore(rest) && AllReadable(rest + more) && n + |rest| == |es|
              && Ideal(c, lines, START, es + more, 0) == Ideal(c, lines, t, rest + more, n)
    decreases |es|
  {
    StartIsValid();
    hide Drain, Ideal, NeedMore, Valid, Readable;
    if es != [] {
      var before, last := es[..|es| - 1], es[|es| - 1];
      assert before + ([last] + more) == es + more;
      EmitIsIdeal(c, lines, before, [last] + more);
      var e := EmitAll(c, lines, before);
      if e.Emitter? {
        assert e.queue + ([last] + more) == e.queue + [last] + more;
        DrainIsIdeal(c, lines, e.s, e.queue + [last], e.done, more);
      }
    }
  }

  predicate AllFit(es: seq<Event>) {
    forall i | 0 <= i < |es| :: EventFits(es[i])
  }

  /** What the first event of a stream leaves open, and what the rest leaves of that. */
  lemma AcceptCons(n: Nest, es: seq<Event>)
    requires es != []
    ensures AcceptAll(n, es).Some? ==> Accept(n, es[0]).Some?
    ensures Accept(n, es[0]).Some? ==> AcceptAll(n, es) == AcceptAll(Accept(n, es[0]).value, es[1..])
  {
    hide Accept;
    assert es == [es[0]] + es[1..];
    AcceptOne(n, es[0]);
    if AcceptAll(n, es).Some? {
      AcceptPrefix(n, [es[0]], es[1..]);
    }
    if Accept(n, es[0]).Some? {
      AcceptJoins(n, [es[0]], es[1..]);
    }
  }

  /** Made exactly if the events may come from `n` on and are valid, and then they leave what is open in the end. */
  predicate ExactFor(n: Nest, es: seq<Event>, o: Outcome) {
    && (o.Made? <==> AcceptAll(n, es).Some? && AllFit(es))
    && (o.Made? ==> Valid(o.next) && AcceptAll(n, es) == Some(Nested(o.next)))
  }

  lemma ExactStep(n: Nest, es: seq<Event>, first: Outcome, o: Outcome)
    requires es != [] && Exact(n, es[0], first)
    requires first.Failed? ==> o == Failed
    requires first.Made? ==> ExactFor(Nested(first.next), es[1..], o)
    ensures ExactFor(n, es, o)
  {
    hide Accept, AcceptAll, Valid, Nested, AllFit, EventFits;
    AcceptCons(n, es);
    FitCons(es);
  }

  lemma ExactNone(s: Emit)
    requires Valid(s)
    ensures ExactFor(Nested(s), [], Made(s))
  {
    hide Valid, Nested;
  }

  lemma IdealUnfolds(c: Config, lines: Lines, s: Emit, es: seq<Event>, k: nat)
    requires Valid(s) && AllReadable(es)
    ensures es == [] ==> Ideal(c, lines, s, es, k) == Made(s)
    ensures es != [] ==> Readable(es[0]) && AllReadable(es[1..]) && Exact(Nested(s), es[0], Step(c, lines(k), s, es))
    ensures es != [] ==>
      var o := Step(c, lines(k), s, es);
      if o.Failed? then Ideal(c, lines, s, es, k) == Failed
      else Valid(o.next) && Ideal(c, lines, s, es, k) == Ideal(c, lines, o.next, es[1..], k + 1)
  {
    hide Valid, Nested, Accept, EventFits, Step, Readable;
    if es != [] {
      StepExact(c, lines(k), s, es);
    }
  }

  /** The ideal emitter takes exactly the streams that go on well nested, of valid events. */
  lemma {:induction false} IdealExact(c: Config, lines: Lines, s: Emit, es: seq<Event>, k: nat)
    requires Valid(s) && AllReadable(es)
    ensures ExactFor(Nested(s), es, Ideal(c, lines, s, es, k))
    decreases |es|
  {
    hide *;
    IdealUnfolds(c, lines, s, es, k);
    if es == [] {
      ExactNone(s);
    } else {
      var o := Step(c, lines(k), s, es);
      if o.Made? {
        IdealExact(c, lines, o.next, es[1..], k + 1);
      }
      ExactStep(Nested(s), es, o, Ideal(c, lines, s, es, k));
    }
  }

  lemma FitCons(es: seq<Event>)
    requires es != []
    ensures AllFit(es) <==> EventFits(es[0]) && AllFit(es[1..])
  {
    if EventFits(es[0]) && AllFit(es[1..]) {
      forall i | 0 <= i < |es| ensures EventFits(es[i]) {
        if i > 0 {
          assert es[i] == es[1..][i - 1];
        }
      }
    }
  }

  function Size(n: Nest): nat {
    match n
    case Open(stack) => |stack|
    case _ => 0
  }

  lemma SizeStep(n: Nest, e: Event)
    requires Accept(n, e).Some?
    ensures Size(Accept(n, e).value) == Size(n) + Level(e)
  {
  }

  /** Whatever is opened in a whole stream is closed in it. */
  lemma {:induction false} EndCloses(n: Nest, es: seq<Event>, level: int)
    requires AcceptAll(n, es) == Some(Ended) && 1 <= level <= Size(n)
    ensures Closes(es, level)
    decreases |es|
  {
    if es != [] {
      assert es == [es[0]] + es[1..];
      AcceptPrefix(n, [es[0]], es[1..]);
      AcceptOne(n, es[0]);
      AcceptJoins(n, [es[0]], es[1..]);
      SizeStep(n, es[0]);
      if level + Level(es[0]) != 0 {
        EndCloses(Accept(n, es[0]).value, es[1..], level + Level(es[0]));
      }
    }
  }

  /** With the end of the stream the emitter waits for no more. */
  lemma NothingWaits(n: Nest, queue: seq<Event>)
    requires AcceptAll(n, queue) == Some(Ended) && NeedMore(queue)
    ensures queue == []
  {
    if queue != [] {
      assert queue == [queue[0]] + queue[1..];
      AcceptPrefix(n, [queue[0]], queue[1..]);
      AcceptOne(n, queue[0]);
      AcceptJoins(n, [queue[0]], queue[1..]);
      SizeStep(n, queue[0]);
      EndCloses(Accept(n, queue[0]).value, queue[1..], 1);
    }
  }

  /** All is closed: nothing is open, indented, in flow or waiting. */
  predicate Finished(e: Emitter, count: nat) {
    && e.Emitter? && e.s.state == AtEnd && e.queue == [] && e.done == count
    && e.s.states == [] && e.s.indents == [] && e.s.indent == -1 && e.s.flowLevel == 0
  }

  lemma EndIs(s: Emit)
    requires Valid(s)
    ensures Nested(s) == Ended <==> s.state == AtEnd
    ensures s.state == AtEnd ==> s.states == [] && s.indents == [] && s.indent == -1 && s.flowLevel == 0
  {
    if s.state == AtEnd {
      Outer(s);
    }
  }

  lemma StartIs(es: seq<Event>)
    ensures Valid(START) && Nested(START) == NotStarted
    ensures Complete(es) <==> AcceptAll(NotStarted, es) == Some(Ended)
    ensures es + [] == es && AllReadable([])
  {
    Outer(START);
  }

  /** What is still queued when a stream is at its end. */
  lemma WholeIsDrained(e: Emitter, es: seq<Event>, o: Outcome)
    requires e.Emitter? && Valid(e.s) && NeedMore(e.queue) && e.done + |e.queue| == |es|
    requires e.queue == [] ==> o == Made(e.s)
    requires ExactFor(NotStarted, es, o) && ExactFor(Nested(e.s), e.queue, o)
    ensures Finished(e, |es|) <==> Complete(es) && AllFit(es)
    ensures Complete(es) && AllFit(es) ==> o == Made(e.s)
  {
    StartIs(es);
    hide Accept, AcceptAll, AllFit, Complete, NeedMore, Valid, Nested;
    EndIs(e.s);
    if Complete(es) && AllFit(es) {
      NothingWaits(Nested(e.s), e.queue);
    }
  }

  lemma BrokenIsNotWhole(es: seq<Event>)
    requires ExactFor(NotStarted, es, Failed)
    ensures !(Complete(es) && AllFit(es)) && !Finished(Broken, |es|)
  {
  }

  /** Fed event by event, with any layout, the emitter finishes exactly the whole streams of valid events, and
      each event is emitted once, in its turn. */
  lemma EmitterTakesWholeStreams(c: Config, lines: Lines, es: seq<Event>)
    requires AllReadable(es)
    ensures Finished(EmitAll(c, lines, es), |es|) <==> Complete(es) && AllFit(es)
    ensures Complete(es) && AllFit(es) ==> Ideal(c, lines, START, es, 0) == Made(EmitAll(c, lines, es).s)
  {
    StartIs(es);
    var e := EmitAll(c, lines, es);
    assert Sound(e);
    assert e.Emitter? ==> Valid(e.s) && AllReadable(e.queue) && e.queue + [] == e.queue;
    hide *;
    EmitIsIdeal(c, lines, es, []);
    IdealExact(c, lines, START, es, 0);
    if e.Emitter? {
      IdealExact(c, lines, e.s, e.queue, e.done);
      IdealUnfolds(c, lines, e.s, e.queue, e.done);
      WholeIsDrained(e, es, Ideal(c, lines, START, es, 0));
    } else {
      BrokenIsNotWhole(es);
    }
  }

  /** On the way the emitter never fails on a valid event that may come. */
  lemma EmitterNeverFails(c: Config, lines: Lines, es: seq<Event>)
    requires AllReadable(es) && WellNested(es) && AllFit(es)
    ensures EmitAll(c, lines, es).Emitter?
  {
    StartIs(es);
    hide Valid, Accept, AllFit, EmitAll, Ideal, Readable;
    EmitIsIdeal(c, lines, es, []);
    IdealExact(c, lines, START, es, 0);
  }
}
