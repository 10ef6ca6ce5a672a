/** The emitter accepts exactly the well-nested streams whose events are valid, and its stacks follow what is
  open. */
module EmitterSoundness {
  import opened YamlChars
  import opened YamlEvents
  import opened EmitterSteps
  import ParserSteps

  /** What is open in `state`, above what is open in the states under it. */
  function Frames(state: State): seq<Frame> {
    match state
    case AtDocumentContent => [InDocument(false)]
    case AtDocumentEnd => [InDocument(true)]
    case AtFlowSequenceFirstItem => [InSequence]
    case AtFlowSequenceItem => [InSequence]
    case AtFlowMappingFirstKey => [InMapping(true)]
    case AtFlowMappingKey => [InMapping(true)]
    case AtFlowMappingSimpleValue => [InMapping(false)]
    case AtFlowMappingValue => [InMapping(false)]
    case AtBlockSequenceFirstItem => [InSequence]
    case AtBlockSequenceItem => [InSequence]
    case AtBlockMappingFirstKey => [InMapping(true)]
    case AtBlockMappingKey => [InMapping(true)]
    case AtBlockMappingSimpleValue => [InMapping(false)]
    case AtBlockMappingValue => [InMapping(false)]
    case _ => []
  }

  function Context(states: seq<State>): seq<Frame> {
    if states == [] then [InStream] else Context(states[..|states| - 1]) + Frames(states[|states| - 1])
  }

  /** What the events so far have left open. */
  function Nested(s: Emit): Nest {
    match s.state
    case AtStreamStart => NotStarted
    case AtEnd => Ended
    case _ => Open(Context(s.states) + Frames(s.state))
  }

  /** What an event must hold beside standing where it may: valid anchors, valid directives, and for a scalar a
      tag or an implicit one. */
  predicate EventFits(e: Event) {
    match e
    case Alias(anchor) => AnchorFits(anchor)
    case Scalar(anchor, tag, _, implicit, quotedImplicit, _) =>
      (anchor == [] || AnchorFits(anchor)) && (tag != [] || implicit || quotedImplicit)
    case SequenceStart(anchor, _, _, _) => anchor == [] || AnchorFits(anchor)
    case MappingStart(anchor, _, _, _) => anchor == [] || AnchorFits(anchor)
    case DocumentStart(_, tags, _) => Declare([], tags).Some?
    case _ => true
  }

  /** The step is made exactly if the event may come and is valid; then the stacks fit again. */
  predicate Exact(n: Nest, e: Event, o: Outcome) {
    && (o.Made? <==> Accept(n, e).Some? && EventFits(e))
    && (o.Made? ==> Valid(o.next) && Accept(n, e) == Some(Nested(o.next)))
  }

  /** A node is about to be emitted: the state to return to is on the stack. */
  predicate Ready(s: Emit) {
    && WithinDocument(s.states) && s.states != []
    && |s.indents| == EnteredCount(s.states) && s.flowLevel == FlowCount(s.states)
    && (s.indents + [s.indent])[0] == -1
    && forall d | d in s.directives :: d.handle != []
  }

  lemma Pushed(states: seq<State>, state: State)
    ensures Context(states + [state]) == Context(states) + Frames(state)
    ensures EnteredCount(states + [state]) == EnteredCount(states) + if Entered(state) then 1 else 0
    ensures FlowCount(states + [state]) == FlowCount(states) + if InFlow(state) then 1 else 0
  {
    assert (states + [state])[..|states|] == states;
  }

  lemma Popped(s: Emit)
    requires Ready(s)
    ensures Valid(s.Pop()) && Nested(s.Pop()) == Open(Context(s.states))
  {
    var t := s.Pop();
    assert t.states + [t.state] == s.states;
    Pushed(t.states, t.state);
  }

  /** A collection whose entries are emitted from here on. */
  lemma Started(s: Emit, state: State, open: seq<Frame>)
    requires Ready(s) && open == Context(s.states) + Frames(state)
    requires || state == AtFlowSequenceFirstItem || state == AtFlowMappingFirstKey
             || state == AtBlockSequenceFirstItem || state == AtBlockMappingFirstKey
    ensures Valid(s.(state := state)) && Nested(s.(state := state)) == Open(open)
  {
    Pushed(s.states, state);
  }

  lemma TagIsThere(ds: seq<TagDirective>, tag: Bytes)
    requires tag != [] && forall d | d in ds :: d.handle != []
    ensures TagParts(ds, tag) != ([], [])
  {
  }

  lemma ScalarExact(c: Config, l: Line, s: Emit, e: Event, open: seq<Frame>, simpleKey: bool)
    requires Ready(s) && CanHold(open) && Fill(open) == Context(s.states) && e.Scalar? && Readable(e)
    ensures var d := AnalyzeEvent(c, s.directives, e);
            Exact(Open(open), e, if d.BadData? then Failed else EmitScalar(c, l, s, e, d, simpleKey))
  {
    hide Accept, QuotedWriter.AnalyzeScalar, AnchorFits, IsAlpha;
    NodeAccepted(open, e);
    if e.tag != [] {
      TagIsThere(s.directives, e.tag);
    }
    var d := AnalyzeEvent(c, s.directives, e);
    if d.Data? {
      var o := EmitScalar(c, l, s, e, d, simpleKey);
      if o.Made? {
        var t := s.(writes := o.next.writes);
        assert (s.indents + [s.indent])[..|s.indents|] == s.indents;
        assert o.next == t.Pop();
        Popped(t);
      }
    }
  }

  lemma AliasExact(c: Config, s: Emit, e: Event, open: seq<Frame>)
    requires Ready(s) && CanHold(open) && Fill(open) == Context(s.states) && e.Alias?
    ensures var d := AnalyzeEvent(c, s.directives, e);
            Exact(Open(open), e, if d.BadData? then Failed else Made(s.Write(AnchorWrites(d)).Pop()))
  {
    hide Accept, AnchorFits;
    NodeAccepted(open, e);
    var d := AnalyzeEvent(c, s.directives, e);
    if d.Data? {
      Popped(s.Write(AnchorWrites(d)));
    }
  }

  lemma StartExact(c: Config, s: Emit, e: Event, open: seq<Frame>, d: Data, flow: bool)
    requires Ready(s) && CanHold(open) && Fill(open) == Context(s.states) && d.Data?
    requires (e.SequenceStart? || e.MappingStart?) && EventFits(e)
    ensures Exact(Open(open), e,
                  if e.SequenceStart? then EmitStart(c, s, d, flow, AtBlockSequenceFirstItem, AtFlowSequenceFirstItem)
                  else EmitStart(c, s, d, flow, AtBlockMappingFirstKey, AtFlowMappingFirstKey))
  {
    hide Accept, AnchorFits, AnchorWrites, TagWrites;
    NodeAccepted(open, e);
    var o := if e.SequenceStart? then EmitStart(c, s, d, flow, AtBlockSequenceFirstItem, AtFlowSequenceFirstItem)
             else EmitStart(c, s, d, flow, AtBlockMappingFirstKey, AtFlowMappingFirstKey);
    Started(s.(writes := o.next.writes), o.next.state, Context(s.states) + Frames(o.next.state));
    assert Frames(o.next.state) == if e.SequenceStart? then [InSequence] else [InMapping(true)];
  }

  /** Nothing but a node may come where a node is due; an end is for the caller to see. */
  lemma NotANode(open: seq<Frame>, e: Event)
    requires CanHold(open) && !e.Alias? && !e.Scalar? && !e.SequenceStart? && !e.MappingStart?
    requires e == SequenceEnd ==> Top(open) != InSequence
    requires e == MappingEnd ==> Top(open) != InMapping(true)
    ensures Accept(Open(open), e) == None
  {
    if Accept(Open(open), e).Some? {
      NodeDue(open, e);
    }
  }

  lemma NodeExact(c: Config, l: Line, s: Emit, queue: seq<Event>, mapping: bool, simpleKey: bool, open: seq<Frame>)
    requires Ready(s) && CanHold(open) && Fill(open) == Context(s.states) && queue != [] && Readable(queue[0])
    requires queue[0] == SequenceEnd ==> Top(open) != InSequence
    requires queue[0] == MappingEnd ==> Top(open) != InMapping(true)
    ensures var d := AnalyzeEvent(c, s.directives, queue[0]);
            Exact(Open(open), queue[0], if d.BadData? then Failed else EmitNode(c, l, s, queue, d, mapping, simpleKey))
  {
    var e := queue[0];
    var t := s.(mapping := mapping);
    var d := AnalyzeEvent(c, s.directives, e);
    assert Ready(t);
    if e.Alias? {
      AliasExact(c, t, e, open);
    } else if e.Scalar? {
      ScalarExact(c, l, t, e, open, simpleKey);
    } else if e.SequenceStart? || e.MappingStart? {
      CollectionData(c, s.directives, e);
      if d.Data? {
        StartExact(c, t, e, open, d, e.flow
          || (if e.SequenceStart? then EmptySequence(queue) else EmptyMapping(queue)));
      }
    } else {
      NotANode(open, e);
    }
  }

  lemma CollectionData(c: Config, ds: seq<TagDirective>, e: Event)
    requires e.SequenceStart? || e.MappingStart?
    requires Readable(e)
    ensures AnalyzeEvent(c, ds, e).Data? <==> EventFits(e)
  {
  }

  /** Outside of the collections there is no indent and no flow level. */
  lemma Outer(s: Emit)
    requires s.states == [] && !Entered(s.state)
    ensures EnteredCount(s.states + [s.state]) == 0 && FlowCount(s.states + [s.state]) == 0
    ensures Context(s.states) == [InStream]
  {
    Pushed([], s.state);
    assert s.states + [s.state] == [] + [s.state];
  }

  lemma OuterValid(s: Emit)
    requires s.states == [] && s.indents == [] && s.flowLevel == 0 && s.indent == -1
    requires forall d | d in s.directives :: d.handle != []
    requires s.state == AtFirstDocumentStart || s.state == AtDocumentStart ==> s.directives == []
    requires || s.state == AtFirstDocumentStart || s.state == AtDocumentStart || s.state == AtDocumentContent
             || s.state == AtDocumentEnd || s.state == AtEnd
    ensures Valid(s) && (s.state != AtEnd ==> Nested(s) == Open([InStream] + Frames(s.state)))
  {
    Outer(s);
  }

  lemma StreamStartExact(c: Config, s: Emit, e: Event)
    requires Valid(s) && s.state == AtStreamStart
    ensures Exact(Nested(s), e, EmitStreamStart(s, e))
  {
    Outer(s);
    var t := s.(indent := -1, state := AtFirstDocumentStart);
    OuterValid(t);
    assert [InStream] + Frames(AtFirstDocumentStart) == [InStream];
  }

  lemma {:induction false} DeclareKeeps(ds: seq<TagDirective>, tags: seq<TagDirective>)
    requires forall d | d in ds :: d.handle != []
    ensures var r := Declare(ds, tags); r.Some? ==> forall d | d in r.value :: d.handle != []
    decreases |tags|
  {
    if tags != [] && TagFits(tags[0]) {
      DeclareKeeps(ds + [tags[0]], tags[1..]);
    }
  }

  /** Where a document may start nothing is open but the stream. */
  lemma BetweenDocuments(s: Emit)
    requires Valid(s) && (s.state == AtFirstDocumentStart || s.state == AtDocumentStart)
    ensures s.states == [] && s.indents == [] && s.flowLevel == 0 && s.indent == -1 && s.directives == []
    ensures Nested(s) == Open([InStream])
  {
    Outer(s);
    assert s.indents == [] && (s.indents + [s.indent])[0] == s.indent;
    assert [InStream] + Frames(s.state) == [InStream];
  }

  /** What a document's start changes; only the handles of its directives matter here. */
  lemma DocumentStarts(c: Config, l: Line, s: Emit, e: Event, first: bool)
    requires s.directives == []
    ensures var o := EmitDocumentStart(c, l, s, e, first);
            && (o.Made? <==> (e.DocumentStart? && Declare([], e.directives).Some?) || e.StreamEnd?)
            && (o.Made? ==>
                  && o.next == s.(writes := o.next.writes, directives := o.next.directives,
                                  state := if e.DocumentStart? then AtDocumentContent else AtEnd)
                  && forall d | d in o.next.directives :: d.handle != [])
  {
    hide DocumentWrites, Declare;
    if e.DocumentStart? {
      DeclareKeeps([], e.directives);
    }
  }

  /** The events that may come where a document may start. */
  lemma StartAccepted(e: Event)
    ensures Accept(Open([InStream]), e)
         == if e.DocumentStart? then Some(Open([InStream, InDocument(false)]))
            else if e.StreamEnd? then Some(Ended) else None
    ensures e.DocumentStart? ==> (EventFits(e) <==> Declare([], e.directives).Some?)
    ensures e.StreamEnd? ==> EventFits(e)
  {
    assert [InStream] + [InDocument(false)] == [InStream, InDocument(false)];
    hide Declare;
  }

  lemma MadeExact(n: Nest, e: Event, o: Outcome)
    requires o.Made? <==> Accept(n, e).Some? && EventFits(e)
    requires o.Made? ==> Valid(o.next) && Accept(n, e) == Some(Nested(o.next))
    ensures Exact(n, e, o)
  {
    hide Accept, EventFits, Valid, Nested;
  }

  lemma DocumentStartExact(c: Config, l: Line, s: Emit, e: Event, first: bool)
    requires Valid(s) && s.state == if first then AtFirstDocumentStart else AtDocumentStart
    ensures Exact(Nested(s), e, EmitDocumentStart(c, l, s, e, first))
  {
    var n, o := Nested(s), EmitDocumentStart(c, l, s, e, first);
    hide *;
    BetweenDocuments(s);
    DocumentStarts(c, l, s, e, first);
    StartAccepted(e);
    if o.Made? {
      DocumentStarted(o.next);
    }
    MadeExact(n, e, o);
  }

  lemma DocumentStarted(s: Emit)
    requires s.states == [] && s.indents == [] && s.flowLevel == 0 && s.indent == -1
    requires forall d | d in s.directives :: d.handle != []
    requires s.state == AtDocumentContent || s.state == AtEnd
    ensures Valid(s) && Nested(s) == if s.state == AtEnd then Ended else Open([InStream, InDocument(false)])
  {
    hide Valid;
    OuterValid(s);
    assert [InStream] + Frames(AtDocumentContent) == [InStream, InDocument(false)];
  }

  lemma DocumentEndExact(s: Emit, e: Event)
    requires Valid(s) && s.state == AtDocumentEnd
    ensures Exact(Nested(s), e, EmitDocumentEnd(s, e))
  {
    Outer(s);
    assert s.indents == [] && (s.indents + [s.indent])[0] == s.indent;
    var o := EmitDocumentEnd(s, e);
    if o.Made? {
      OuterValid(o.next);
    }
    var open := [InStream] + [InDocument(true)];
    assert Nested(s) == Open(open);
    assert open[..1] == [InStream] && [InStream] + Frames(AtDocumentStart) == [InStream];
    hide Valid, Context, Frames;
  }

  /** The entry after the one where `was` is, of the same collection. */
  lemma Refilled(states: seq<State>, was: State, after: State)
    requires CanHold(Frames(was)) && Fill(Frames(was)) == Frames(after)
    ensures var open := Context(states) + Frames(was);
            CanHold(open) && Top(open) == Top(Frames(was)) && Fill(open) == Context(states + [after])
  {
    Pushed(states, after);
    assert Top(Context(states) + Frames(was)) == Top(Frames(was));
  }

  /** Within a collection that has been entered. */
  predicate Inside(s: Emit, flow: bool) {
    && WithinDocument(s.states) && s.states != [] && s.indents != []
    && |s.indents| == EnteredCount(s.states) + 1
    && s.flowLevel == FlowCount(s.states) + (if flow then 1 else 0)
    && (s.indents + [s.indent])[0] == -1
    && forall d | d in s.directives :: d.handle != []
  }

  lemma EntryExact(c: Config, l: Line, s: Emit, queue: seq<Event>, was: State, after: State, mapping: bool,
      simpleKey: bool)
    requires Inside(s, InFlow(after)) && Entered(after) && queue != [] && Readable(queue[0])
    requires CanHold(Frames(was)) && Fill(Frames(was)) == Frames(after)
    requires queue[0] == SequenceEnd ==> Top(Frames(was)) != InSequence
    requires queue[0] == MappingEnd ==> Top(Frames(was)) != InMapping(true)
    ensures var d := AnalyzeEvent(c, s.directives, queue[0]);
            Exact(Open(Context(s.states) + Frames(was)), queue[0],
                  if d.BadData? then Failed else EmitNode(c, l, s.Push(after), queue, d, mapping, simpleKey))
  {
    Refilled(s.states, was, after);
    Pushed(s.states, after);
    hide *;
    EntryReady(s, after);
    NodeExact(c, l, s.Push(after), queue, mapping, simpleKey, Context(s.states) + Frames(was));
  }

  lemma EntryReady(s: Emit, after: State)
    requires Inside(s, InFlow(after)) && Entered(after)
    ensures Ready(s.Push(after)) && s.Push(after).states == s.states + [after]
        && s.Push(after).directives == s.directives
  {
    Pushed(s.states, after);
  }

  lemma EnteredInside(s: Emit)
    requires Valid(s) && Entered(s.state)
    ensures Inside(s, InFlow(s.state)) && Nested(s) == Open(Context(s.states) + Frames(s.state))
  {
    Pushed(s.states, s.state);
  }

  predicate First(state: State) {
    || state == AtFlowSequenceFirstItem || state == AtFlowMappingFirstKey
    || state == AtBlockSequenceFirstItem || state == AtBlockMappingFirstKey
  }

  lemma FirstReady(s: Emit)
    requires Valid(s) && First(s.state)
    ensures Ready(s) && Nested(s) == Open(Context(s.states) + Frames(s.state))
  {
    Pushed(s.states, s.state);
  }

  lemma OpenInside(c: Config, s: Emit, bracket: string, indentless: bool)
    requires Ready(s)
    ensures Inside(OpenFlow(c, s, bracket), true) && Inside(s.Increase(c, false, indentless), false)
  {
  }

  /** The collection ends: what was there before it is there again. */
  lemma LeftReady(s: Emit, flow: bool)
    requires Inside(s, flow)
    ensures flow ==> s.flowLevel > 0 && Ready(s.(flowLevel := s.flowLevel - 1).Decrease())
    ensures !flow ==> Ready(s.Decrease())
  {
    var t := s.Decrease();
    assert t.indents + [t.indent] == s.indents;
  }

  lemma EndExact(s: Emit, e: Event, was: State)
    requires Ready(s) && (e == SequenceEnd || e == MappingEnd)
    requires Frames(was) == if e == SequenceEnd then [InSequence] else [InMapping(true)]
    ensures Exact(Open(Context(s.states) + Frames(was)), e, Made(s.Pop()))
  {
    EndAccepted(Context(s.states), Frames(was)[0], e);
    Popped(s);
    hide Accept;
  }

  lemma LeaveExact(s: Emit, e: Event, was: State)
    requires Inside(s, false) && s.indents != [] && (e == SequenceEnd || e == MappingEnd)
    requires Frames(was) == if e == SequenceEnd then [InSequence] else [InMapping(true)]
    ensures s.Decrease().states != []
    ensures Exact(Open(Context(s.states) + Frames(was)), e, Made(s.Decrease().Pop()))
  {
    hide Accept, Context, Frames, EnteredCount, FlowCount, WithinDocument, Exact, Valid;
    LeftReady(s, false);
    EndExact(s.Decrease(), e, was);
  }

  lemma CloseFlowExact(c: Config, s: Emit, bracket: string, first: bool, e: Event, was: State)
    requires Inside(s, true) && s.flowLevel > 0 && (e == SequenceEnd || e == MappingEnd)
    requires Frames(was) == if e == SequenceEnd then [InSequence] else [InMapping(true)]
    ensures Exact(Open(Context(s.states) + Frames(was)), e, CloseFlow(c, s, bracket, first))
  {
    LeftReady(s, true);
    hide Accept, Context, Frames, EnteredCount, FlowCount, WithinDocument;
    var t := s.(flowLevel := s.flowLevel - 1).Decrease();
    var o := CloseFlow(c, s, bracket, first);
    var u := t.(writes := o.next.writes);
    assert Ready(u) && o.next == u.Pop();
    EndExact(u, e, was);
  }

  /** Writing leaves the rest as it is. */
  lemma WriteInside(s: Emit, t: Emit, flow: bool)
    requires Inside(s, flow) && t == s.(writes := t.writes)
    ensures Inside(t, flow)
  {
  }

  lemma FlowPlace(c: Config, s: Emit, first: bool, bracket: string)
    requires Valid(s) && if first then First(s.state) else Entered(s.state) && InFlow(s.state)
    ensures s.states != [] && (!first ==> s.flowLevel > 0 && s.indents != [])
    ensures var t := if first then OpenFlow(c, s, bracket) else s;
            && Inside(t, true) && t.flowLevel > 0 && t.indents != []
            && t.states == s.states && t.directives == s.directives
            && Nested(s) == Open(Context(t.states) + Frames(s.state))
  {
    if first {
      FirstReady(s);
      OpenInside(c, s, bracket, false);
    } else {
      EnteredInside(s);
    }
  }

  /** An event that ends a collection needs no analysis. */
  lemma EndsPlainly(c: Config, tags: seq<TagDirective>, e: Event)
    requires e == SequenceEnd || e == MappingEnd
    ensures AnalyzeEvent(c, tags, e).Data?
  {
  }

  lemma FlowItemIs(c: Config, l: Line, s: Emit, queue: seq<Event>, d: Data, first: bool)
    requires queue != [] && d.Data? && s.states != [] && (!first ==> s.flowLevel > 0 && s.indents != [])
    ensures var t := if first then OpenFlow(c, s, "[") else s;
            EmitFlowSequenceItem(c, l, s, queue, d, first)
            == if queue[0].SequenceEnd? && t.indents != [] && t.flowLevel > 0 then CloseFlow(c, t, "]", first)
               else EmitNode(c, l, NextFlow(c, l, t, first).Push(AtFlowSequenceItem), queue, d, false, false)
  {
  }

  lemma FlowItemExact(c: Config, l: Line, t: Emit, queue: seq<Event>, d: Data, first: bool, was: State)
    requires Inside(t, true) && queue != [] && Readable(queue[0]) && !queue[0].SequenceEnd?
    requires d == AnalyzeEvent(c, t.directives, queue[0])
    requires was == AtFlowSequenceFirstItem || was == AtFlowSequenceItem
    ensures Exact(Open(Context(t.states) + Frames(was)), queue[0], if d.BadData? then Failed
                  else EmitNode(c, l, NextFlow(c, l, t, first).Push(AtFlowSequenceItem), queue, d, false, false))
  {
    hide Accept, Context, FlowCount, EnteredCount, WithinDocument, Valid, EmitNode;
    var u := NextFlow(c, l, t, first);
    WriteInside(t, u, true);
    EntryExact(c, l, u, queue, was, AtFlowSequenceItem, false, false);
  }

  lemma FlowSequenceItemExact(c: Config, l: Line, s: Emit, queue: seq<Event>, d: Data, first: bool)
    requires Valid(s) && s.state == (if first then AtFlowSequenceFirstItem else AtFlowSequenceItem)
    requires queue != [] && Readable(queue[0]) && d == AnalyzeEvent(c, s.directives, queue[0])
    requires d.Data? ==> s.states != [] && (!first ==> s.flowLevel > 0 && s.indents != [])
    ensures Exact(Nested(s), queue[0], if d.BadData? then Failed else EmitFlowSequenceItem(c, l, s, queue, d, first))
  {
    assert First(AtFlowSequenceFirstItem) && Entered(AtFlowSequenceItem) && InFlow(AtFlowSequenceItem);
    assert Frames(s.state) == [InSequence];
    var t := if first then OpenFlow(c, s, "[") else s;
    hide *;
    FlowPlace(c, s, first, "[");
    if queue[0].SequenceEnd? {
      EndsPlainly(c, s.directives, queue[0]);
      CloseFlowExact(c, t, "]", first, queue[0], s.state);
    } else {
      FlowItemExact(c, l, t, queue, d, first, s.state);
    }
    if d.Data? {
      FlowItemIs(c, l, s, queue, d, first);
    }
  }

  function FlowKey(c: Config, l: Line, t: Emit, queue: seq<Event>, d: Data, first: bool): Outcome
    requires queue != [] && d.Data?
  {
    var u := NextFlow(c, l, t, first);
    if !c.canonical && SimpleKey(queue, d) then EmitNode(c, l, u.Push(AtFlowMappingSimpleValue), queue, d, true, true)
    else EmitNode(c, l, u.Write([Indicator("?", true, false, false)]).Push(AtFlowMappingValue), queue, d, true, false)
  }

  lemma FlowKeyIs(c: Config, l: Line, s: Emit, queue: seq<Event>, d: Data, first: bool)
    requires queue != [] && d.Data? && s.states != [] && (!first ==> s.flowLevel > 0 && s.indents != [])
    ensures var t := if first then OpenFlow(c, s, "{") else s;
            EmitFlowMappingKey(c, l, s, queue, d, first)
            == if queue[0].MappingEnd? && t.indents != [] && t.flowLevel > 0 then CloseFlow(c, t, "}", first)
               else FlowKey(c, l, t, queue, d, first)
  {
  }

  lemma FlowKeyExact(c: Config, l: Line, t: Emit, queue: seq<Event>, d: Data, first: bool, was: State)
    requires Inside(t, true) && queue != [] && Readable(queue[0]) && !queue[0].MappingEnd?
    requires d == AnalyzeEvent(c, t.directives, queue[0]) && (was == AtFlowMappingFirstKey || was == AtFlowMappingKey)
    ensures Exact(Open(Context(t.states) + Frames(was)), queue[0],
                  if d.BadData? then Failed else FlowKey(c, l, t, queue, d, first))
  {
    hide Accept, Context, FlowCount, EnteredCount, WithinDocument, Valid, SimpleKey, EmitNode;
    var u := NextFlow(c, l, t, first);
    var v := u.Write([Indicator("?", true, false, false)]);
    WriteInside(t, u, true);
    WriteInside(t, v, true);
    EntryExact(c, l, u, queue, was, AtFlowMappingSimpleValue, true, true);
    EntryExact(c, l, v, queue, was, AtFlowMappingValue, true, false);
  }

  lemma FlowMappingKeyExact(c: Config, l: Line, s: Emit, queue: seq<Event>, d: Data, first: bool)
    requires Valid(s) && s.state == (if first then AtFlowMappingFirstKey else AtFlowMappingKey)
    requires queue != [] && Readable(queue[0]) && d == AnalyzeEvent(c, s.directives, queue[0])
    requires d.Data? ==> s.states != [] && (!first ==> s.flowLevel > 0 && s.indents != [])
    ensures Exact(Nested(s), queue[0], if d.BadData? then Failed else EmitFlowMappingKey(c, l, s, queue, d, first))
  {
    assert First(AtFlowMappingFirstKey) && Entered(AtFlowMappingKey) && InFlow(AtFlowMappingKey);
    assert Frames(s.state) == [InMapping(true)];
    var t := if first then OpenFlow(c, s, "{") else s;
    hide *;
    FlowPlace(c, s, first, "{");
    if queue[0].MappingEnd? {
      EndsPlainly(c, s.directives, queue[0]);
      CloseFlowExact(c, t, "}", first, queue[0], s.state);
    } else {
      FlowKeyExact(c, l, t, queue, d, first, s.state);
    }
    if d.Data? {
      FlowKeyIs(c, l, s, queue, d, first);
    }
  }

  lemma FlowMappingValueExact(c: Config, l: Line, s: Emit, queue: seq<Event>, d: Data, simple: bool)
    requires Valid(s) && s.state == (if simple then AtFlowMappingSimpleValue else AtFlowMappingValue)
    requires queue != [] && Readable(queue[0]) && d == AnalyzeEvent(c, s.directives, queue[0])
    ensures Exact(Nested(s), queue[0], if d.BadData? then Failed else EmitFlowMappingValue(c, l, s, queue, d, simple))
  {
    EnteredInside(s);
    var t := if simple then s.Write([Indicator(":", false, false, false)])
             else (if c.canonical || l.wide then s.Indented() else s).Write([Indicator(":", true, false, false)]);
    WriteInside(s, t, true);
    EntryExact(c, l, t, queue, s.state, AtFlowMappingKey, true, false);
    hide Accept, Context, FlowCount, EnteredCount, WithinDocument, Valid;
  }

  lemma BlockPlace(c: Config, s: Emit, first: bool, indentless: bool)
    requires Valid(s) && if first then First(s.state) else Entered(s.state) && !InFlow(s.state)
    ensures s.states != [] && (!first ==> s.indents != [])
    ensures var t := if first then s.Increase(c, false, indentless) else s;
            && Inside(t, false) && t.indents != [] && t.states == s.states && t.directives == s.directives
            && Nested(s) == Open(Context(t.states) + Frames(s.state))
  {
    if first {
      FirstReady(s);
      OpenInside(c, s, "", indentless);
    } else {
      EnteredInside(s);
    }
  }

  lemma BlockItemExact(c: Config, l: Line, t: Emit, queue: seq<Event>, d: Data, was: State)
    requires Inside(t, false) && queue != [] && Readable(queue[0]) && !queue[0].SequenceEnd?
    requires d == AnalyzeEvent(c, t.directives, queue[0])
    requires was == AtBlockSequenceFirstItem || was == AtBlockSequenceItem
    ensures var u := t.Indented().Write([Indicator("-", true, false, true)]).Push(AtBlockSequenceItem);
            Exact(Open(Context(t.states) + Frames(was)), queue[0],
                  if d.BadData? then Failed else EmitNode(c, l, u, queue, d, false, false))
  {
    hide Accept, Context, FlowCount, EnteredCount, WithinDocument, Valid, EmitNode;
    var u := t.Indented().Write([Indicator("-", true, false, true)]);
    WriteInside(t, u, false);
    EntryExact(c, l, u, queue, was, AtBlockSequenceItem, false, false);
  }

  lemma BlockSequenceItemExact(c: Config, l: Line, s: Emit, queue: seq<Event>, d: Data, first: bool)
    requires Valid(s) && s.state == (if first then AtBlockSequenceFirstItem else AtBlockSequenceItem)
    requires queue != [] && Readable(queue[0]) && d == AnalyzeEvent(c, s.directives, queue[0])
    requires d.Data? ==> s.states != [] && (!first ==> s.indents != [])
    ensures Exact(Nested(s), queue[0], if d.BadData? then Failed else EmitBlockSequenceItem(c, l, s, queue, d, first))
  {
    BlockPlace(c, s, first, s.mapping && !l.indention);
    var t := if first then s.Increase(c, false, s.mapping && !l.indention) else s;
    if queue[0].SequenceEnd? {
      LeftReady(t, false);
      EndExact(t.Decrease(), queue[0], s.state);
    } else {
      BlockItemExact(c, l, t, queue, d, s.state);
    }
    hide Accept, Context, FlowCount, EnteredCount, WithinDocument, Valid, EmitNode, Exact, Nested;
  }

  function BlockKey(c: Config, l: Line, t: Emit, queue: seq<Event>, d: Data): Outcome
    requires queue != [] && d.Data?
  {
    var u := t.Indented();
    if SimpleKey(queue, d) then EmitNode(c, l, u.Push(AtBlockMappingSimpleValue), queue, d, true, true)
    else EmitNode(c, l, u.Write([Indicator("?", true, false, true)]).Push(AtBlockMappingValue), queue, d, true, false)
  }

  lemma BlockKeyIs(c: Config, l: Line, s: Emit, queue: seq<Event>, d: Data, first: bool)
    requires queue != [] && d.Data? && s.states != [] && (!first ==> s.indents != [])
    ensures var t := if first then s.Increase(c, false, false) else s;
            EmitBlockMappingKey(c, l, s, queue, d, first)
            == if queue[0].MappingEnd? && t.indents != [] then Made(t.Decrease().Pop()) else BlockKey(c, l, t, queue, d)
  {
  }

  lemma BlockKeyExact(c: Config, l: Line, t: Emit, queue: seq<Event>, d: Data, was: State)
    requires Inside(t, false) && queue != [] && Readable(queue[0]) && !queue[0].MappingEnd?
    requires d == AnalyzeEvent(c, t.directives, queue[0]) && (was == AtBlockMappingFirstKey || was == AtBlockMappingKey)
    ensures Exact(Open(Context(t.states) + Frames(was)), queue[0],
                  if d.BadData? then Failed else BlockKey(c, l, t, queue, d))
  {
    hide Accept, Context, FlowCount, EnteredCount, WithinDocument, Valid, SimpleKey, EmitNode;
    var u := t.Indented();
    var v := u.Write([Indicator("?", true, false, true)]);
    WriteInside(t, u, false);
    WriteInside(t, v, false);
    EntryExact(c, l, u, queue, was, AtBlockMappingSimpleValue, true, true);
    EntryExact(c, l, v, queue, was, AtBlockMappingValue, true, false);
  }

  lemma BlockMappingKeyExact(c: Config, l: Line, s: Emit, queue: seq<Event>, d: Data, first: bool)
    requires Valid(s) && s.state == (if first then AtBlockMappingFirstKey else AtBlockMappingKey)
    requires queue != [] && Readable(queue[0]) && d == AnalyzeEvent(c, s.directives, queue[0])
    requires d.Data? ==> s.states != [] && (!first ==> s.indents != [])
    ensures Exact(Nested(s), queue[0], if d.BadData? then Failed else EmitBlockMappingKey(c, l, s, queue, d, first))
  {
    assert First(AtBlockMappingFirstKey) && Entered(AtBlockMappingKey) && !InFlow(AtBlockMappingKey);
    assert Frames(s.state) == [InMapping(true)];
    var t := if first then s.Increase(c, false, false) else s;
    hide *;
    BlockPlace(c, s, first, false);
    if queue[0].MappingEnd? {
      EndsPlainly(c, s.directives, queue[0]);
      LeaveExact(t, queue[0], s.state);
    } else {
      BlockKeyExact(c, l, t, queue, d, s.state);
    }
    if d.Data? {
      BlockKeyIs(c, l, s, queue, d, first);
    }
  }

  lemma BlockMappingValueExact(c: Config, l: Line, s: Emit, queue: seq<Event>, d: Data, simple: bool)
    requires Valid(s) && s.state == (if simple then AtBlockMappingSimpleValue else AtBlockMappingValue)
    requires queue != [] && Readable(queue[0]) && d == AnalyzeEvent(c, s.directives, queue[0])
    ensures Exact(Nested(s), queue[0], if d.BadData? then Failed else EmitBlockMappingValue(c, l, s, queue, d, simple))
  {
    EnteredInside(s);
    var t := if simple then s.Write([Indicator(":", false, false, false)])
             else s.Indented().Write([Indicator(":", true, false, true)]);
    WriteInside(s, t, false);
    EntryExact(c, l, t, queue, s.state, AtBlockMappingKey, true, false);
    hide Accept, Context, FlowCount, EnteredCount, WithinDocument, Valid;
  }

  const BEGUN := [InStream, InDocument(false)]

  /** Where the root of a document is awaited. */
  lemma Begun(s: Emit)
    requires Valid(s) && s.state == AtDocumentContent
    ensures Nested(s) == Open(BEGUN) && Ready(s.Push(AtDocumentEnd))
    ensures Fill(BEGUN) == Context(s.Push(AtDocumentEnd).states)
  {
    hide Accept;
    Outer(s);
    Pushed([], AtDocumentEnd);
    assert s.Push(AtDocumentEnd).states == [] + [AtDocumentEnd];
    assert [InStream] + Frames(AtDocumentContent) == BEGUN && BEGUN[..1] == [InStream];
  }

  lemma DocumentContentExact(c: Config, l: Line, s: Emit, queue: seq<Event>, d: Data)
    requires Valid(s) && s.state == AtDocumentContent
    requires queue != [] && Readable(queue[0]) && d == AnalyzeEvent(c, s.directives, queue[0])
    ensures Exact(Nested(s), queue[0], if d.BadData? then Failed else EmitDocumentContent(c, l, s, queue, d))
  {
    assert CanHold(BEGUN) && Top(BEGUN) == InDocument(false);
    assert s.Push(AtDocumentEnd).directives == s.directives;
    hide *;
    Begun(s);
    NodeExact(c, l, s.Push(AtDocumentEnd), queue, false, false, BEGUN);
    if d.Data? {
      ContentIs(c, l, s, queue, d);
    }
  }

  lemma ContentIs(c: Config, l: Line, s: Emit, queue: seq<Event>, d: Data)
    requires queue != [] && d.Data?
    ensures EmitDocumentContent(c, l, s, queue, d) == EmitNode(c, l, s.Push(AtDocumentEnd), queue, d, false, false)
  {
  }

  /** The event that may come but is not valid is refused in its analysis; other states need no analysis. */
  lemma StepExact(c: Config, l: Line, s: Emit, queue: seq<Event>)
    requires Valid(s) && queue != [] && Readable(queue[0])
    ensures Exact(Nested(s), queue[0], Step(c, l, s, queue))
  {
    var d := AnalyzeEvent(c, s.directives, queue[0]);
    match s.state
    case AtStreamStart => StreamStartExact(c, s, queue[0]);
    case AtFirstDocumentStart => DocumentStartExact(c, l, s, queue[0], true);
    case AtDocumentStart => DocumentStartExact(c, l, s, queue[0], false);
    case AtDocumentContent => DocumentContentExact(c, l, s, queue, d);
    case AtDocumentEnd => DocumentEndExact(s, queue[0]);
    case AtFlowSequenceFirstItem => FlowSequenceItemExact(c, l, s, queue, d, true);
    case AtFlowSequenceItem => FlowSequenceItemExact(c, l, s, queue, d, false);
    case AtFlowMappingFirstKey => FlowMappingKeyExact(c, l, s, queue, d, true);
    case AtFlowMappingKey => FlowMappingKeyExact(c, l, s, queue, d, false);
    case AtFlowMappingSimpleValue => FlowMappingValueExact(c, l, s, queue, d, true);
    case AtFlowMappingValue => FlowMappingValueExact(c, l, s, queue, d, false);
    case AtBlockSequenceFirstItem => BlockSequenceItemExact(c, l, s, queue, d, true);
    case AtBlockSequenceItem => BlockSequenceItemExact(c, l, s, queue, d, false);
    case AtBlockMappingFirstKey => BlockMappingKeyExact(c, l, s, queue, d, true);
    case AtBlockMappingKey => BlockMappingKeyExact(c, l, s, queue, d, false);
    case AtBlockMappingSimpleValue => BlockMappingValueExact(c, l, s, queue, d, true);
    case AtBlockMappingValue => BlockMappingValueExact(c, l, s, queue, d, false);
    case AtEnd =>
  }
}
