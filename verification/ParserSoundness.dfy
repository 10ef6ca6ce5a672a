/** What the parser's productions keep, for every token sequence: its events are well nested, the texts of
  the tokens are handed on in order, and it ends after a bounded number of events. */
module ParserSoundness {
  import opened YamlChars
  import opened YamlEvents
  import opened ParserSteps

  /** What is open in `state`, above what is open in the states under it. */
  function Frames(state: State): seq<Frame> {
    match state
    case AtDocumentEnd => [InDocument(true)]
    case AtBlockNode => [InDocument(false)]
    case AtDocumentContent => [InDocument(false)]
    case AtBlockSequenceFirstEntry => [InSequence]
    case AtBlockSequenceEntry => [InSequence]
    case AtIndentlessSequenceEntry => [InSequence]
    case AtBlockMappingFirstKey => [InMapping(true)]
    case AtBlockMappingKey => [InMapping(true)]
    case AtBlockMappingValue => [InMapping(false)]
    case AtFlowSequenceFirstEntry => [InSequence]
    case AtFlowSequenceEntry => [InSequence]
    case AtFlowSequenceEntryMappingKey => [InSequence, InMapping(true)]
    case AtFlowSequenceEntryMappingValue => [InSequence, InMapping(false)]
    case AtFlowSequenceEntryMappingEnd => [InSequence, InMapping(true)]
    case AtFlowMappingFirstKey => [InMapping(true)]
    case AtFlowMappingKey => [InMapping(true)]
    case AtFlowMappingValue => [InMapping(false)]
    case AtFlowMappingEmptyValue => [InMapping(false)]
    case _ => []
  }

  /** What is open once every state of the stack has been returned to. */
  function Context(states: seq<State>): seq<Frame> {
    if states == [] then [InStream] else Context(states[..|states| - 1]) + Frames(states[|states| - 1])
  }

  /** What the events so far have left open. */
  function Nested(p: Parse): Nest {
    match p.state
    case AtStreamStart => NotStarted
    case AtEnd => Ended
    case AtBlockNode => Open([InStream] + Frames(p.state))
    case AtDocumentContent => Open([InStream] + Frames(p.state))
    case _ => Open(Context(p.states) + Frames(p.state))
  }

  /** A node is about to be parsed: the state to return to is on the stack, and `open` is what is open. */
  predicate ReadyForNode(p: Parse, open: seq<Frame>) {
    && p.head <= |p.tokens|
    && WithinDocument(p.states)
    && |p.marks| == MarkCount(p.states)
    && !p.streamEnd
    && CanHold(open) && Fill(open) == Context(p.states)
  }

  /** An event made there keeps the stacks fitting and continues the stream. */
  predicate Keeps(open: Nest, o: Outcome) {
    o.Made? ==> Valid(o.next) && Accept(open, o.event) == Some(Nested(o.next))
  }

  lemma Pushed(states: seq<State>, state: State)
    ensures Context(states + [state]) == Context(states) + Frames(state)
    ensures MarkCount(states + [state]) == MarkCount(states) + if Marked(state) then 1 else 0
  {
    assert (states + [state])[..|states|] == states;
  }

  lemma Returned(p: Parse)
    requires WithinDocument(p.states) && p.head <= |p.tokens| && !p.streamEnd && |p.marks| == MarkCount(p.states)
    ensures Valid(p.Return()) && Nested(p.Return()) == Open(Context(p.states))
  {
    var q := p.Return();
    assert q.states + [q.state] == p.states;
    Pushed(q.states, q.state);
  }

  /** A node may stand where `was` is, and `after` is what is open after it. */
  lemma Refilled(states: seq<State>, was: State, after: State)
    requires CanHold(Frames(was)) && Fill(Frames(was)) == Frames(after)
    ensures var open := Context(states) + Frames(was);
            CanHold(open) && Fill(open) == Context(states) + Frames(after) == Context(states + [after])
  {
    hide Context, MarkCount;
    Pushed(states, after);
    assert Top(Context(states) + Frames(was)) == Top(Frames(was));
    assert (Context(states) + Frames(was))[..|Context(states) + Frames(was)| - 1]
        == Context(states) + Frames(was)[..|Frames(was)| - 1];
  }

  lemma LeafKeeps(p: Parse, e: Event, open: seq<Frame>)
    requires ReadyForNode(p, open) && (e.Alias? || e.Scalar?)
    ensures Keeps(Open(open), Made(e, p.Return()))
  {
    Returned(p);
  }

  lemma StartKeeps(p: Parse, anchor: Bytes, tag: Bytes, block: bool, indentless: bool, open: seq<Frame>)
    requires p.More() && ReadyForNode(p, open) && Opening(p.Peek(), block, indentless).Some?
    ensures var state := Opening(p.Peek(), block, indentless).value;
            Keeps(Open(open), Made(StartEvent(state, anchor, tag), p.(state := state)))
  {
    var state := Opening(p.Peek(), block, indentless).value;
    assert Frames(state) == if StartEvent(state, anchor, tag).SequenceStart? then [InSequence] else [InMapping(true)];
  }

  lemma ContentKeeps(p: Parse, anchor: Bytes, tag: Bytes, block: bool, indentless: bool, open: seq<Frame>)
    requires p.More() && ReadyForNode(p, open)
    ensures Keeps(Open(open), ParseContent(p, anchor, tag, block, indentless))
  {
    if p.Peek().ScalarToken? {
      assert p.Return().Skip() == p.Skip().Return();
      LeafKeeps(p.Skip(), ScalarEvent(anchor, tag, p.Peek().value, p.Peek().plain), open);
    } else if Opening(p.Peek(), block, indentless).Some? {
      StartKeeps(p, anchor, tag, block, indentless, open);
    } else {
      LeafKeeps(p, Scalar(anchor, tag, [], tag == [], false, true), open);
    }
  }

  lemma NodeKeeps(p: Parse, block: bool, indentless: bool, open: seq<Frame>)
    requires ReadyForNode(p, open)
    ensures Keeps(Open(open), ParseNode(p, block, indentless))
  {
    if p.More() {
      if p.Peek().AliasToken? {
        assert p.Return().Skip() == p.Skip().Return();
        LeafKeeps(p.Skip(), Alias(p.Peek().value), open);
      } else {
        var r := ParseProperties(p);
        if r.Properties? {
          match r.tag {
            case None => ContentKeeps(r.next, r.anchor, [], block, indentless, open);
            case Some((handle, suffix)) =>
              var tag := ResolvedTag(p.directives, handle, suffix);
              if tag.Some? {
                ContentKeeps(r.next, r.anchor, tag.value, block, indentless, open);
              }
          }
        }
      }
    }
  }

  /** Within a document, with `n` marks beside those of the states on the stack. */
  predicate Placed(p: Parse, n: nat) {
    p.head <= |p.tokens| && !p.streamEnd && WithinDocument(p.states) && |p.marks| == MarkCount(p.states) + n
  }

  /** A node may stand where `was` is, and `after` is then returned to. */
  predicate Follows(was: State, after: State) {
    Returns(after) && CanHold(Frames(was)) && Fill(Frames(was)) == Frames(after)
  }

  lemma ItemFollows(was: State)
    requires Frames(was) == [InSequence]
    ensures Follows(was, AtBlockSequenceEntry) && Follows(was, AtIndentlessSequenceEntry)
    ensures Follows(was, AtFlowSequenceEntry)
  {
  }

  lemma KeyFollows(was: State)
    requires Frames(was) == [InMapping(true)]
    ensures Follows(was, AtBlockMappingValue) && Follows(was, AtFlowMappingValue)
    ensures Follows(was, AtFlowMappingEmptyValue)
  {
  }

  lemma ValueFollows(was: State)
    requires Frames(was) == [InMapping(false)]
    ensures Follows(was, AtBlockMappingKey) && Follows(was, AtFlowMappingKey)
  {
  }

  lemma PairFollows()
    ensures Follows(AtFlowSequenceEntryMappingKey, AtFlowSequenceEntryMappingValue)
    ensures Follows(AtFlowSequenceEntryMappingValue, AtFlowSequenceEntryMappingEnd)
  {
  }

  /** The states of a collection's entries. */
  predicate InEntries(state: State) {
    Returns(state) || StartToken(state).Some? || state == AtFlowSequenceEntryMappingKey
  }

  lemma PlacedNow(p: Parse)
    requires Valid(p) && InEntries(p.state)
    ensures p.states != [] && Nested(p) == Open(Context(p.states) + Frames(p.state))
    ensures StartToken(p.state).None? ==> Placed(p, if Marked(p.state) then 1 else 0)
    ensures StartToken(p.state).Some? ==>
      p.More() && Placed(p.Mark().Skip(), 1) && p.Mark().Skip().states == p.states
  {
    hide Context;
  }

  lemma PlacedNext(p: Parse, n: nat)
    requires Placed(p, n) && p.More() && p.Peek() != StreamEndToken
    ensures Placed(p.Skip(), n) && p.Skip().states == p.states
  {
  }

  lemma NothingMade(n: Nest)
    ensures Keeps(n, Failed)
  {
  }

  lemma StateValid(p: Parse, after: State)
    requires Returns(after) && Placed(p, if Marked(after) then 1 else 0)
    ensures Valid(p.(state := after)) && Nested(p.(state := after)) == Open(Context(p.states) + Frames(after))
  {
  }

  /** An empty scalar stands for the node that is missing. */
  lemma EmptyKeeps(p: Parse, was: State, after: State)
    requires Placed(p, if Marked(after) then 1 else 0) && Follows(was, after)
    ensures Keeps(Open(Context(p.states) + Frames(was)), Made(EMPTY_SCALAR, p.(state := after)))
  {
    Refilled(p.states, was, after);
    StateValid(p, after);
    hide Accept, Context, Frames, Fill, CanHold, Valid, Nested, MarkCount, Marked, WithinDocument;
    NodeAccepted(Context(p.states) + Frames(was), EMPTY_SCALAR);
  }

  /** A node stands there. */
  lemma NodeFollows(p: Parse, was: State, after: State, block: bool, indentless: bool)
    requires Placed(p, if Marked(after) then 1 else 0) && Follows(was, after)
    ensures Keeps(Open(Context(p.states) + Frames(was)), ParseNode(p.Push(after), block, indentless))
  {
    Refilled(p.states, was, after);
    Pushed(p.states, after);
    PushedWithin(p.states, after);
    hide Context, Frames, MarkCount, WithinDocument, Keeps, ParseNode, Fill, CanHold;
    NodeKeeps(p.Push(after), block, indentless, Context(p.states) + Frames(was));
  }

  lemma PushedWithin(states: seq<State>, after: State)
    requires WithinDocument(states) && Returns(after)
    ensures WithinDocument(states + [after])
  {
  }

  /** The place of an entry, a key or a value: a node, or nothing. */
  lemma ChildKeeps(p: Parse, was: State, after: State, block: bool, indentless: bool)
    requires Placed(p, if Marked(after) then 1 else 0) && Follows(was, after)
    ensures Keeps(Open(Context(p.states) + Frames(was)), ParseNode(p.Push(after), block, indentless))
    ensures Keeps(Open(Context(p.states) + Frames(was)), Made(EMPTY_SCALAR, p.(state := after)))
  {
    hide *;
    EmptyKeeps(p, was, after);
    NodeFollows(p, was, after, block, indentless);
  }

  lemma EndAccepted(open: seq<Frame>, was: Frame, e: Event)
    requires open != []
    requires (e == SequenceEnd && was == InSequence) || (e == MappingEnd && was == InMapping(true))
    ensures Accept(Open(open + [was]), e) == Some(Open(open))
  {
    assert (open + [was])[..|open|] == open;
  }

  lemma OpenInContext(states: seq<State>)
    ensures Context(states) != []
  {
  }

  /** The collection whose mark is on top ends. */
  lemma EndKeeps(p: Parse, e: Event, was: State)
    requires p.More() && p.Peek() != StreamEndToken && Placed(p, 1)
    requires Frames(was) == if e == SequenceEnd then [InSequence] else [InMapping(true)]
    requires e == SequenceEnd || e == MappingEnd
    ensures p.states != [] && p.marks != []
    ensures Keeps(Open(Context(p.states) + Frames(was)), Made(e, p.Return().Unmark().Skip()))
  {
    var q := p.Unmark().Skip();
    hide Accept, Context, Nested, Valid;
    Returned(q);
    assert q.Return() == p.Return().Unmark().Skip();
    OpenInContext(p.states);
    EndAccepted(Context(p.states), Frames(was)[0], e);
  }

  lemma StreamStartKeeps(p: Parse)
    requires Valid(p) && p.state == AtStreamStart
    ensures Keeps(Nested(p), ParseStreamStart(p))
  {
    assert Context([]) + Frames(AtImplicitDocumentStart) == [InStream];
  }

  lemma StreamEndKeeps(p: Parse)
    requires p.More() && p.Peek() == StreamEndToken && p.states == [] && p.marks == []
    ensures Keeps(Open([InStream]), Made(StreamEnd, p.(state := AtEnd).Skip()))
  {
  }

  lemma DocumentOpens(p: Parse, e: Event, state: State)
    requires p.head <= |p.tokens| && p.states == [] && p.marks == [] && !p.streamEnd
    requires e.DocumentStart? && (state == AtBlockNode || state == AtDocumentContent)
    ensures Keeps(Open([InStream]), Made(e, p.Push(AtDocumentEnd).(state := state)))
  {
    var q := p.Push(AtDocumentEnd).(state := state);
    assert q.states == [AtDocumentEnd];
    OneState();
    assert Valid(q);
    assert Accept(Open([InStream]), e) == Some(Open([InStream] + [InDocument(false)]));
  }

  lemma OneState()
    ensures MarkCount([AtDocumentEnd]) == 0
  {
    Pushed([], AtDocumentEnd);
    assert [] + [AtDocumentEnd] == [AtDocumentEnd];
  }

  lemma DocumentStartKeeps(p: Parse, implicit: bool)
    requires Valid(p) && p.state == if implicit then AtImplicitDocumentStart else AtDocumentStart
    ensures Keeps(Nested(p), ParseDocumentStart(p, implicit))
  {
    assert Context(p.states) + Frames(p.state) == [InStream];
    var q := if implicit then p else SkipDocumentEnds(p);
    if q.More() {
      if q.Peek() == StreamEndToken {
        StreamEndKeeps(q);
      } else {
        DirectivesKeep(q, implicit);
      }
    }
  }

  lemma DirectivesKeep(q: Parse, implicit: bool)
    requires q.More() && q.Peek() != StreamEndToken && q.states == [] && q.marks == [] && !q.streamEnd
    ensures Keeps(Open([InStream]), ParseDocument(q, implicit))
  {
    var d := ProcessDirectives(q, false, []);
    if d.Directives? {
      if implicit && !IsDirective(q.Peek()) && q.Peek() != DocumentStartToken {
        DocumentOpens(d.next, DocumentStart(false, [], false), AtBlockNode);
      } else if d.next.Peek() == DocumentStartToken {
        DocumentOpens(d.next.Skip(), DocumentStart(d.version, d.declared, false), AtDocumentContent);
      }
    }
  }

  lemma DocumentContentKeeps(p: Parse)
    requires Valid(p) && p.state == AtDocumentContent
    ensures Keeps(Nested(p), ParseDocumentContent(p))
  {
    assert Context(p.states) == Context([]) + Frames(AtDocumentEnd);
    assert Fill([InStream] + Frames(p.state)) == Context(p.states);
    if p.More() && EndsDocument(p.Peek()) {
      LeafKeeps(p, EMPTY_SCALAR, [InStream] + Frames(p.state));
    } else {
      NodeKeeps(p, true, false, [InStream] + Frames(p.state));
    }
  }

  lemma BlockNodeKeeps(p: Parse)
    requires Valid(p) && p.state == AtBlockNode
    ensures Keeps(Nested(p), ParseNode(p, true, false))
  {
    assert Context(p.states) == Context([]) + Frames(AtDocumentEnd);
    assert Fill([InStream] + Frames(p.state)) == Context(p.states);
    NodeKeeps(p, true, false, [InStream] + Frames(p.state));
  }

  lemma DocumentEndKeeps(p: Parse)
    requires Valid(p) && p.state == AtDocumentEnd
    ensures Keeps(Nested(p), ParseDocumentEnd(p))
  {
    assert Context([]) + Frames(AtDocumentStart) == [InStream];
    assert (Context([]) + Frames(AtDocumentEnd))[..1] == [InStream];
  }

  lemma NextBlockEntryKeeps(p: Parse, was: State)
    requires Placed(p, 1) && Frames(was) == [InSequence]
    ensures p.states != [] && p.marks != []
    ensures Keeps(Open(Context(p.states) + Frames(was)), ParseBlockSequenceEntry(p, false))
  {
    assert p.states != [] && p.marks != [];
    hide Accept, Context, Frames, ParseNode, Keeps, Nested, Valid, Placed, Follows, WithinDocument;
    ItemFollows(was);
    NothingMade(Open(Context(p.states) + Frames(was)));
    if p.More() {
      if p.Peek() == BlockEntryToken {
        PlacedNext(p, 1);
        ChildKeeps(p.Skip(), was, AtBlockSequenceEntry, true, false);
      } else if p.Peek() == BlockEndToken {
        EndKeeps(p, SequenceEnd, was);
      }
    }
  }

  lemma BlockSequenceEntryKeeps(p: Parse, first: bool)
    requires Valid(p) && p.state == if first then AtBlockSequenceFirstEntry else AtBlockSequenceEntry
    ensures Keeps(Nested(p), ParseBlockSequenceEntry(p, first))
  {
    assert Frames(p.state) == [InSequence];
    hide ParseBlockSequenceItem, Accept, Context, Frames, Keeps, Nested, Valid, Placed, ParseNode, WithinDocument;
    PlacedNow(p);
    NextBlockEntryKeeps(if first then p.Mark().Skip() else p, p.state);
  }

  lemma IndentlessSequenceEntryKeeps(p: Parse)
    requires Valid(p) && p.state == AtIndentlessSequenceEntry
    ensures Keeps(Nested(p), ParseIndentlessSequenceEntry(p))
  {
    assert Frames(p.state) == [InSequence];
    hide Accept, Context, Frames, ParseNode, Keeps, Nested, Valid, Placed, Follows, WithinDocument;
    PlacedNow(p);
    ItemFollows(p.state);
    NothingMade(Nested(p));
    if p.More() {
      if p.Peek() == BlockEntryToken {
        PlacedNext(p, 0);
        ChildKeeps(p.Skip(), p.state, p.state, true, false);
      } else {
        IndentlessEndKeeps(p);
      }
    }
  }

  lemma IndentlessEndKeeps(p: Parse)
    requires Placed(p, 0)
    ensures p.states != []
    ensures Keeps(Open(Context(p.states) + Frames(AtIndentlessSequenceEntry)), Made(SequenceEnd, p.Return()))
  {
    hide Accept, Context, Nested, Valid;
    Returned(p);
    OpenInContext(p.states);
    EndAccepted(Context(p.states), InSequence, SequenceEnd);
  }

  lemma NextBlockKeyKeeps(p: Parse, was: State)
    requires Placed(p, 1) && Frames(was) == [InMapping(true)]
    ensures p.states != [] && p.marks != []
    ensures Keeps(Open(Context(p.states) + Frames(was)), ParseBlockMappingKey(p, false))
  {
    assert p.states != [] && p.marks != [];
    hide Accept, Context, Frames, ParseNode, Keeps, Nested, Valid, Placed, Follows, WithinDocument;
    KeyFollows(was);
    NothingMade(Open(Context(p.states) + Frames(was)));
    if p.More() {
      if p.Peek() == KeyToken {
        PlacedNext(p, 1);
        ChildKeeps(p.Skip(), was, AtBlockMappingValue, true, true);
      } else if p.Peek() == BlockEndToken {
        EndKeeps(p, MappingEnd, was);
      }
    }
  }

  lemma BlockMappingKeyKeeps(p: Parse, first: bool)
    requires Valid(p) && p.state == if first then AtBlockMappingFirstKey else AtBlockMappingKey
    ensures Keeps(Nested(p), ParseBlockMappingKey(p, first))
  {
    assert Frames(p.state) == [InMapping(true)];
    hide ParseBlockMappingNode, Accept, Context, Frames, Keeps, Nested, Valid, Placed, ParseNode, WithinDocument;
    PlacedNow(p);
    NextBlockKeyKeeps(if first then p.Mark().Skip() else p, p.state);
  }

  lemma BlockMappingValueKeeps(p: Parse)
    requires Valid(p) && p.state == AtBlockMappingValue
    ensures Keeps(Nested(p), ParseBlockMappingValue(p))
  {
    assert Frames(p.state) == [InMapping(false)];
    hide Accept, Context, Frames, ParseNode, Keeps, Nested, Valid, Placed, Follows, WithinDocument;
    PlacedNow(p);
    ValueFollows(p.state);
    NothingMade(Nested(p));
    EmptyKeeps(p, p.state, AtBlockMappingKey);
    if p.More() && p.Peek() == ValueToken {
      PlacedNext(p, 1);
      ChildKeeps(p.Skip(), p.state, AtBlockMappingKey, true, true);
    }
  }

  lemma FlowSequenceItemKeeps(p: Parse, was: State)
    requires Placed(p, 1) && Frames(was) == [InSequence]
    ensures p.states != [] && p.marks != []
    ensures Keeps(Open(Context(p.states) + Frames(was)), ParseFlowSequenceItem(p))
  {
    assert p.states != [] && p.marks != [];
    hide Accept, Context, Frames, ParseNode, Keeps, Nested, Valid, Placed, Follows, WithinDocument;
    ItemFollows(was);
    NothingMade(Open(Context(p.states) + Frames(was)));
    if p.More() {
      if p.Peek() == KeyToken {
        PairStartKeeps(p, was);
      } else if p.Peek() == FlowSequenceEndToken {
        EndKeeps(p, SequenceEnd, was);
      } else {
        NodeFollows(p, was, AtFlowSequenceEntry, false, false);
      }
    }
  }

  lemma FlowSequenceEntryKeeps(p: Parse, first: bool)
    requires Valid(p) && p.state == if first then AtFlowSequenceFirstEntry else AtFlowSequenceEntry
    ensures Keeps(Nested(p), ParseFlowSequenceEntry(p, first))
  {
    assert Frames(p.state) == [InSequence];
    hide Accept, Context, Frames, ParseFlowSequenceItem, ParseFlowMappingItem, Keeps, Nested, Valid, Placed,
      WithinDocument;
    PlacedNow(p);
    NothingMade(Nested(p));
    var q := if first then p.Mark().Skip() else p;
    FlowSequenceItemKeeps(q, p.state);
    if q.More() && q.Peek() == FlowEntryToken {
      PlacedNext(q, 1);
      FlowSequenceItemKeeps(q.Skip(), p.state);
    }
  }

  lemma PairStartKeeps(p: Parse, was: State)
    requires p.More() && p.Peek() != StreamEndToken && Placed(p, 1) && Frames(was) == [InSequence]
    ensures Keeps(Open(Context(p.states) + Frames(was)),
                  Made(MappingStart([], [], true, true), p.(state := AtFlowSequenceEntryMappingKey).Skip()))
  {
    hide Context;
    assert Context(p.states) + Frames(AtFlowSequenceEntryMappingKey)
        == Context(p.states) + Frames(was) + [InMapping(true)];
  }

  lemma FlowSequenceEntryMappingKeyKeeps(p: Parse)
    requires Valid(p) && p.state == AtFlowSequenceEntryMappingKey
    ensures Keeps(Nested(p), ParseFlowSequenceEntryMappingKey(p))
  {
    hide Accept, Context, Frames, ParseNode, Keeps, Nested, Valid, Placed, Follows, WithinDocument;
    PlacedNow(p);
    PairFollows();
    NothingMade(Nested(p));
    if p.More() {
      if EndsPairKey(p.Peek()) {
        PlacedNext(p, 1);
        EmptyKeeps(p.Skip(), p.state, AtFlowSequenceEntryMappingValue);
      } else {
        NodeFollows(p, p.state, AtFlowSequenceEntryMappingValue, false, false);
      }
    }
  }

  lemma FlowSequenceEntryMappingValueKeeps(p: Parse)
    requires Valid(p) && p.state == AtFlowSequenceEntryMappingValue
    ensures Keeps(Nested(p), ParseFlowSequenceEntryMappingValue(p))
  {
    hide Accept, Context, Frames, ParseNode, Keeps, Nested, Valid, Placed, Follows, WithinDocument;
    PlacedNow(p);
    PairFollows();
    NothingMade(Nested(p));
    EmptyKeeps(p, p.state, AtFlowSequenceEntryMappingEnd);
    if p.More() && p.Peek() == ValueToken {
      PlacedNext(p, 1);
      ChildKeeps(p.Skip(), p.state, AtFlowSequenceEntryMappingEnd, false, false);
    }
  }

  lemma FlowSequenceEntryMappingEndKeeps(p: Parse)
    requires Valid(p) && p.state == AtFlowSequenceEntryMappingEnd
    ensures Keeps(Nested(p), ParseFlowSequenceEntryMappingEnd(p))
  {
    hide Context, MarkCount, WithinDocument;
    var open := Context(p.states) + Frames(p.state);
    assert open[..|open| - 1] == Context(p.states) + Frames(AtFlowSequenceEntry);
  }

  lemma FlowKeyNodeKeeps(p: Parse, was: State)
    requires Placed(p, 1) && Frames(was) == [InMapping(true)]
    ensures Keeps(Open(Context(p.states) + Frames(was)), ParseFlowKeyNode(p))
  {
    hide Accept, Context, Frames, ParseNode, Keeps, Nested, Valid, Placed, Follows, WithinDocument;
    KeyFollows(was);
    NothingMade(Open(Context(p.states) + Frames(was)));
    ChildKeeps(p, was, AtFlowMappingValue, false, false);
  }

  lemma FlowMappingItemKeeps(p: Parse, was: State)
    requires Placed(p, 1) && Frames(was) == [InMapping(true)]
    ensures p.states != [] && p.marks != []
    ensures Keeps(Open(Context(p.states) + Frames(was)), ParseFlowMappingItem(p))
  {
    assert p.states != [] && p.marks != [];
    hide Accept, Context, Frames, ParseNode, Keeps, Nested, Valid, Placed, Follows, WithinDocument;
    KeyFollows(was);
    NothingMade(Open(Context(p.states) + Frames(was)));
    if p.More() {
      if p.Peek() == KeyToken {
        PlacedNext(p, 1);
        FlowKeyNodeKeeps(p.Skip(), was);
      } else if p.Peek() == FlowMappingEndToken {
        EndKeeps(p, MappingEnd, was);
      } else {
        NodeFollows(p, was, AtFlowMappingEmptyValue, false, false);
      }
    }
  }

  lemma FlowMappingKeyKeeps(p: Parse, first: bool)
    requires Valid(p) && p.state == if first then AtFlowMappingFirstKey else AtFlowMappingKey
    ensures Keeps(Nested(p), ParseFlowMappingKey(p, first))
  {
    assert Frames(p.state) == [InMapping(true)];
    hide Accept, Context, Frames, ParseFlowSequenceItem, ParseFlowMappingItem, Keeps, Nested, Valid, Placed,
      WithinDocument;
    PlacedNow(p);
    NothingMade(Nested(p));
    var q := if first then p.Mark().Skip() else p;
    FlowMappingItemKeeps(q, p.state);
    if q.More() && q.Peek() == FlowEntryToken {
      PlacedNext(q, 1);
      FlowMappingItemKeeps(q.Skip(), p.state);
    }
  }

  lemma FlowMappingValueKeeps(p: Parse, empty: bool)
    requires Valid(p) && p.state == if empty then AtFlowMappingEmptyValue else AtFlowMappingValue
    ensures Keeps(Nested(p), ParseFlowMappingValue(p, empty))
  {
    assert Frames(p.state) == [InMapping(false)];
    hide Accept, Context, Frames, ParseNode, Keeps, Nested, Valid, Placed, Follows, WithinDocument;
    PlacedNow(p);
    ValueFollows(p.state);
    NothingMade(Nested(p));
    EmptyKeeps(p, p.state, AtFlowMappingKey);
    if p.More() && p.Peek() == ValueToken {
      PlacedNext(p, 1);
      ChildKeeps(p.Skip(), p.state, AtFlowMappingKey, false, false);
    }
  }

  /** Every step keeps the stacks fitting, finds its start token, and continues a well-nested stream. */
  lemma StepKeeps(p: Parse)
    requires Valid(p) && p.state != AtEnd
    ensures Keeps(Nested(p), Step(p))
  {
    match p.state
    case AtStreamStart => StreamStartKeeps(p);
    case AtImplicitDocumentStart => DocumentStartKeeps(p, true);
    case AtDocumentStart => DocumentStartKeeps(p, false);
    case AtDocumentContent => DocumentContentKeeps(p);
    case AtDocumentEnd => DocumentEndKeeps(p);
    case AtBlockNode => BlockNodeKeeps(p);
    case AtBlockSequenceFirstEntry => BlockSequenceEntryKeeps(p, true);
    case AtBlockSequenceEntry => BlockSequenceEntryKeeps(p, false);
    case AtIndentlessSequenceEntry => IndentlessSequenceEntryKeeps(p);
    case AtBlockMappingFirstKey => BlockMappingKeyKeeps(p, true);
    case AtBlockMappingKey => BlockMappingKeyKeeps(p, false);
    case AtBlockMappingValue => BlockMappingValueKeeps(p);
    case AtFlowSequenceFirstEntry => FlowSequenceEntryKeeps(p, true);
    case AtFlowSequenceEntry => FlowSequenceEntryKeeps(p, false);
    case AtFlowSequenceEntryMappingKey => FlowSequenceEntryMappingKeyKeeps(p);
    case AtFlowSequenceEntryMappingValue => FlowSequenceEntryMappingValueKeeps(p);
    case AtFlowSequenceEntryMappingEnd => FlowSequenceEntryMappingEndKeeps(p);
    case AtFlowMappingFirstKey => FlowMappingKeyKeeps(p, true);
    case AtFlowMappingKey => FlowMappingKeyKeeps(p, false);
    case AtFlowMappingValue => FlowMappingValueKeeps(p, false);
    case AtFlowMappingEmptyValue => FlowMappingValueKeeps(p, true);
  }
}
