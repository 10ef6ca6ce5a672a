/** The parser over whole token sequences: it stops, and what it made is well nested and leaves out no text. */
module ParserRuns {
  import opened YamlChars
  import opened YamlEvents
  import opened ParserSteps
  import opened ParserSoundness

  /** The texts a document is made of: anchors, aliases and scalars that are not empty. */
  datatype Item = AnchorItem(text: Bytes) | AliasItem(text: Bytes) | ScalarItem(text: Bytes)

  function Nonempty(i: Item): seq<Item> {
    if i.text == [] then [] else [i]
  }

  function Joined(a: seq<Item>, b: seq<Item>): seq<Item> {
    if a == [] then b else if b == [] then a else a + b
  }

  function TokenItems(t: Token): seq<Item> {
    match t
    case AliasToken(v) => Nonempty(AliasItem(v))
    case AnchorToken(v) => Nonempty(AnchorItem(v))
    case ScalarToken(v, _) => Nonempty(ScalarItem(v))
    case _ => []
  }

  function EventItems(e: Event): seq<Item> {
    match e
    case Alias(a) => Nonempty(AliasItem(a))
    case Scalar(a, _, v, _, _, _) => Joined(Nonempty(AnchorItem(a)), Nonempty(ScalarItem(v)))
    case SequenceStart(a, _, _, _) => Nonempty(AnchorItem(a))
    case MappingStart(a, _, _, _) => Nonempty(AnchorItem(a))
    case _ => []
  }

  /** The texts of the tokens from number `k` on. */
  function ItemsFrom(ts: seq<Token>, k: nat): seq<Item>
    decreases |ts| - k
  {
    if k >= |ts| then [] else Joined(TokenItems(ts[k]), ItemsFrom(ts, k + 1))
  }

  function AllEventItems(es: seq<Event>): seq<Item> {
    if es == [] then [] else Joined(EventItems(es[0]), AllEventItems(es[1..]))
  }

  /** The texts still to come. */
  function Unread(p: Parse): seq<Item>
    requires p.head <= |p.tokens|
  {
    ItemsFrom(p.tokens, p.head)
  }

  function Rank(s: State): nat {
    match s
    case AtStreamStart => 1
    case AtImplicitDocumentStart => 5
    case AtDocumentContent => 1
    case AtDocumentEnd => 1
    case AtBlockNode => 1
    case AtBlockMappingValue => 1
    case AtFlowSequenceEntryMappingKey => 4
    case AtFlowSequenceEntryMappingValue => 2
    case AtFlowSequenceEntryMappingEnd => 1
    case AtFlowMappingValue => 1
    case AtFlowMappingEmptyValue => 1
    case _ => 0
  }

  /** A bound on the events still to come. */
  function Left(p: Parse): nat
    requires p.head <= |p.tokens|
  {
    5 * (|p.tokens| - p.head) + 3 * |p.states| + Rank(p.state)
  }

  /** From `p` on, an event is made that hands on the texts read. */
  predicate HandsOn(p: Parse, o: Outcome)
    requires p.head <= |p.tokens|
  {
    o.Made? ==>
      && o.next.tokens == p.tokens
      && p.head <= o.next.head <= |p.tokens|
      && Unread(p) == Joined(EventItems(o.event), Unread(o.next))
  }

  predicate Leaves(left: int, o: Outcome) {
    o.Made? ==> o.next.head <= |o.next.tokens| && Left(o.next) <= left
  }

  function Bare(p: Parse): nat
    requires p.head <= |p.tokens|
  {
    5 * (|p.tokens| - p.head) + 3 * |p.states|
  }

  lemma SkipReads(p: Parse)
    requires p.More()
    ensures Unread(p) == Joined(TokenItems(p.Peek()), Unread(p.Skip()))
  {
  }

  lemma {:induction false} DirectivesRead(p: Parse, version: bool, declared: seq<TagDirective>)
    requires p.head <= |p.tokens|
    ensures var r := ProcessDirectives(p, version, declared); r.Directives? ==> Unread(r.next) == Unread(p)
    decreases |p.tokens| - p.head
  {
    if p.More() {
      SkipReads(p);
      match p.Peek()
      case VersionDirectiveToken(_, _) => DirectivesRead(p.Skip(), true, declared);
      case TagDirectiveToken(d) =>
        var q := p.(directives := p.directives + [d]);
        SkipReads(q);
        DirectivesRead(q.Skip(), version, declared + [d]);
      case _ =>
    }
  }

  lemma {:induction false} DocumentEndsRead(p: Parse)
    requires p.head <= |p.tokens|
    ensures SkipDocumentEnds(p).head <= |p.tokens| && Unread(SkipDocumentEnds(p)) == Unread(p)
    decreases |p.tokens| - p.head
  {
    if p.More() && p.Peek() == DocumentEndToken {
      SkipReads(p);
      DocumentEndsRead(p.Skip());
    }
  }

  lemma PropertiesRead(p: Parse)
    requires p.More()
    ensures var r := ParseProperties(p);
            r.Properties? ==> Unread(p) == Joined(Nonempty(AnchorItem(r.anchor)), Unread(r.next))
  {
    SkipReads(p);
    if p.Skip().More() {
      SkipReads(p.Skip());
    }
  }

  lemma ReturnRank(p: Parse)
    requires WithinDocument(p.states) && p.head <= |p.tokens|
    ensures Left(p.Return()) < Bare(p)
  {
    var s := p.states[|p.states| - 1];
    assert s == AtDocumentEnd || Returns(s);
  }

  lemma JoinedTwice(a: seq<Item>, b: seq<Item>, c: seq<Item>)
    ensures Joined(a, Joined(b, c)) == Joined(Joined(a, b), c)
  {
    assert a + (b + c) == a + b + c;
    assert a + [] == a;
  }

  lemma ScalarReads(p: Parse, anchor: Bytes, tag: Bytes)
    requires p.More() && p.Peek().ScalarToken?
    ensures Joined(Nonempty(AnchorItem(anchor)), Unread(p))
         == Joined(EventItems(ScalarEvent(anchor, tag, p.Peek().value, p.Peek().plain)), Unread(p.Skip()))
  {
    SkipReads(p);
    JoinedTwice(Nonempty(AnchorItem(anchor)), Nonempty(ScalarItem(p.Peek().value)), Unread(p.Skip()));
  }

  lemma StartItems(state: State, anchor: Bytes, tag: Bytes)
    ensures EventItems(StartEvent(state, anchor, tag)) == Nonempty(AnchorItem(anchor))
    ensures EventItems(Scalar(anchor, tag, [], tag == [], false, true)) == Nonempty(AnchorItem(anchor))
  {
  }

  lemma ContentReads(p: Parse, anchor: Bytes, tag: Bytes, block: bool, indentless: bool, o: Outcome)
    requires p.More() && p.states != [] && o == ParseContent(p, anchor, tag, block, indentless) && o.Made?
    ensures o.next.tokens == p.tokens && p.head <= o.next.head <= |p.tokens|
    ensures Joined(Nonempty(AnchorItem(anchor)), Unread(p)) == Joined(EventItems(o.event), Unread(o.next))
  {
    hide ItemsFrom, Joined, EventItems, Nonempty, ScalarEvent, StartEvent, Opening;
    if p.Peek().ScalarToken? {
      ScalarReads(p, anchor, tag);
    } else if Opening(p.Peek(), block, indentless).Some? {
      StartItems(Opening(p.Peek(), block, indentless).value, anchor, tag);
    } else {
      StartItems(p.state, anchor, tag);
    }
  }

  lemma ContentLeaves(p: Parse, anchor: Bytes, tag: Bytes, block: bool, indentless: bool)
    requires p.More() && WithinDocument(p.states)
    ensures Leaves(Bare(p), ParseContent(p, anchor, tag, block, indentless))
  {
    ReturnRank(p);
  }

  lemma NodeReads(p: Parse, block: bool, indentless: bool)
    requires p.head <= |p.tokens| && WithinDocument(p.states)
    ensures var o := ParseNode(p, block, indentless); HandsOn(p, o) && Leaves(Bare(p), o)
  {
    hide ItemsFrom, ParseContent;
    var o := ParseNode(p, block, indentless);
    if o.Made? {
      if p.Peek().AliasToken? {
        SkipReads(p);
        ReturnRank(p);
      } else {
        PropertiesRead(p);
        var r := ParseProperties(p);
        var tag := if r.tag.None? then [] else ResolvedTag(p.directives, r.tag.value.0, r.tag.value.1).value;
        ContentReads(r.next, r.anchor, tag, block, indentless, o);
        ContentLeaves(r.next, r.anchor, tag, block, indentless);
      }
    }
  }

  /** A node with the state to return to just pushed. */
  lemma FollowReads(p: Parse, after: State, block: bool, indentless: bool)
    requires p.head <= |p.tokens| && WithinDocument(p.states) && Returns(after)
    ensures HandsOn(p, ParseNode(p.Push(after), block, indentless))
    ensures Leaves(Bare(p) + 3, ParseNode(p.Push(after), block, indentless))
  {
    NodeReads(p.Push(after), block, indentless);
  }

  lemma SomeState(p: Parse)
    requires WithinDocument(p.states)
    ensures p.states != []
  {
  }

  lemma NothingReads(p: Parse)
    requires p.head <= |p.tokens|
    ensures HandsOn(p, Failed)
  {
  }

  /** An event without a text, made before any token is read. */
  lemma PlainReads(p: Parse, e: Event, q: Parse)
    requires p.head <= |p.tokens| && EventItems(e) == [] && q.tokens == p.tokens && q.head == p.head
    ensures HandsOn(p, Made(e, q))
  {
  }

  /** A token without a text may be read first. */
  lemma SkippedReads(p: Parse, o: Outcome)
    requires p.More() && TokenItems(p.Peek()) == [] && HandsOn(p.Skip(), o)
    ensures HandsOn(p, o)
  {
    hide ItemsFrom;
    SkipReads(p);
  }

  /** What has no text. */
  lemma Textless()
    ensures TokenItems(BlockEntryToken) == TokenItems(BlockEndToken) == TokenItems(KeyToken) == []
    ensures TokenItems(ValueToken) == TokenItems(FlowEntryToken) == TokenItems(FlowSequenceEndToken) == []
    ensures TokenItems(FlowMappingEndToken) == []
    ensures EventItems(EMPTY_SCALAR) == EventItems(SequenceEnd) == EventItems(MappingEnd) == []
    ensures EventItems(MappingStart([], [], true, true)) == []
  {
  }

  /** The place of an entry, a key or a value: a node, or nothing. */
  lemma ChildReads(p: Parse, after: State, block: bool, indentless: bool)
    requires p.head <= |p.tokens| && WithinDocument(p.states) && Returns(after)
    ensures HandsOn(p, ParseNode(p.Push(after), block, indentless))
    ensures HandsOn(p, Made(EMPTY_SCALAR, p.(state := after))) && HandsOn(p, Failed)
  {
    hide *;
    Textless();
    PlainReads(p, EMPTY_SCALAR, p.(state := after));
    FollowReads(p, after, block, indentless);
    NothingReads(p);
  }

  /** A collection's last token. */
  lemma EndReads(p: Parse, e: Event)
    requires p.More() && TokenItems(p.Peek()) == [] && EventItems(e) == [] && p.states != [] && p.marks != []
    ensures HandsOn(p, Made(e, p.Return().Unmark().Skip()))
  {
    hide TokenItems, EventItems, HandsOn;
    PlainReads(p.Skip(), e, p.Return().Unmark().Skip());
    SkippedReads(p, Made(e, p.Return().Unmark().Skip()));
  }

  lemma StreamStartReads(p: Parse)
    requires Valid(p) && p.state == AtStreamStart
    ensures HandsOn(p, ParseStreamStart(p)) && Leaves(Left(p) - 1, ParseStreamStart(p))
  {
    if p.More() {
      SkipReads(p);
    }
  }

  lemma DocumentReads(p: Parse, implicit: bool)
    requires p.More()
    ensures HandsOn(p, ParseDocument(p, implicit))
  {
    DirectivesRead(p, false, []);
    var d := ProcessDirectives(p, false, []);
    if d.Directives? {
      SkipReads(d.next);
    }
  }

  lemma DocumentLeaves(p: Parse, implicit: bool)
    requires p.More() && p.states == []
    ensures Leaves(if implicit then Bare(p) + 4 else Bare(p) - 1, ParseDocument(p, implicit))
  {
  }

  /** The ends of documents before the next one have no text. */
  lemma EndsSkipped(p: Parse, q: Parse, o: Outcome)
    requires p.head <= q.head <= |p.tokens| && q.tokens == p.tokens && Unread(q) == Unread(p) && HandsOn(q, o)
    ensures HandsOn(p, o)
  {
  }

  lemma StreamEndReads(p: Parse)
    requires p.More() && p.Peek() == StreamEndToken
    ensures HandsOn(p, Made(StreamEnd, p.(state := AtEnd).Skip()))
  {
    PlainReads(p.Skip(), StreamEnd, p.(state := AtEnd).Skip());
    SkippedReads(p, Made(StreamEnd, p.(state := AtEnd).Skip()));
  }

  lemma DocumentStartReads(p: Parse, implicit: bool)
    requires p.head <= |p.tokens|
    ensures HandsOn(p, ParseDocumentStart(p, implicit))
  {
    hide HandsOn, Unread, ParseDocument, SkipDocumentEnds;
    var q := if implicit then p else SkipDocumentEnds(p);
    DocumentEndsRead(p);
    NothingReads(p);
    if q.More() {
      if q.Peek() == StreamEndToken {
        StreamEndReads(q);
      } else {
        DocumentReads(q, implicit);
      }
      EndsSkipped(p, q, ParseDocumentStart(p, implicit));
    }
  }

  lemma DocumentStartLeaves(p: Parse, implicit: bool)
    requires p.head <= |p.tokens| && p.states == []
    requires p.state == if implicit then AtImplicitDocumentStart else AtDocumentStart
    ensures Leaves(Left(p) - 1, ParseDocumentStart(p, implicit))
  {
    hide ItemsFrom, ParseDocument, SkipDocumentEnds;
    var q := if implicit then p else SkipDocumentEnds(p);
    DocumentEndsRead(p);
    if q.More() {
      DocumentLeaves(q, implicit);
    }
  }

  lemma DocumentContentReads(p: Parse)
    requires Valid(p) && p.state == AtDocumentContent
    ensures HandsOn(p, ParseDocumentContent(p)) && Leaves(Left(p) - 1, ParseDocumentContent(p))
  {
    NodeReads(p, true, false);
    ReturnRank(p);
  }

  lemma DocumentEndReads(p: Parse)
    requires Valid(p) && p.state == AtDocumentEnd
    ensures HandsOn(p, ParseDocumentEnd(p)) && Leaves(Left(p) - 1, ParseDocumentEnd(p))
  {
    if p.More() {
      SkipReads(p);
    }
  }

  /** A collection's start token is marked and read. */
  lemma MarkedReads(p: Parse, o: Outcome)
    requires p.More() && TokenItems(p.Peek()) == [] && HandsOn(p.Mark().Skip(), o)
    ensures HandsOn(p, o)
  {
    hide ItemsFrom;
    SkipReads(p);
  }

  lemma NextBlockSequenceEntryReads(p: Parse)
    requires p.head <= |p.tokens| && WithinDocument(p.states) && p.marks != []
    ensures HandsOn(p, ParseBlockSequenceEntry(p, false))
  {
    hide ParseNode, HandsOn, TokenItems, EventItems, WithinDocument;
    SomeState(p);
    Textless();
    NothingReads(p);
    if p.More() {
      if p.Peek() == BlockEntryToken {
        ChildReads(p.Skip(), AtBlockSequenceEntry, true, false);
        SkippedReads(p, ParseBlockSequenceItem(p.Skip()));
      } else if p.Peek() == BlockEndToken {
        EndReads(p, SequenceEnd);
      }
    }
  }

  lemma NextBlockSequenceEntryLeaves(p: Parse)
    requires p.head <= |p.tokens| && WithinDocument(p.states) && p.marks != []
    ensures Leaves(Bare(p) - 1, ParseBlockSequenceEntry(p, false))
  {
    hide ParseNode, WithinDocument;
    if p.More() {
      ReturnRank(p);
      FollowReads(p.Skip(), AtBlockSequenceEntry, true, false);
    }
  }

  lemma BlockSequenceEntryReads(p: Parse, first: bool)
    requires WithinDocument(p.states) && p.head <= |p.tokens|
    requires if first then p.More() && TokenItems(p.Peek()) == [] else p.marks != []
    ensures HandsOn(p, ParseBlockSequenceEntry(p, first))
  {
    hide ParseBlockSequenceItem, ParseBlockMappingNode, HandsOn, TokenItems, WithinDocument;
    SomeState(p);
    NextBlockSequenceEntryReads(if first then p.Mark().Skip() else p);
    if first {
      MarkedReads(p, ParseBlockSequenceEntry(p, first));
    }
  }

  lemma BlockSequenceEntryLeaves(p: Parse, first: bool)
    requires WithinDocument(p.states) && p.head <= |p.tokens|
    requires if first then p.More() && TokenItems(p.Peek()) == [] else p.marks != []
    ensures Leaves(Bare(p) - 1, ParseBlockSequenceEntry(p, first))
  {
    hide ParseNode, WithinDocument;
    NextBlockSequenceEntryLeaves(if first then p.Mark().Skip() else p);
  }

  lemma NextBlockMappingKeyReads(p: Parse)
    requires p.head <= |p.tokens| && WithinDocument(p.states) && p.marks != []
    ensures HandsOn(p, ParseBlockMappingKey(p, false))
  {
    hide ParseNode, HandsOn, TokenItems, EventItems, WithinDocument;
    SomeState(p);
    Textless();
    NothingReads(p);
    if p.More() {
      if p.Peek() == KeyToken {
        ChildReads(p.Skip(), AtBlockMappingValue, true, true);
        SkippedReads(p, ParseBlockMappingNode(p.Skip(), AtBlockMappingValue));
      } else if p.Peek() == BlockEndToken {
        EndReads(p, MappingEnd);
      }
    }
  }

  lemma NextBlockMappingKeyLeaves(p: Parse)
    requires p.head <= |p.tokens| && WithinDocument(p.states) && p.marks != []
    ensures Leaves(Bare(p) - 1, ParseBlockMappingKey(p, false))
  {
    hide ParseNode, WithinDocument;
    if p.More() {
      ReturnRank(p);
      FollowReads(p.Skip(), AtBlockMappingValue, true, true);
    }
  }

  lemma BlockMappingKeyReads(p: Parse, first: bool)
    requires WithinDocument(p.states) && p.head <= |p.tokens|
    requires if first then p.More() && TokenItems(p.Peek()) == [] else p.marks != []
    ensures HandsOn(p, ParseBlockMappingKey(p, first))
  {
    hide ParseBlockSequenceItem, ParseBlockMappingNode, HandsOn, TokenItems, WithinDocument;
    SomeState(p);
    NextBlockMappingKeyReads(if first then p.Mark().Skip() else p);
    if first {
      MarkedReads(p, ParseBlockMappingKey(p, first));
    }
  }

  lemma BlockMappingKeyLeaves(p: Parse, first: bool)
    requires WithinDocument(p.states) && p.head <= |p.tokens|
    requires if first then p.More() && TokenItems(p.Peek()) == [] else p.marks != []
    ensures Leaves(Bare(p) - 1, ParseBlockMappingKey(p, first))
  {
    hide ParseNode, WithinDocument;
    NextBlockMappingKeyLeaves(if first then p.Mark().Skip() else p);
  }

  lemma IndentlessSequenceEntryReads(p: Parse)
    requires p.head <= |p.tokens| && WithinDocument(p.states)
    ensures HandsOn(p, ParseIndentlessSequenceEntry(p))
  {
    hide ParseNode, HandsOn, TokenItems, EventItems, WithinDocument;
    SomeState(p);
    Textless();
    NothingReads(p);
    if p.More() {
      if p.Peek() == BlockEntryToken {
        ChildReads(p.Skip(), AtIndentlessSequenceEntry, true, false);
        SkippedReads(p, ParseIndentlessItem(p.Skip()));
      } else {
        PlainReads(p, SequenceEnd, p.Return());
      }
    }
  }

  lemma IndentlessSequenceEntryLeaves(p: Parse)
    requires Valid(p) && p.state == AtIndentlessSequenceEntry
    ensures Leaves(Left(p) - 1, ParseIndentlessSequenceEntry(p))
  {
    hide ParseNode, WithinDocument;
    if p.More() {
      ReturnRank(p);
      FollowReads(p.Skip(), AtIndentlessSequenceEntry, true, false);
    }
  }

  lemma BlockMappingValueReads(p: Parse)
    requires p.head <= |p.tokens| && WithinDocument(p.states)
    ensures HandsOn(p, ParseBlockMappingValue(p))
  {
    hide ParseNode, HandsOn, TokenItems, EventItems, WithinDocument;
    Textless();
    ChildReads(p, AtBlockMappingKey, true, true);
    if p.More() && p.Peek() == ValueToken {
      ChildReads(p.Skip(), AtBlockMappingKey, true, true);
      SkippedReads(p, ParseBlockMappingNode(p.Skip(), AtBlockMappingKey));
    }
  }

  lemma BlockMappingValueLeaves(p: Parse)
    requires Valid(p) && p.state == AtBlockMappingValue
    ensures Leaves(Left(p) - 1, ParseBlockMappingValue(p))
  {
    hide ParseNode, WithinDocument;
    if p.More() {
      FollowReads(p.Skip(), AtBlockMappingKey, true, true);
    }
  }

  lemma FlowSequenceItemReads(p: Parse)
    requires p.head <= |p.tokens| && WithinDocument(p.states) && p.marks != []
    ensures HandsOn(p, ParseFlowSequenceItem(p))
  {
    hide ParseNode, HandsOn, TokenItems, EventItems, WithinDocument;
    SomeState(p);
    Textless();
    NothingReads(p);
    if p.More() {
      if p.Peek() == KeyToken {
        var q := p.(state := AtFlowSequenceEntryMappingKey).Skip();
        PlainReads(p.Skip(), MappingStart([], [], true, true), q);
        SkippedReads(p, Made(MappingStart([], [], true, true), q));
      } else if p.Peek() == FlowSequenceEndToken {
        EndReads(p, SequenceEnd);
      } else {
        ChildReads(p, AtFlowSequenceEntry, false, false);
      }
    }
  }

  lemma FlowSequenceItemLeaves(p: Parse)
    requires p.head <= |p.tokens| && WithinDocument(p.states) && p.marks != []
    ensures Leaves(Bare(p) + 3, ParseFlowSequenceItem(p))
  {
    hide ParseNode, WithinDocument;
    if p.More() {
      ReturnRank(p);
      FollowReads(p, AtFlowSequenceEntry, false, false);
    }
  }

  lemma FlowSequenceEntryReads(p: Parse, first: bool)
    requires WithinDocument(p.states) && p.head <= |p.tokens|
    requires if first then p.More() && TokenItems(p.Peek()) == [] else p.marks != []
    ensures HandsOn(p, ParseFlowSequenceEntry(p, first))
  {
    hide ParseFlowSequenceItem, HandsOn, TokenItems, WithinDocument;
    SomeState(p);
    Textless();
    NothingReads(p);
    if p.More() {
      if first {
        FlowSequenceItemReads(p.Mark().Skip());
        MarkedReads(p, ParseFlowSequenceItem(p.Mark().Skip()));
      } else if p.Peek() == FlowEntryToken {
        FlowSequenceItemReads(p.Skip());
        SkippedReads(p, ParseFlowSequenceItem(p.Skip()));
      } else {
        FlowSequenceItemReads(p);
      }
    }
  }

  lemma FlowSequenceEntryLeaves(p: Parse, first: bool)
    requires WithinDocument(p.states) && p.head <= |p.tokens|
    requires if first then p.More() && TokenItems(p.Peek()) == [] else p.marks != []
    ensures Leaves(Bare(p) - 1, ParseFlowSequenceEntry(p, first))
  {
    hide ParseNode, WithinDocument;
    if p.More() {
      if first {
        FlowSequenceItemLeaves(p.Mark().Skip());
      } else if p.Peek() == FlowEntryToken {
        FlowSequenceItemLeaves(p.Skip());
      } else {
        ReturnRank(p);
      }
    }
  }

  lemma PairKeyReads(p: Parse)
    requires p.head <= |p.tokens| && WithinDocument(p.states)
    ensures HandsOn(p, ParseFlowSequenceEntryMappingKey(p))
  {
    hide ParseNode, HandsOn, TokenItems, EventItems, WithinDocument;
    ChildReads(p, AtFlowSequenceEntryMappingValue, false, false);
    if p.More() && EndsPairKey(p.Peek()) {
      Textless();
      var q := p.Skip().(state := AtFlowSequenceEntryMappingValue);
      PlainReads(p.Skip(), EMPTY_SCALAR, q);
      SkippedReads(p, Made(EMPTY_SCALAR, q));
    }
  }

  lemma PairKeyLeaves(p: Parse)
    requires Valid(p) && p.state == AtFlowSequenceEntryMappingKey
    ensures Leaves(Left(p) - 1, ParseFlowSequenceEntryMappingKey(p))
  {
    hide ParseNode, WithinDocument;
    FollowReads(p, AtFlowSequenceEntryMappingValue, false, false);
  }

  lemma PairValueReads(p: Parse)
    requires p.head <= |p.tokens| && WithinDocument(p.states)
    ensures HandsOn(p, ParseFlowSequenceEntryMappingValue(p))
  {
    hide ParseNode, HandsOn, TokenItems, EventItems, WithinDocument;
    Textless();
    ChildReads(p, AtFlowSequenceEntryMappingEnd, false, false);
    if p.More() && p.Peek() == ValueToken {
      ChildReads(p.Skip(), AtFlowSequenceEntryMappingEnd, false, false);
      SkippedReads(p, ParsePairValueNode(p.Skip()));
    }
  }

  lemma PairValueLeaves(p: Parse)
    requires Valid(p) && p.state == AtFlowSequenceEntryMappingValue
    ensures Leaves(Left(p) - 1, ParseFlowSequenceEntryMappingValue(p))
  {
    hide ParseNode, WithinDocument;
    if p.More() {
      FollowReads(p.Skip(), AtFlowSequenceEntryMappingEnd, false, false);
    }
  }

  lemma FlowKeyNodeReads(p: Parse)
    requires p.head <= |p.tokens| && WithinDocument(p.states)
    ensures HandsOn(p, ParseFlowKeyNode(p)) && Leaves(Bare(p) + 3, ParseFlowKeyNode(p))
  {
    FollowReads(p, AtFlowMappingValue, false, false);
  }

  lemma FlowMappingItemReads(p: Parse)
    requires p.head <= |p.tokens| && WithinDocument(p.states) && p.marks != []
    ensures HandsOn(p, ParseFlowMappingItem(p))
  {
    hide ParseNode, HandsOn, TokenItems, EventItems, WithinDocument;
    SomeState(p);
    Textless();
    NothingReads(p);
    if p.More() {
      if p.Peek() == KeyToken {
        FlowKeyNodeReads(p.Skip());
        SkippedReads(p, ParseFlowKeyNode(p.Skip()));
      } else if p.Peek() == FlowMappingEndToken {
        EndReads(p, MappingEnd);
      } else {
        ChildReads(p, AtFlowMappingEmptyValue, false, false);
      }
    }
  }

  lemma FlowMappingItemLeaves(p: Parse)
    requires p.head <= |p.tokens| && WithinDocument(p.states) && p.marks != []
    ensures Leaves(Bare(p) + 3, ParseFlowMappingItem(p))
  {
    hide ParseNode, WithinDocument;
    if p.More() {
      ReturnRank(p);
      FollowReads(p, AtFlowMappingEmptyValue, false, false);
      FlowKeyNodeReads(p.Skip());
    }
  }

  lemma FlowMappingKeyReads(p: Parse, first: bool)
    requires WithinDocument(p.states) && p.head <= |p.tokens|
    requires if first then p.More() && TokenItems(p.Peek()) == [] else p.marks != []
    ensures HandsOn(p, ParseFlowMappingKey(p, first))
  {
    hide ParseFlowMappingItem, HandsOn, TokenItems, WithinDocument;
    SomeState(p);
    Textless();
    NothingReads(p);
    if p.More() {
      if first {
        FlowMappingItemReads(p.Mark().Skip());
        MarkedReads(p, ParseFlowMappingItem(p.Mark().Skip()));
      } else if p.Peek() == FlowEntryToken {
        FlowMappingItemReads(p.Skip());
        SkippedReads(p, ParseFlowMappingItem(p.Skip()));
      } else {
        FlowMappingItemReads(p);
      }
    }
  }

  lemma FlowMappingKeyLeaves(p: Parse, first: bool)
    requires WithinDocument(p.states) && p.head <= |p.tokens|
    requires if first then p.More() && TokenItems(p.Peek()) == [] else p.marks != []
    ensures Leaves(Bare(p) - 1, ParseFlowMappingKey(p, first))
  {
    hide ParseNode, WithinDocument;
    if p.More() {
      if first {
        FlowMappingItemLeaves(p.Mark().Skip());
      } else if p.Peek() == FlowEntryToken {
        FlowMappingItemLeaves(p.Skip());
      } else {
        ReturnRank(p);
      }
    }
  }

  lemma FlowMappingValueReads(p: Parse, empty: bool)
    requires p.head <= |p.tokens| && WithinDocument(p.states)
    ensures HandsOn(p, ParseFlowMappingValue(p, empty))
  {
    hide ParseNode, HandsOn, TokenItems, EventItems, WithinDocument;
    Textless();
    ChildReads(p, AtFlowMappingKey, false, false);
    if p.More() && p.Peek() == ValueToken {
      ChildReads(p.Skip(), AtFlowMappingKey, false, false);
      SkippedReads(p, ParseFlowValueNode(p.Skip()));
    }
  }

  lemma FlowMappingValueLeaves(p: Parse, empty: bool)
    requires Valid(p) && p.state == if empty then AtFlowMappingEmptyValue else AtFlowMappingValue
    ensures Leaves(Left(p) - 1, ParseFlowMappingValue(p, empty))
  {
    hide ParseNode, WithinDocument;
    if p.More() {
      FollowReads(p.Skip(), AtFlowMappingKey, false, false);
    }
  }

  /** Every step hands on the texts it read. */
  lemma StepReads(p: Parse)
    requires Valid(p) && p.state != AtEnd
    ensures HandsOn(p, Step(p))
  {
    match p.state
    case AtStreamStart => StreamStartReads(p);
    case AtImplicitDocumentStart => DocumentStartReads(p, true);
    case AtDocumentStart => DocumentStartReads(p, false);
    case AtDocumentContent => DocumentContentReads(p);
    case AtDocumentEnd => DocumentEndReads(p);
    case AtBlockNode => NodeReads(p, true, false);
    case AtBlockSequenceFirstEntry => BlockSequenceEntryReads(p, true);
    case AtBlockSequenceEntry => BlockSequenceEntryReads(p, false);
    case AtIndentlessSequenceEntry => IndentlessSequenceEntryReads(p);
    case AtBlockMappingFirstKey => BlockMappingKeyReads(p, true);
    case AtBlockMappingKey => BlockMappingKeyReads(p, false);
    case AtBlockMappingValue => BlockMappingValueReads(p);
    case AtFlowSequenceFirstEntry => FlowSequenceEntryReads(p, true);
    case AtFlowSequenceEntry => FlowSequenceEntryReads(p, false);
    case AtFlowSequenceEntryMappingKey => PairKeyReads(p);
    case AtFlowSequenceEntryMappingValue => PairValueReads(p);
    case AtFlowSequenceEntryMappingEnd =>
    case AtFlowMappingFirstKey => FlowMappingKeyReads(p, true);
    case AtFlowMappingKey => FlowMappingKeyReads(p, false);
    case AtFlowMappingValue => FlowMappingValueReads(p, false);
    case AtFlowMappingEmptyValue => FlowMappingValueReads(p, true);
  }

  /** Every step uses up the bound on the steps left. */
  lemma StepLeaves(p: Parse)
    requires Valid(p) && p.state != AtEnd
    ensures Leaves(Left(p) - 1, Step(p))
  {
    match p.state
    case AtStreamStart => StreamStartReads(p);
    case AtImplicitDocumentStart => DocumentStartLeaves(p, true);
    case AtDocumentStart => DocumentStartLeaves(p, false);
    case AtDocumentContent => DocumentContentReads(p);
    case AtDocumentEnd => DocumentEndReads(p);
    case AtBlockNode => NodeReads(p, true, false);
    case AtBlockSequenceFirstEntry => BlockSequenceEntryLeaves(p, true);
    case AtBlockSequenceEntry => BlockSequenceEntryLeaves(p, false);
    case AtIndentlessSequenceEntry => IndentlessSequenceEntryLeaves(p);
    case AtBlockMappingFirstKey => BlockMappingKeyLeaves(p, true);
    case AtBlockMappingKey => BlockMappingKeyLeaves(p, false);
    case AtBlockMappingValue => BlockMappingValueLeaves(p);
    case AtFlowSequenceFirstEntry => FlowSequenceEntryLeaves(p, true);
    case AtFlowSequenceEntry => FlowSequenceEntryLeaves(p, false);
    case AtFlowSequenceEntryMappingKey => PairKeyLeaves(p);
    case AtFlowSequenceEntryMappingValue => PairValueLeaves(p);
    case AtFlowSequenceEntryMappingEnd =>
    case AtFlowMappingFirstKey => FlowMappingKeyLeaves(p, true);
    case AtFlowMappingKey => FlowMappingKeyLeaves(p, false);
    case AtFlowMappingValue => FlowMappingValueLeaves(p, false);
    case AtFlowMappingEmptyValue => FlowMappingValueLeaves(p, true);
  }

  /** What a parser makes of its tokens: the events, and whether it ended without an error. */
  datatype Run = Run(events: seq<Event>, ok: bool)

  function Parsed(p: Parse): Run
    requires Valid(p)
    decreases Left(p)
  {
    if p.state == AtEnd then Run([], true)
    else
      match Step(p)
      case Failed => Run([], false)
      case Made(e, q) =>
        StepKeeps(p);
        StepLeaves(p);
        var rest := Parsed(q);
        Run([e] + rest.events, rest.ok)
  }

  /** The events made so far, and what becomes of the rest. */
  function After(events: seq<Event>, p: Parse): Run
    requires Valid(p)
  {
    Run(events + Parsed(p).events, Parsed(p).ok)
  }

  lemma OneMore(events: seq<Event>, p: Parse)
    requires Valid(p) && p.state != AtEnd
    ensures match Step(p)
            case Failed => After(events, p) == Run(events, false)
            case Made(e, q) => Valid(q) && Left(q) < Left(p) && After(events, p) == After(events + [e], q)
  {
    hide Step, Left, Valid, Accept;
    match Step(p)
    case Failed => assert events + [] == events;
    case Made(e, q) =>
      StepKeeps(p);
      StepLeaves(p);
      assert events + ([e] + Parsed(q).events) == events + [e] + Parsed(q).events;
  }

  /** The events continue what was open, and close it exactly if there is no error. */
  lemma {:induction false} RunIsNested(p: Parse)
    requires Valid(p)
    ensures var r := Parsed(p);
            && AcceptAll(Nested(p), r.events).Some?
            && (r.ok <==> AcceptAll(Nested(p), r.events) == Some(Ended))
            && |r.events| <= Left(p)
    decreases Left(p)
  {
    if p.state != AtEnd {
      match Step(p)
      case Failed =>
      case Made(e, q) =>
        StepKeeps(p);
        StepLeaves(p);
        RunIsNested(q);
        AcceptOne(Nested(p), e);
        AcceptJoins(Nested(p), [e], Parsed(q).events);
    }
  }

  lemma ItemsCons(e: Event, es: seq<Event>)
    ensures AllEventItems([e] + es) == Joined(EventItems(e), AllEventItems(es))
  {
    hide EventItems, Joined;
    assert ([e] + es)[1..] == es;
  }

  lemma JoinedPrefix(a: seq<Item>, b: seq<Item>, c: seq<Item>)
    requires b <= c
    ensures Joined(a, b) <= Joined(a, c)
  {
  }

  /** The texts of the events are those of the tokens, as far as the parser comes. */
  lemma {:induction false} RunHandsOn(p: Parse)
    requires Valid(p)
    ensures var r := Parsed(p); AllEventItems(r.events) <= Unread(p)
    decreases Left(p)
  {
    if p.state != AtEnd {
      match Step(p)
      case Failed =>
      case Made(e, q) =>
        hide Step, Left, ItemsFrom, EventItems, Valid;
        StepKeeps(p);
        StepLeaves(p);
        StepReads(p);
        RunHandsOn(q);
        ItemsCons(e, Parsed(q).events);
        JoinedPrefix(EventItems(e), AllEventItems(Parsed(q).events), Unread(q));
    }
  }

  /** For every token sequence the parser stops, having made a prefix of a well-nested stream; it made the
      whole of one exactly if it met no error.  No text is lost, made up or put elsewhere. */
  lemma EveryParse(tokens: seq<Token>)
    ensures Valid(Start(tokens))
    ensures var r := Parsed(Start(tokens));
            && WellNested(r.events)
            && (r.ok <==> Complete(r.events))
            && |r.events| <= 5 * |tokens| + 1
            && AllEventItems(r.events) <= ItemsFrom(tokens, 0)
  {
    var p := Start(tokens);
    RunIsNested(p);
    RunHandsOn(p);
  }
}
