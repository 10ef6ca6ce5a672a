/** Every tree of the grammar, written in any of the ways the grammar has, is parsed to that tree's events. */
module ParserRoundTrip {
  import opened YamlChars
  import opened YamlEvents
  import opened ParserSteps
  import opened ParserSoundness
  import opened ParserRuns
  import opened TokenGrammar

  function Forward(p: Parse, k: nat): Parse {
    p.(head := p.head + k)
  }

  /** The tokens that come next. */
  predicate Next(p: Parse, ts: seq<Token>) {
    p.head + |ts| <= |p.tokens| && p.tokens[p.head..p.head + |ts|] == ts
  }

  lemma NextSplit(p: Parse, a: seq<Token>, b: seq<Token>)
    requires Next(p, a + b)
    ensures Next(p, a) && Next(Forward(p, |a|), b)
  {
    var all := p.tokens[p.head..p.head + |a + b|];
    assert p.tokens[p.head..p.head + |a|] == all[..|a|] == a;
    assert p.tokens[p.head + |a|..p.head + |a| + |b|] == all[|a|..] == b;
  }

  lemma NextToken(p: Parse, t: Token, b: seq<Token>)
    requires Next(p, [t] + b) && !p.streamEnd && t != StreamEndToken
    ensures p.More() && p.Peek() == t && p.Skip() == Forward(p, 1) && Next(Forward(p, 1), b)
  {
    NextSplit(p, [t], b);
    assert p.tokens[p.head] == p.tokens[p.head..p.head + 1][0];
  }

  lemma NextHead(p: Parse, a: seq<Token>)
    requires Next(p, a) && a != []
    ensures p.More() && p.Peek() == a[0]
  {
    assert p.tokens[p.head] == p.tokens[p.head..p.head + |a|][0];
  }

  function StepOf(p: Parse): Outcome {
    if Valid(p) && p.state != AtEnd then Step(p) else Failed
  }

  /** From `p` the parser makes exactly these events and is then at `q`. */
  predicate Runs(p: Parse, es: seq<Event>, q: Parse)
    decreases |es|, 1
  {
    if es == [] then p == q else Goes(StepOf(p), es, q)
  }

  /** The outcome of a step is the first of these events, and the others follow. */
  predicate Goes(o: Outcome, es: seq<Event>, q: Parse)
    requires es != []
    decreases |es|, 0
  {
    o.Made? && o.event == es[0] && Runs(o.next, es[1..], q)
  }

  lemma {:induction false} RunsThen(p: Parse, a: seq<Event>, q: Parse, b: seq<Event>, r: Parse)
    requires Runs(p, a, q) && Runs(q, b, r)
    ensures Runs(p, a + b, r)
    decreases |a|, 1
  {
    hide StepOf;
    if a == [] {
      assert a + b == b;
    } else {
      GoesThen(StepOf(p), a, q, b, r);
    }
  }

  lemma {:induction false} GoesThen(o: Outcome, a: seq<Event>, q: Parse, b: seq<Event>, r: Parse)
    requires a != [] && Goes(o, a, q) && Runs(q, b, r)
    ensures Goes(o, a + b, r)
    decreases |a|, 0
  {
    hide StepOf;
    RunsThen(o.next, a[1..], q, b, r);
    assert (a + b)[1..] == a[1..] + b;
  }

  lemma GoesOnce(e: Event, q: Parse)
    ensures Goes(Made(e, q), [e], q)
  {
    assert Runs(q, [e][1..], q);
  }

  /** A run that is one step and the rest. */
  lemma GoesOn(e: Event, q: Parse, es: seq<Event>, r: Parse)
    requires Runs(q, es, r)
    ensures Goes(Made(e, q), [e] + es, r)
  {
    hide StepOf;
    assert ([e] + es)[1..] == es;
  }

  /** A node may be parsed, the state to return to being on the stack. */
  predicate Ready(p: Parse) {
    && p.head <= |p.tokens| && p.states != [] && WithinDocument(p.states)
    && |p.marks| == MarkCount(p.states) && !p.streamEnd
  }

  /** The entries of a collection with a mark are being parsed. */
  predicate Inside(p: Parse) {
    && p.head <= |p.tokens| && p.states != [] && p.marks != [] && WithinDocument(p.states)
    && |p.marks| == MarkCount(p.states) + 1 && !p.streamEnd
  }

  /** Past `k` tokens, in the state that was on the stack. */
  function Back(p: Parse, k: nat): Parse
    requires p.states != []
  {
    Forward(p, k).Return()
  }

  /** Past `k` tokens, and out of the collection. */
  function Out(p: Parse, k: nat): Parse
    requires p.states != [] && p.marks != []
  {
    Forward(p, k).Return().Unmark()
  }

  lemma PushReady(p: Parse, s: State, k: nat)
    requires Returns(s) && if Marked(s) then Inside(p) else Ready(p)
    ensures Ready(p.Push(s)) && Back(p.Push(s), k) == Forward(p, k).(state := s)
  {
    Pushed(p.states, s);
  }

  /** The tokens after which a node is over. */
  predicate Closes(t: Token) {
    || t == BlockEntryToken || t == KeyToken || t == ValueToken || t == BlockEndToken
    || t == FlowEntryToken || t == FlowSequenceEndToken || t == FlowMappingEndToken || EndsDocument(t)
  }

  /** After `k` tokens a node ends. */
  predicate Closed(p: Parse, k: nat, indentless: bool) {
    && p.head + k < |p.tokens|
    && Closes(p.tokens[p.head + k])
    && (indentless ==> EndsBlockEntry(p.tokens[p.head + k]))
  }

  lemma ClosedBy(p: Parse, a: seq<Token>, b: seq<Token>, indentless: bool)
    requires Next(p, a + b) && b != [] && Closes(b[0]) && (indentless ==> EndsBlockEntry(b[0]))
    ensures Next(p, a) && Next(Forward(p, |a|), b) && Closed(p, |a|, indentless)
  {
    NextSplit(p, a, b);
    NextHead(Forward(p, |a|), b);
  }

  /** The tokens a node can begin with. */
  predicate Begins(t: Token) {
    || t.AliasToken? || t.AnchorToken? || t.TagToken? || t.ScalarToken? || t == BlockSequenceStartToken
    || t == BlockMappingStartToken || t == FlowSequenceStartToken || t == FlowMappingStartToken
  }

  lemma FirstToken(t: Tree, ds: seq<TagDirective>, block: bool, indentless: bool)
    requires Fits(t, ds, block, indentless)
    ensures Tokens(t) != [] && (Begins(Tokens(t)[0]) || (indentless && Tokens(t)[0] == BlockEntryToken))
  {
  }

  /** The properties are read whole. */
  lemma PropertiesRead(p: Parse, props: Props)
    requires Ready(p) && Next(p, PropsTokens(props))
    requires var q := Forward(p, |PropsTokens(props)|);
             q.More() && !q.Peek().AliasToken? && !q.Peek().AnchorToken? && !q.Peek().TagToken?
    ensures p.More() && !p.Peek().AliasToken?
         && ParseProperties(p) == Properties(Forward(p, |PropsTokens(props)|), props.anchor, props.tag)
  {
    hide WithinDocument, MarkCount;
    var ts := PropsTokens(props);
    if ts != [] {
      NextHead(p, ts);
      if |ts| == 2 {
        assert ts == [ts[0]] + [ts[1]];
        NextToken(p, ts[0], [ts[1]]);
        NextHead(Forward(p, 1), [ts[1]]);
      }
    }
  }

  /** The content is parsed after the properties. */
  lemma PropsRead(p: Parse, props: Props, block: bool, indentless: bool)
    requires Ready(p) && PropsFit(props, p.directives) && Next(p, PropsTokens(props))
    requires var q := Forward(p, |PropsTokens(props)|);
             q.More() && !q.Peek().AliasToken? && !q.Peek().AnchorToken? && !q.Peek().TagToken?
    ensures ParseNode(p, block, indentless)
         == ParseContent(Forward(p, |PropsTokens(props)|), props.anchor, FullTag(props, p.directives), block,
           indentless)
  {
    hide ParseContent, ResolvedTag, ParseProperties, PropsTokens, Next, WithinDocument, MarkCount;
    PropertiesRead(p, props);
  }

  lemma EventsSome(t: Tree, ds: seq<TagDirective>)
    ensures Events(t, ds) != []
    ensures t.Omitted? || t.Absent? || t.Unmarked? || t.Keyless? ==> Events(t, ds) == [EMPTY_SCALAR]
  {
  }

  /** With another stack the same tokens come next. */
  lemma SamePlace(p: Parse, q: Parse, ts: seq<Token>, indentless: bool)
    requires p.tokens == q.tokens && p.head == q.head && Next(p, ts) && Closed(p, |ts|, indentless)
    ensures Next(q, ts) && Closed(q, |ts|, indentless)
  {
  }

  /** Where the tokens are the same, the same comes next. */
  lemma NextSame(p: Parse, q: Parse, ts: seq<Token>)
    requires Next(p, ts) && p.tokens == q.tokens && p.head == q.head
    ensures Next(q, ts) && q.head + |ts| <= |q.tokens|
  {
  }

  /** What is parsed in the states that come after a collection's first entry. */
  lemma StepsAt(p: Parse)
    requires Inside(p)
    ensures p.state == AtBlockSequenceEntry ==> StepOf(p) == ParseBlockSequenceEntry(p, false)
    ensures p.state == AtBlockMappingKey ==> StepOf(p) == ParseBlockMappingKey(p, false)
    ensures p.state == AtBlockMappingValue ==> StepOf(p) == ParseBlockMappingValue(p)
    ensures p.state == AtFlowSequenceEntry ==> StepOf(p) == ParseFlowSequenceEntry(p, false)
    ensures p.state == AtFlowSequenceEntryMappingKey ==> StepOf(p) == ParseFlowSequenceEntryMappingKey(p)
    ensures p.state == AtFlowSequenceEntryMappingValue ==> StepOf(p) == ParseFlowSequenceEntryMappingValue(p)
    ensures p.state == AtFlowSequenceEntryMappingEnd ==> StepOf(p) == ParseFlowSequenceEntryMappingEnd(p)
    ensures p.state == AtFlowMappingKey ==> StepOf(p) == ParseFlowMappingKey(p, false)
    ensures p.state == AtFlowMappingValue ==> StepOf(p) == ParseFlowMappingValue(p, false)
    ensures p.state == AtFlowMappingEmptyValue ==> StepOf(p) == ParseFlowMappingValue(p, true)
  {
  }

  lemma IndentlessStep(p: Parse)
    requires Ready(p) && p.state == AtIndentlessSequenceEntry
    ensures StepOf(p) == ParseIndentlessSequenceEntry(p)
  {
  }

  lemma RunsNow(p: Parse, es: seq<Event>, q: Parse)
    requires es != [] && Goes(StepOf(p), es, q)
    ensures Runs(p, es, q)
  {
  }

  lemma EndGoes(p: Parse, e: Event, ds: seq<TagDirective>)
    requires Inside(p) && p.More() && p.Peek() != StreamEndToken
    ensures Goes(Made(e, p.Return().Unmark().Skip()), AllEvents([], ds) + [e], Out(p, 1))
  {
    hide WithinDocument, MarkCount;
    NoEvents(ds, e);
    hide AllEvents, Goes;
    GoesOnce(e, Out(p, 1));
  }

  lemma NoEvents(ds: seq<TagDirective>, e: Event)
    ensures AllEvents([], ds) + [e] == [e]
  {
  }

  /** A key, its value and the pairs after them. */
  lemma PairsJoin(o: Outcome, s: Parse, ts: seq<Tree>, ds: seq<TagDirective>, u: Parse, e: Event, q: Parse)
    requires |ts| >= 2 && Goes(o, Events(ts[0], ds), s)
    requires Goes(StepOf(s), Events(ts[1], ds), u) && Goes(StepOf(u), AllEvents(ts[2..], ds) + [e], q)
    ensures Goes(o, AllEvents(ts, ds) + [e], q)
  {
    hide Goes, Runs, Events, StepOf;
    EventsSome(ts[0], ds);
    EventsSome(ts[1], ds);
    RunsNow(u, AllEvents(ts[2..], ds) + [e], q);
    assert ts[1..][1..] == ts[2..];
    ItemsJoin(StepOf(s), ts[1..], ds, u, e, q);
    RunsNow(s, AllEvents(ts[1..], ds) + [e], q);
    ItemsJoin(o, ts, ds, s, e, q);
  }

  /** An item and the ones after it. */
  lemma ItemsJoin(o: Outcome, ts: seq<Tree>, ds: seq<TagDirective>, s: Parse, e: Event, q: Parse)
    requires ts != [] && Events(ts[0], ds) != [] && Goes(o, Events(ts[0], ds), s)
    requires Runs(s, AllEvents(ts[1..], ds) + [e], q)
    ensures Goes(o, AllEvents(ts, ds) + [e], q)
  {
    hide Goes, Runs, Events;
    GoesThen(o, Events(ts[0], ds), s, AllEvents(ts[1..], ds) + [e], q);
    assert AllEvents(ts, ds) + [e] == Events(ts[0], ds) + (AllEvents(ts[1..], ds) + [e]);
  }

  /** A child that may be left out, in a place that ends with the tokens `rest`. */
  lemma ChildGoes(p: Parse, t: Tree, ds: seq<TagDirective>, rest: seq<Token>, after: State, block: bool,
                  indentless: bool, s: Parse)
    requires Returns(after) && (if Marked(after) then Inside(p) else Ready(p)) && p.directives == ds
    requires t.Omitted? || Fits(t, ds, block, indentless)
    requires Next(p, Tokens(t) + rest) && rest != [] && Closes(rest[0])
    requires indentless ==> EndsBlockEntry(rest[0])
    requires s == Forward(p, |Tokens(t)|).(state := after)
    ensures p.More()
    ensures t.Omitted? ==> p.Peek() == rest[0] && Goes(Made(EMPTY_SCALAR, p.(state := after)), Events(t, ds), s)
    ensures !t.Omitted? ==>
      && (Begins(p.Peek()) || (indentless && p.Peek() == BlockEntryToken))
      && Goes(ParseNode(p.Push(after), block, indentless), Events(t, ds), s)
    decreases t, 2
  {
    EventsSome(t, ds);
    if t.Omitted? {
      hide Next, Goes, Runs;
      ClosedBy(p, Tokens(t), rest, indentless);
      NextHead(p, rest);
      GoesOnce(EMPTY_SCALAR, s);
    } else {
      PushReady(p, after, |Tokens(t)|);
      hide *;
      ClosedBy(p, Tokens(t), rest, indentless);
      FirstToken(t, ds, block, indentless);
      NextHead(p, Tokens(t));
      SamePlace(p, p.Push(after), Tokens(t), indentless);
      NodeGoes(p.Push(after), t, ds, block, indentless);
    }
  }

  /** Where a node may begin in a flow collection, and what may come after it. */
  lemma InFlow(t: Token)
    ensures Closes(ValueToken) && (EndsPair(t) ==> Closes(t))
    ensures Marked(AtFlowMappingEmptyValue) && Returns(AtFlowMappingEmptyValue)
    ensures Marked(AtFlowSequenceEntry) && Returns(AtFlowSequenceEntry)
    ensures Marked(AtFlowSequenceEntryMappingValue) && Returns(AtFlowSequenceEntryMappingValue)
  {
  }

  lemma NodeBegins(p: Parse)
    requires p.states != [] && p.marks != [] && p.More() && Begins(p.Peek())
    ensures ParseFlowMappingItem(p) == ParseNode(p.Push(AtFlowMappingEmptyValue), false, false)
    ensures ParseFlowSequenceItem(p) == ParseNode(p.Push(AtFlowSequenceEntry), false, false)
    ensures ParseFlowSequenceEntryMappingKey(p) == ParseNode(p.Push(AtFlowSequenceEntryMappingValue), false, false)
  {
    hide ParseNode;
  }

  lemma BlockItemGoes(p: Parse, t: Tree, ds: seq<TagDirective>, rest: seq<Token>, s: Parse)
    requires Inside(p) && p.directives == ds && (t.Omitted? || Fits(t, ds, true, false))
    requires Next(p, Tokens(t) + rest) && rest != [] && (rest[0] == BlockEntryToken || rest[0] == BlockEndToken)
    requires s == Forward(p, |Tokens(t)|).(state := AtBlockSequenceEntry)
    ensures Goes(ParseBlockSequenceItem(p), Events(t, ds), s)
    decreases t, 3
  {
    hide ParseNode, Goes, Runs, Next, Events, Fits, WithinDocument, MarkCount, Tokens;
    ChildGoes(p, t, ds, rest, AtBlockSequenceEntry, true, false, s);
  }

  lemma IndentlessItemGoes(p: Parse, t: Tree, ds: seq<TagDirective>, rest: seq<Token>, s: Parse)
    requires Ready(p) && p.directives == ds && (t.Omitted? || Fits(t, ds, true, false))
    requires Next(p, Tokens(t) + rest) && rest != [] && Closes(rest[0]) && EndsIndentlessEntry(rest[0])
    requires s == Forward(p, |Tokens(t)|).(state := AtIndentlessSequenceEntry)
    ensures Goes(ParseIndentlessItem(p), Events(t, ds), s)
    decreases t, 3
  {
    hide ParseNode, Goes, Runs, Next, Events, Fits, WithinDocument, MarkCount, Tokens;
    ChildGoes(p, t, ds, rest, AtIndentlessSequenceEntry, true, false, s);
  }

  lemma BlockMappingNodeGoes(p: Parse, t: Tree, ds: seq<TagDirective>, rest: seq<Token>, after: State, s: Parse)
    requires Inside(p) && p.directives == ds && KeyFits(t, ds, true)
    requires Next(p, Tokens(t) + rest) && rest != [] && EndsBlockEntry(rest[0]) && Marked(after) && Returns(after)
    requires s == Forward(p, |Tokens(t)|).(state := after)
    ensures Goes(ParseBlockMappingNode(p, after), Events(t, ds), s)
    decreases t, 3
  {
    hide ParseNode, Goes, Runs, Next, Events, Fits, WithinDocument, MarkCount, Tokens;
    ChildGoes(p, t, ds, rest, after, true, true, s);
  }

  lemma FlowKeyGoes(p: Parse, t: Tree, ds: seq<TagDirective>, rest: seq<Token>, s: Parse)
    requires Inside(p) && p.directives == ds && KeyFits(t, ds, false)
    requires Next(p, Tokens(t) + rest) && rest != [] && EndsFlowKey(rest[0])
    requires s == Forward(p, |Tokens(t)|).(state := AtFlowMappingValue)
    ensures Goes(ParseFlowKeyNode(p), Events(t, ds), s)
    decreases t, 3
  {
    hide ParseNode, Goes, Runs, Next, Events, Fits, WithinDocument, MarkCount, Tokens;
    ChildGoes(p, t, ds, rest, AtFlowMappingValue, false, false, s);
  }

  lemma FlowValueNodeGoes(p: Parse, t: Tree, ds: seq<TagDirective>, rest: seq<Token>, s: Parse)
    requires Inside(p) && p.directives == ds && KeyFits(t, ds, false)
    requires Next(p, Tokens(t) + rest) && rest != [] && EndsFlowValue(rest[0])
    requires s == Forward(p, |Tokens(t)|).(state := AtFlowMappingKey)
    ensures Goes(ParseFlowValueNode(p), Events(t, ds), s)
    decreases t, 3
  {
    hide ParseNode, Goes, Runs, Next, Events, Fits, WithinDocument, MarkCount, Tokens;
    ChildGoes(p, t, ds, rest, AtFlowMappingKey, false, false, s);
  }

  lemma PairValueNodeGoes(p: Parse, t: Tree, ds: seq<TagDirective>, rest: seq<Token>, s: Parse)
    requires Inside(p) && p.directives == ds && KeyFits(t, ds, false)
    requires Next(p, Tokens(t) + rest) && rest != [] && EndsPair(rest[0])
    requires s == Forward(p, |Tokens(t)|).(state := AtFlowSequenceEntryMappingEnd)
    ensures Goes(ParsePairValueNode(p), Events(t, ds), s)
    decreases t, 3
  {
    hide ParseNode, Goes, Runs, Next, Events, Fits, WithinDocument, MarkCount, Tokens;
    ChildGoes(p, t, ds, rest, AtFlowSequenceEntryMappingEnd, false, false, s);
  }

  lemma NoBlockItems(p: Parse, ds: seq<TagDirective>)
    requires Inside(p) && Next(p, BlockItems([]))
    ensures Goes(ParseBlockSequenceEntry(p, false), AllEvents([], ds) + [SequenceEnd], Out(p, |BlockItems([])|))
  {
    NextHead(p, [BlockEndToken]);
    EndGoes(p, SequenceEnd, ds);
  }

  /** Past some tokens, within the same collection. */
  lemma Moved(p: Parse, a: seq<Token>, rest: seq<Token>, state: State, s: Parse)
    requires Inside(p) && Next(p, a + rest) && s == Forward(p, |a|).(state := state)
    ensures Inside(s) && Next(s, rest) && s.directives == p.directives && s.state == state
    ensures p.states != [] && p.marks != [] && s.states != [] && s.marks != []
    ensures Out(s, |rest|) == Out(p, |a + rest|)
  {
    hide WithinDocument, MarkCount, Next;
    NextSplit(p, a, rest);
    NextSame(Forward(p, |a|), s, rest);
  }

  lemma Restated(p: Parse, ts: seq<Token>, state: State, s: Parse)
    requires Inside(p) && Next(p, ts) && s == p.(state := state)
    ensures Inside(s) && Next(s, ts) && s.directives == p.directives && s.state == state
  {
    hide WithinDocument, MarkCount;
  }

  lemma BlockEntryIs(p: Parse, ts: seq<Token>)
    requires Inside(p) && Next(p, [BlockEntryToken] + ts)
    ensures var r := Forward(p, 1); Inside(r) && Next(r, ts) && r.directives == p.directives
    ensures ParseBlockSequenceEntry(p, false) == ParseBlockSequenceItem(Forward(p, 1))
  {
    hide ParseBlockSequenceItem, WithinDocument, MarkCount, Next;
    NextToken(p, BlockEntryToken, ts);
    NextSplit(p, [BlockEntryToken], ts);
  }

  lemma BlockItemStep(p: Parse, ts: seq<Tree>, ds: seq<TagDirective>, s: Parse)
    requires ts != [] && Inside(p) && p.directives == ds && ItemsFit(ts, ds) && Next(p, BlockItems(ts))
    requires s == Forward(p, 1 + |Tokens(ts[0])|).(state := AtBlockSequenceEntry)
    ensures Inside(s) && Next(s, BlockItems(ts[1..])) && StepOf(s) == ParseBlockSequenceEntry(s, false)
    ensures Events(ts[0], ds) != [] && Goes(ParseBlockSequenceEntry(p, false), Events(ts[0], ds), s)
    ensures Out(s, |BlockItems(ts[1..])|) == Out(p, |BlockItems(ts)|)
    decreases ts[0], 4
  {
    var rest := BlockItems(ts[1..]);
    var r := Forward(p, 1);
    assert BlockItems(ts) == [BlockEntryToken] + (Tokens(ts[0]) + rest);
    assert rest != [] && (rest[0] == BlockEntryToken || rest[0] == BlockEndToken);
    assert s == Forward(r, |Tokens(ts[0])|).(state := AtBlockSequenceEntry);
    hide *;
    BlockEntryIs(p, Tokens(ts[0]) + rest);
    BlockItemGoes(r, ts[0], ds, rest, s);
    EventsSome(ts[0], ds);
    assert [BlockEntryToken] + (Tokens(ts[0]) + rest) == ([BlockEntryToken] + Tokens(ts[0])) + rest;
    Moved(p, [BlockEntryToken] + Tokens(ts[0]), rest, AtBlockSequenceEntry, s);
    StepsAt(s);
  }

  lemma BlockItemsGo(p: Parse, ts: seq<Tree>, ds: seq<TagDirective>)
    requires Inside(p) && p.directives == ds && ItemsFit(ts, ds) && Next(p, BlockItems(ts))
    ensures Goes(ParseBlockSequenceEntry(p, false), AllEvents(ts, ds) + [SequenceEnd], Out(p, |BlockItems(ts)|))
    decreases ts, 2
  {
    if ts == [] {
      NoBlockItems(p, ds);
    } else {
      assert ItemsFit(ts[1..], ds);
      var s := Forward(p, 1 + |Tokens(ts[0])|).(state := AtBlockSequenceEntry);
      hide *;
      BlockItemStep(p, ts, ds, s);
      BlockItemsGo(s, ts[1..], ds);
      RunsNow(s, AllEvents(ts[1..], ds) + [SequenceEnd], Out(s, |BlockItems(ts[1..])|));
      ItemsJoin(ParseBlockSequenceEntry(p, false), ts, ds, s, SequenceEnd, Out(s, |BlockItems(ts[1..])|));
    }
  }

  lemma NoIndentlessItems(p: Parse, ds: seq<TagDirective>, rest: seq<Token>)
    requires Ready(p) && Next(p, IndentlessItems([]) + rest) && rest != [] && rest[0] != BlockEntryToken
    ensures Goes(ParseIndentlessSequenceEntry(p), AllEvents([], ds) + [SequenceEnd], Back(p, |IndentlessItems([])|))
  {
    assert IndentlessItems([]) + rest == rest;
    NextHead(p, rest);
    GoesOnce(SequenceEnd, p.Return());
    NoEvents(ds, SequenceEnd);
  }

  lemma MovedReady(p: Parse, a: seq<Token>, rest: seq<Token>, state: State, s: Parse, n: nat)
    requires Ready(p) && Next(p, a + rest) && s == Forward(p, |a|).(state := state)
    ensures Ready(s) && Next(s, rest) && s.directives == p.directives && s.state == state
    ensures p.states != [] && s.states != [] && Back(s, n) == Back(p, |a| + n)
  {
    hide WithinDocument, MarkCount, Next;
    NextSplit(p, a, rest);
    NextSame(Forward(p, |a|), s, rest);
  }

  lemma IndentlessEntryIs(p: Parse, ts: seq<Token>)
    requires Ready(p) && Next(p, [BlockEntryToken] + ts)
    ensures var r := Forward(p, 1); Ready(r) && Next(r, ts) && r.directives == p.directives
    ensures ParseIndentlessSequenceEntry(p) == ParseIndentlessItem(Forward(p, 1))
  {
    hide ParseIndentlessItem, WithinDocument, MarkCount, Next;
    NextToken(p, BlockEntryToken, ts);
    NextSplit(p, [BlockEntryToken], ts);
  }

  lemma JoinsAgree(t: Token, a: seq<Token>, b: seq<Token>, c: seq<Token>)
    ensures ([t] + (a + b)) + c == ([t] + a) + (b + c)
    ensures ([t] + a) + (b + c) == [t] + (a + (b + c))
  {
    assert [t] + (a + b) == ([t] + a) + b;
  }

  lemma IndentlessSplit(ts: seq<Tree>, rest: seq<Token>)
    requires ts != [] && rest != [] && Closes(rest[0]) && EndsIndentlessEntry(rest[0])
    ensures var entry, items := [BlockEntryToken] + Tokens(ts[0]), IndentlessItems(ts[1..]);
            && IndentlessItems(ts) + rest == entry + (items + rest)
            && IndentlessItems(ts) + rest == [BlockEntryToken] + (Tokens(ts[0]) + (items + rest))
            && |IndentlessItems(ts)| == |entry| + |items|
            && items + rest != [] && Closes((items + rest)[0]) && EndsIndentlessEntry((items + rest)[0])
  {
    hide Tokens;
    var items := IndentlessItems(ts[1..]);
    assert IndentlessItems(ts) == [BlockEntryToken] + (Tokens(ts[0]) + items);
    assert items != [] ==> items[0] == BlockEntryToken;
    assert Closes(BlockEntryToken) && EndsIndentlessEntry(BlockEntryToken);
    hide *;
    JoinsAgree(BlockEntryToken, Tokens(ts[0]), items, rest);
  }

  lemma FirstFits(p: Parse, ts: seq<Tree>, ds: seq<TagDirective>, s: Parse)
    requires ts != [] && ItemsFit(ts, ds) && s == Forward(p, 1 + |Tokens(ts[0])|).(state := s.state)
    ensures ts[0].Omitted? || Fits(ts[0], ds, true, false)
    ensures s == Forward(Forward(p, 1), |Tokens(ts[0])|).(state := s.state)
  {
    hide Tokens, Fits;
  }

  lemma IndentlessItemStep(p: Parse, ts: seq<Tree>, ds: seq<TagDirective>, rest: seq<Token>, s: Parse)
    requires ts != [] && Ready(p) && p.directives == ds && ItemsFit(ts, ds) && Next(p, IndentlessItems(ts) + rest)
    requires rest != [] && Closes(rest[0]) && EndsIndentlessEntry(rest[0])
    requires s == Forward(p, 1 + |Tokens(ts[0])|).(state := AtIndentlessSequenceEntry)
    ensures Ready(s) && Next(s, IndentlessItems(ts[1..]) + rest) && StepOf(s) == ParseIndentlessSequenceEntry(s)
    ensures Events(ts[0], ds) != [] && Goes(ParseIndentlessSequenceEntry(p), Events(ts[0], ds), s)
    ensures Back(s, |IndentlessItems(ts[1..])|) == Back(p, |IndentlessItems(ts)|)
    decreases ts[0], 4
  {
    hide *;
    var r, items, after := Forward(p, 1), IndentlessItems(ts[1..]), IndentlessItems(ts[1..]) + rest;
    var entry := [BlockEntryToken] + Tokens(ts[0]);
    IndentlessSplit(ts, rest);
    IndentlessEntryIs(p, Tokens(ts[0]) + after);
    MovedReady(p, entry, after, AtIndentlessSequenceEntry, s, |items|);
    FirstFits(p, ts, ds, s);
    IndentlessItemGoes(r, ts[0], ds, after, s);
    EventsSome(ts[0], ds);
    IndentlessStep(s);
  }

  /** The entries of an indentless sequence end where another token comes. */
  lemma IndentlessItemsGo(p: Parse, ts: seq<Tree>, ds: seq<TagDirective>, rest: seq<Token>)
    requires Ready(p) && p.directives == ds && ItemsFit(ts, ds) && Next(p, IndentlessItems(ts) + rest)
    requires rest != [] && Closes(rest[0]) && EndsIndentlessEntry(rest[0]) && rest[0] != BlockEntryToken
    ensures Goes(ParseIndentlessSequenceEntry(p), AllEvents(ts, ds) + [SequenceEnd], Back(p, |IndentlessItems(ts)|))
    decreases ts, 2
  {
    if ts == [] {
      NoIndentlessItems(p, ds, rest);
    } else {
      assert ItemsFit(ts[1..], ds);
      var s := Forward(p, 1 + |Tokens(ts[0])|).(state := AtIndentlessSequenceEntry);
      hide *;
      IndentlessItemStep(p, ts, ds, rest, s);
      IndentlessItemsGo(s, ts[1..], ds, rest);
      RunsNow(s, AllEvents(ts[1..], ds) + [SequenceEnd], Back(s, |IndentlessItems(ts[1..])|));
      ItemsJoin(ParseIndentlessSequenceEntry(p), ts, ds, s, SequenceEnd, Back(s, |IndentlessItems(ts[1..])|));
    }
  }

  /** What begins after a key. */
  lemma ValueFollows(t: Tree, rest: seq<Token>)
    requires rest != []
    ensures var all := ValueTokens(t) + rest; all != [] && (all[0] == ValueToken || all[0] == rest[0])
    ensures if t.Absent? then ValueTokens(t) + rest == rest && |ValueTokens(t)| == 0
            else ValueTokens(t) + rest == [ValueToken] + (Tokens(t) + rest) && |ValueTokens(t)| == 1 + |Tokens(t)|
  {
  }

  lemma BlockMappingValueGoes(p: Parse, t: Tree, ds: seq<TagDirective>, rest: seq<Token>, s: Parse)
    requires Inside(p) && p.directives == ds && ValueFits(t, ds, true)
    requires Next(p, ValueTokens(t) + rest) && rest != [] && EndsBlockEntry(rest[0])
    requires t.Absent? ==> rest[0] != ValueToken
    requires s == Forward(p, |ValueTokens(t)|).(state := AtBlockMappingKey)
    ensures Goes(ParseBlockMappingValue(p), Events(t, ds), s)
    decreases t, 4
  {
    hide ParseBlockMappingNode, Goes, Runs, Next, Events, Fits, WithinDocument, MarkCount, Tokens, ValueTokens;
    ValueFollows(t, rest);
    if t.Absent? {
      EventsSome(t, ds);
      NextHead(p, rest);
      GoesOnce(EMPTY_SCALAR, s);
    } else {
      NextToken(p, ValueToken, Tokens(t) + rest);
      BlockMappingNodeGoes(Forward(p, 1), t, ds, rest, AtBlockMappingKey, s);
    }
  }

  lemma FlowMappingValueGoes(p: Parse, t: Tree, ds: seq<TagDirective>, rest: seq<Token>, s: Parse)
    requires Inside(p) && p.directives == ds && ValueFits(t, ds, false)
    requires Next(p, ValueTokens(t) + rest) && rest != [] && EndsFlowValue(rest[0])
    requires s == Forward(p, |ValueTokens(t)|).(state := AtFlowMappingKey)
    ensures Goes(ParseFlowMappingValue(p, false), Events(t, ds), s)
    decreases t, 4
  {
    hide ParseFlowValueNode, Goes, Runs, Next, Events, Fits, WithinDocument, MarkCount, Tokens, ValueTokens;
    ValueFollows(t, rest);
    if t.Absent? {
      EventsSome(t, ds);
      NextHead(p, rest);
      GoesOnce(EMPTY_SCALAR, s);
    } else {
      NextToken(p, ValueToken, Tokens(t) + rest);
      FlowValueNodeGoes(Forward(p, 1), t, ds, rest, s);
    }
  }

  lemma PairValueGoes(p: Parse, t: Tree, ds: seq<TagDirective>, rest: seq<Token>, s: Parse)
    requires Inside(p) && p.directives == ds && ValueFits(t, ds, false)
    requires Next(p, ValueTokens(t) + rest) && rest != [] && EndsPair(rest[0])
    requires s == Forward(p, |ValueTokens(t)|).(state := AtFlowSequenceEntryMappingEnd)
    ensures Goes(ParseFlowSequenceEntryMappingValue(p), Events(t, ds), s)
    decreases t, 4
  {
    hide ParsePairValueNode, Goes, Runs, Next, Events, Fits, WithinDocument, MarkCount, Tokens, ValueTokens;
    ValueFollows(t, rest);
    if t.Absent? {
      EventsSome(t, ds);
      NextHead(p, rest);
      GoesOnce(EMPTY_SCALAR, s);
    } else {
      NextToken(p, ValueToken, Tokens(t) + rest);
      PairValueNodeGoes(Forward(p, 1), t, ds, rest, s);
    }
  }

  /** A key and a value of a mapping. */
  lemma PairPlaces(p: Parse, key: Tree, value: Tree, rest: seq<Token>, s: Parse, u: Parse, vs: State, ks: State)
    requires Inside(p) && Next(p, Tokens(key) + (ValueTokens(value) + rest)) && Marked(vs) && Marked(ks)
    requires s == Forward(p, |Tokens(key)|).(state := vs) && u == Forward(s, |ValueTokens(value)|).(state := ks)
    ensures Inside(s) && Next(s, ValueTokens(value) + rest) && Inside(u) && Next(u, rest)
    ensures s.directives == u.directives == p.directives
  {
    hide Next, Tokens, ValueTokens;
    NextSplit(p, Tokens(key), ValueTokens(value) + rest);
    NextSame(Forward(p, |Tokens(key)|), s, ValueTokens(value) + rest);
    NextSplit(s, ValueTokens(value), rest);
    NextSame(Forward(s, |ValueTokens(value)|), u, rest);
  }

  lemma NoBlockPairs(p: Parse, ds: seq<TagDirective>)
    requires Inside(p) && Next(p, BlockPairs([]))
    ensures Goes(ParseBlockMappingKey(p, false), AllEvents([], ds) + [MappingEnd], Out(p, |BlockPairs([])|))
  {
    NextHead(p, [BlockEndToken]);
    EndGoes(p, MappingEnd, ds);
  }

  lemma BlockPairStart(p: Parse, ts: seq<Tree>)
    requires |ts| >= 2 && !ts[0].Keyless? && Inside(p) && Next(p, BlockPairs(ts))
    ensures Inside(Forward(p, 1))
         && ParseBlockMappingKey(p, false) == ParseBlockMappingNode(Forward(p, 1), AtBlockMappingValue)
    ensures Next(Forward(p, 1), Tokens(ts[0]) + (ValueTokens(ts[1]) + BlockPairs(ts[2..])))
    ensures |BlockPairs(ts)| == 1 + |Tokens(ts[0])| + |ValueTokens(ts[1])| + |BlockPairs(ts[2..])|
  {
    hide ParseBlockMappingNode, Next, Tokens, ValueTokens, WithinDocument, MarkCount;
    NextToken(p, KeyToken, Tokens(ts[0]) + (ValueTokens(ts[1]) + BlockPairs(ts[2..])));
  }

  /** How the rest of a block mapping begins. */
  lemma BlockPairsBegin(ts: seq<Tree>)
    requires |ts| >= 2 && ts[0].Keyless? ==> !ts[1].Absent?
    ensures var rest := BlockPairs(ts);
            && rest != [] && EndsBlockEntry(rest[0])
            && (rest[0] == ValueToken <==> |ts| >= 2 && ts[0].Keyless?)
  {
    hide Tokens;
  }

  lemma BlockPairMoves(p: Parse, ts: seq<Tree>, r: Parse, s: Parse, u: Parse)
    requires |ts| >= 2 && Inside(p) && r == Forward(p, 1)
    requires s == Forward(r, |Tokens(ts[0])|).(state := AtBlockMappingValue)
    requires u == Forward(s, |ValueTokens(ts[1])|).(state := AtBlockMappingKey)
    requires |BlockPairs(ts)| == 1 + |Tokens(ts[0])| + |ValueTokens(ts[1])| + |BlockPairs(ts[2..])|
    ensures u.states != [] && u.marks != [] && Out(u, |BlockPairs(ts[2..])|) == Out(p, |BlockPairs(ts)|)
    ensures r.directives == p.directives && s.state == AtBlockMappingValue && u.state == AtBlockMappingKey
  {
    hide BlockPairs, Tokens, ValueTokens;
  }

  lemma BlockEnds()
    ensures EndsBlockEntry(KeyToken) && EndsBlockEntry(ValueToken) && EndsBlockEntry(BlockEndToken)
    ensures Marked(AtBlockMappingValue) && Returns(AtBlockMappingValue)
    ensures Marked(AtBlockMappingKey) && Returns(AtBlockMappingKey)
  {
  }

  /** One entry of a block mapping, after which the next one's key or the end is due. */
  lemma BlockPairGoes(p: Parse, ts: seq<Tree>, ds: seq<TagDirective>, s: Parse, u: Parse)
    requires |ts| >= 2 && Inside(p) && p.directives == ds && Next(p, BlockPairs(ts))
    requires KeyFits(ts[0], ds, true) && ValueFits(ts[1], ds, true)
    requires |ts| >= 4 && ts[2].Keyless? ==> !ts[1].Absent? && !ts[3].Absent?
    requires s == Forward(p, 1 + |Tokens(ts[0])|).(state := AtBlockMappingValue)
    requires u == Forward(s, |ValueTokens(ts[1])|).(state := AtBlockMappingKey)
    ensures Goes(ParseBlockMappingKey(p, false), Events(ts[0], ds), s) && Goes(StepOf(s), Events(ts[1], ds), u)
    ensures Inside(u) && u.directives == ds && Next(u, BlockPairs(ts[2..]))
    ensures StepOf(u) == ParseBlockMappingKey(u, false) && Out(u, |BlockPairs(ts[2..])|) == Out(p, |BlockPairs(ts)|)
    decreases ts, 4
  {
    hide *;
    var r, rest := Forward(p, 1), BlockPairs(ts[2..]);
    NotKeyless(ts[0], ds);
    BlockEnds();
    KeyForward(p, r, ts[0], AtBlockMappingValue, s);
    AfterTwo(ts);
    BlockPairStart(p, ts);
    BlockPairMoves(p, ts, r, s, u);
    PairPlaces(r, ts[0], ts[1], rest, s, u, AtBlockMappingValue, AtBlockMappingKey);
    BlockPairsBegin(ts[2..]);
    ValueFollows(ts[1], rest);
    BlockMappingNodeGoes(r, ts[0], ds, ValueTokens(ts[1]) + rest, AtBlockMappingValue, s);
    BlockMappingValueGoes(s, ts[1], ds, rest, u);
    StepsAt(s);
    StepsAt(u);
  }

  lemma AfterTwo(ts: seq<Tree>)
    requires |ts| >= 2
    ensures |ts[2..]| == |ts| - 2
    ensures |ts| >= 4 ==> ts[2..][0] == ts[2] && ts[2..][1] == ts[3]
  {
  }

  lemma NotKeyless(t: Tree, ds: seq<TagDirective>)
    requires KeyFits(t, ds, true)
    ensures !t.Keyless?
  {
  }

  lemma BlockPairsGo(p: Parse, ts: seq<Tree>, ds: seq<TagDirective>)
    requires Inside(p) && p.directives == ds && PairsFit(ts, ds, true) && Next(p, BlockPairs(ts))
    ensures Goes(ParseBlockMappingKey(p, false), AllEvents(ts, ds) + [MappingEnd], Out(p, |BlockPairs(ts)|))
    decreases ts, 5
  {
    if ts == [] {
      NoBlockPairs(p, ds);
    } else {
      var s := Forward(p, 1 + |Tokens(ts[0])|).(state := AtBlockMappingValue);
      var u := Forward(s, |ValueTokens(ts[1])|).(state := AtBlockMappingKey);
      assert KeyFits(ts[0], ds, true) && ValueFits(ts[1], ds, true) && PairsFit(ts[2..], ds, true);
      NextIsKeyed(ts, ds);
      hide *;
      BlockPairGoes(p, ts, ds, s, u);
      BlockPairsGo(u, ts[2..], ds);
      PairsJoin(ParseBlockMappingKey(p, false), s, ts, ds, u, MappingEnd, Out(u, |BlockPairs(ts[2..])|));
    }
  }

  lemma NextIsKeyed(ts: seq<Tree>, ds: seq<TagDirective>)
    requires |ts| >= 2 && PairsFit(ts[2..], ds, true)
    ensures |ts| >= 4 ==> !ts[2].Keyless?
  {
    if |ts| >= 4 {
      assert ts[2..][0] == ts[2] && KeyFits(ts[2..][0], ds, true);
    }
  }

  lemma NoFlowPairs(p: Parse, ds: seq<TagDirective>)
    requires Inside(p) && Next(p, [FlowMappingEndToken])
    ensures Goes(ParseFlowMappingItem(p), AllEvents([], ds) + [MappingEnd], Out(p, 1))
    ensures Goes(ParseFlowMappingKey(p, false), AllEvents([], ds) + [MappingEnd], Out(p, 1))
  {
    NextHead(p, [FlowMappingEndToken]);
    EndGoes(p, MappingEnd, ds);
  }

  lemma FlowPairStart(p: Parse, ts: seq<Tree>, more: bool)
    requires |ts| >= 2 && !ts[1].Unmarked? && Inside(p) && Next(p, FlowPairs(ts, more))
    ensures Inside(Forward(p, 1)) && ParseFlowMappingItem(p) == ParseFlowKeyNode(Forward(p, 1))
    ensures Next(Forward(p, 1), Tokens(ts[0]) + (ValueTokens(ts[1]) + FlowPairsRest(ts[2..], more)))
    ensures var rest := FlowPairsRest(ts[2..], more); rest != [] && EndsFlowValue(rest[0])
    ensures |FlowPairs(ts, more)| == 1 + |Tokens(ts[0])| + |ValueTokens(ts[1])| + |FlowPairsRest(ts[2..], more)|
  {
    hide ParseFlowKeyNode, Next, Tokens, ValueTokens, WithinDocument, MarkCount;
    NextToken(p, KeyToken, Tokens(ts[0]) + (ValueTokens(ts[1]) + FlowPairsRest(ts[2..], more)));
  }

  lemma FlowPairMoves(p: Parse, ts: seq<Tree>, more: bool, r: Parse, s: Parse, u: Parse)
    requires |ts| >= 2 && Inside(p) && r == Forward(p, 1)
    requires s == Forward(r, |Tokens(ts[0])|).(state := AtFlowMappingValue)
    requires u == Forward(s, |ValueTokens(ts[1])|).(state := AtFlowMappingKey)
    requires |FlowPairs(ts, more)| == 1 + |Tokens(ts[0])| + |ValueTokens(ts[1])| + |FlowPairsRest(ts[2..], more)|
    ensures u.states != [] && u.marks != [] && Out(u, |FlowPairsRest(ts[2..], more)|) == Out(p, |FlowPairs(ts, more)|)
    ensures r.directives == p.directives && s.state == AtFlowMappingValue && u.state == AtFlowMappingKey
  {
    hide FlowPairs, FlowPairsRest, Tokens, ValueTokens;
  }

  /** Past a key that has no indicator, and past the value that is not there. */
  lemma UnmarkedPlaces(p: Parse, key: seq<Token>, rest: seq<Token>, s: Parse, u: Parse)
    requires Inside(p) && Next(p, key + rest) && rest != []
    requires s == Forward(p, |key|).(state := AtFlowMappingEmptyValue) && u == s.(state := AtFlowMappingKey)
    ensures Inside(u) && Next(u, rest) && u.directives == p.directives && u.states != [] && u.marks != []
    ensures StepOf(s) == Made(EMPTY_SCALAR, u) && StepOf(u) == ParseFlowMappingKey(u, false)
    ensures Out(u, |rest|) == Out(p, |key + rest|)
  {
    hide WithinDocument, MarkCount, Next, StepOf, ParseFlowMappingKey;
    NextSplit(p, key, rest);
    NextSame(Forward(p, |key|), s, rest);
    NextSame(s, u, rest);
    NextHead(s, rest);
    StepsAt(s);
    StepsAt(u);
  }

  /** An entry without an indicator: its key is a node, and its value is absent. */
  lemma UnmarkedGoes(p: Parse, ts: seq<Tree>, more: bool, ds: seq<TagDirective>, s: Parse, u: Parse)
    requires |ts| >= 2 && ts[1].Unmarked? && Fits(ts[0], ds, false, false)
    requires Inside(p) && p.directives == ds && Next(p, FlowPairs(ts, more))
    requires s == Forward(p, |Tokens(ts[0])|).(state := AtFlowMappingEmptyValue) && u == s.(state := AtFlowMappingKey)
    ensures Goes(ParseFlowMappingItem(p), Events(ts[0], ds), s) && Goes(StepOf(s), Events(ts[1], ds), u)
    ensures Inside(u) && u.directives == ds && Next(u, FlowPairsRest(ts[2..], more))
    ensures StepOf(u) == ParseFlowMappingKey(u, false)
    ensures Out(u, |FlowPairsRest(ts[2..], more)|) == Out(p, |FlowPairs(ts, more)|)
    decreases ts, 3
  {
    var rest := FlowPairsRest(ts[2..], more);
    assert FlowPairs(ts, more) == Tokens(ts[0]) + rest && rest != [] && Closes(rest[0]) && !ts[0].Omitted?;
    assert p.states != [] && p.marks != [];
    hide *;
    InFlow(rest[0]);
    ChildGoes(p, ts[0], ds, rest, AtFlowMappingEmptyValue, false, false, s);
    NodeBegins(p);
    UnmarkedPlaces(p, Tokens(ts[0]), rest, s, u);
    EventsSome(ts[1], ds);
    GoesOnce(EMPTY_SCALAR, u);
  }

  /** An entry with its key's indicator. */
  lemma MarkedGoes(p: Parse, ts: seq<Tree>, more: bool, ds: seq<TagDirective>, s: Parse, u: Parse)
    requires |ts| >= 2 && KeyFits(ts[0], ds, false) && ValueFits(ts[1], ds, false)
    requires Inside(p) && p.directives == ds && Next(p, FlowPairs(ts, more))
    requires s == Forward(p, 1 + |Tokens(ts[0])|).(state := AtFlowMappingValue)
    requires u == Forward(s, |ValueTokens(ts[1])|).(state := AtFlowMappingKey)
    ensures Goes(ParseFlowMappingItem(p), Events(ts[0], ds), s) && Goes(StepOf(s), Events(ts[1], ds), u)
    ensures Inside(u) && u.directives == ds && Next(u, FlowPairsRest(ts[2..], more))
    ensures StepOf(u) == ParseFlowMappingKey(u, false)
    ensures Out(u, |FlowPairsRest(ts[2..], more)|) == Out(p, |FlowPairs(ts, more)|)
    decreases ts, 4
  {
    hide *;
    var r, rest := Forward(p, 1), FlowPairsRest(ts[2..], more);
    NotUnmarked(ts[1], ds, false);
    KeyForward(p, r, ts[0], AtFlowMappingValue, s);
    FlowPairStart(p, ts, more);
    FlowPairMoves(p, ts, more, r, s, u);
    FlowEnds(rest[0]);
    PairPlaces(r, ts[0], ts[1], rest, s, u, AtFlowMappingValue, AtFlowMappingKey);
    ValueFollows(ts[1], rest);
    FlowKeyGoes(r, ts[0], ds, ValueTokens(ts[1]) + rest, s);
    FlowMappingValueGoes(s, ts[1], ds, rest, u);
    StepsAt(s);
    StepsAt(u);
  }

  lemma NotUnmarked(t: Tree, ds: seq<TagDirective>, block: bool)
    requires ValueFits(t, ds, block)
    ensures !t.Unmarked?
  {
  }

  lemma KeyForward(p: Parse, r: Parse, key: Tree, state: State, s: Parse)
    requires r == Forward(p, 1) && s == Forward(p, 1 + |Tokens(key)|).(state := state)
    ensures s == Forward(r, |Tokens(key)|).(state := state)
  {
    hide Tokens;
  }

  lemma FlowEnds(t: Token)
    ensures EndsFlowKey(ValueToken) && (EndsFlowValue(t) ==> EndsFlowKey(t))
    ensures Marked(AtFlowMappingValue) && Marked(AtFlowMappingKey)
  {
  }

  lemma FlowPairsGo(p: Parse, ts: seq<Tree>, more: bool, ds: seq<TagDirective>)
    requires Inside(p) && p.directives == ds && PairsFit(ts, ds, false) && Next(p, FlowPairs(ts, more))
    ensures Goes(ParseFlowMappingItem(p), AllEvents(ts, ds) + [MappingEnd], Out(p, |FlowPairs(ts, more)|))
    decreases ts, 5
  {
    if ts == [] {
      NoFlowPairs(p, ds);
    } else {
      var marked := !ts[1].Unmarked?;
      var s := if marked then Forward(p, 1 + |Tokens(ts[0])|).(state := AtFlowMappingValue)
               else Forward(p, |Tokens(ts[0])|).(state := AtFlowMappingEmptyValue);
      var u := if marked then Forward(s, |ValueTokens(ts[1])|).(state := AtFlowMappingKey)
               else s.(state := AtFlowMappingKey);
      assert PairsFit(ts[2..], ds, false);
      assert if marked then KeyFits(ts[0], ds, false) && ValueFits(ts[1], ds, false) else Fits(ts[0], ds, false, false);
      hide *;
      if marked {
        MarkedGoes(p, ts, more, ds, s, u);
      } else {
        UnmarkedGoes(p, ts, more, ds, s, u);
      }
      FlowPairsRestGo(u, ts[2..], more, ds);
      PairsJoin(ParseFlowMappingItem(p), s, ts, ds, u, MappingEnd, Out(u, |FlowPairsRest(ts[2..], more)|));
    }
  }

  lemma FlowComma(p: Parse, ts: seq<Token>)
    requires Inside(p) && Next(p, [FlowEntryToken] + ts)
    ensures var q := Forward(p, 1);
            && Inside(q) && Next(q, ts) && q.directives == p.directives && q.states != [] && q.marks != []
            && Out(q, |ts|) == Out(p, |[FlowEntryToken] + ts|)
            && ParseFlowSequenceEntry(p, false) == ParseFlowSequenceItem(q)
            && ParseFlowMappingKey(p, false) == ParseFlowMappingItem(q)
  {
    hide ParseFlowSequenceItem, ParseFlowMappingItem, WithinDocument, MarkCount, Next;
    NextToken(p, FlowEntryToken, ts);
  }

  lemma FlowPairsRestGo(p: Parse, ts: seq<Tree>, more: bool, ds: seq<TagDirective>)
    requires Inside(p) && p.directives == ds && PairsFit(ts, ds, false) && Next(p, FlowPairsRest(ts, more))
    ensures Goes(ParseFlowMappingKey(p, false), AllEvents(ts, ds) + [MappingEnd], Out(p, |FlowPairsRest(ts, more)|))
    decreases ts, 6
  {
    if ts == [] && !more {
      NoFlowPairs(p, ds);
    } else {
      assert FlowPairsRest(ts, more) == [FlowEntryToken] + FlowPairs(ts, more);
      hide *;
      FlowComma(p, FlowPairs(ts, more));
      FlowPairsGo(Forward(p, 1), ts, more, ds);
    }
  }

  /** A single pair, from its key's indicator on. */
  lemma PairGoes(p: Parse, t: Tree, ds: seq<TagDirective>, rest: seq<Token>, s: Parse)
    requires Inside(p) && p.directives == ds && t.PairTree? && FlowItemFits(t, ds)
    requires Next(p, Tokens(t) + rest) && rest != [] && EndsPair(rest[0])
    requires s == Forward(p, |Tokens(t)|).(state := AtFlowSequenceEntry)
    ensures Goes(ParseFlowSequenceItem(p), Events(t, ds), s)
    decreases t, 3
  {
    hide *;
    var key, value := t.key, t.mapped;
    var a := Forward(p, 1).(state := AtFlowSequenceEntryMappingKey);
    var b := Forward(a, |Tokens(key)|).(state := AtFlowSequenceEntryMappingValue);
    var c := Forward(b, |ValueTokens(value)|).(state := AtFlowSequenceEntryMappingEnd);
    PairOf(t, ds);
    PairStart(p, key, value, rest, a);
    PairForward(p, key, value, a, b, c, s);
    if key.Omitted? {
      EmptyPairRuns(a, ds, rest, s);
    } else {
      PairPlaces(a, key, value, rest, b, c, AtFlowSequenceEntryMappingValue, AtFlowSequenceEntryMappingEnd);
      PairInner(a, t, ds, rest, b, c, s);
    }
    GoesOn(MappingStart([], [], true, true), a, Events(key, ds) + (Events(value, ds) + [MappingEnd]), s);
  }

  lemma PairOf(t: Tree, ds: seq<TagDirective>)
    requires t.PairTree? && FlowItemFits(t, ds)
    ensures t.key.Omitted? || Fits(t.key, ds, false, false)
    ensures ValueFits(t.mapped, ds, false) && (t.key.Omitted? ==> t.mapped.Omitted?)
    ensures t == PairTree(t.key, t.mapped)
    ensures Events(t, ds)
         == [MappingStart([], [], true, true)] + (Events(t.key, ds) + (Events(t.mapped, ds) + [MappingEnd]))
    ensures Marked(AtFlowSequenceEntryMappingValue) && Marked(AtFlowSequenceEntryMappingEnd)
  {
    hide Fits;
  }

  lemma PairForward(p: Parse, key: Tree, value: Tree, a: Parse, b: Parse, c: Parse, s: Parse)
    requires a == Forward(p, 1).(state := AtFlowSequenceEntryMappingKey)
    requires b == Forward(a, |Tokens(key)|).(state := AtFlowSequenceEntryMappingValue)
    requires c == Forward(b, |ValueTokens(value)|).(state := AtFlowSequenceEntryMappingEnd)
    requires s == Forward(p, |Tokens(PairTree(key, value))|).(state := AtFlowSequenceEntry)
    requires |Tokens(PairTree(key, value))| == 1 + |Tokens(key)| + |ValueTokens(value)|
    ensures a.directives == b.directives == p.directives && s == c.(state := AtFlowSequenceEntry)
    ensures key.Omitted? && value.Omitted? ==> s == Forward(a, 1).(state := AtFlowSequenceEntry)
  {
  }

  /** Without a key the token after its indicator goes as the key's: here that is the value's indicator. */
  lemma EmptyPairRuns(a: Parse, ds: seq<TagDirective>, rest: seq<Token>, s: Parse)
    requires Inside(a) && a.state == AtFlowSequenceEntryMappingKey && rest != [] && EndsPair(rest[0])
    requires Next(a, Tokens(Omitted) + (ValueTokens(Omitted) + rest))
    requires s == Forward(a, 1).(state := AtFlowSequenceEntry)
    ensures Runs(a, Events(Omitted, ds) + (Events(Omitted, ds) + [MappingEnd]), s)
  {
    var b := Forward(a, 1).(state := AtFlowSequenceEntryMappingValue);
    var c := b.(state := AtFlowSequenceEntryMappingEnd);
    EmptyPairSteps(a, rest, b, c);
    assert Events(Omitted, ds) == [EMPTY_SCALAR];
    hide *;
    PairEnd(c, rest, s);
    GoesOn(EMPTY_SCALAR, c, [MappingEnd], s);
    RunsNow(b, [EMPTY_SCALAR] + [MappingEnd], s);
    GoesOn(EMPTY_SCALAR, b, [EMPTY_SCALAR] + [MappingEnd], s);
    RunsNow(a, [EMPTY_SCALAR] + ([EMPTY_SCALAR] + [MappingEnd]), s);
  }

  lemma EmptyPairSteps(a: Parse, rest: seq<Token>, b: Parse, c: Parse)
    requires Inside(a) && a.state == AtFlowSequenceEntryMappingKey && rest != [] && EndsPair(rest[0])
    requires Next(a, Tokens(Omitted) + (ValueTokens(Omitted) + rest))
    requires b == Forward(a, 1).(state := AtFlowSequenceEntryMappingValue)
    requires c == b.(state := AtFlowSequenceEntryMappingEnd)
    ensures StepOf(a) == Made(EMPTY_SCALAR, b) && StepOf(b) == Made(EMPTY_SCALAR, c)
    ensures Inside(c) && Next(c, rest)
  {
    hide *;
    NoPairTokens(rest);
    Moved(a, [ValueToken], rest, AtFlowSequenceEntryMappingValue, b);
    Restated(b, rest, AtFlowSequenceEntryMappingEnd, c);
    NextHead(a, [ValueToken] + rest);
    NextHead(b, rest);
    StepsAt(a);
    StepsAt(b);
    NotTheEnd(a);
    EmptyPairIs(a, b);
  }

  lemma NoPairTokens(rest: seq<Token>)
    ensures Tokens(Omitted) + (ValueTokens(Omitted) + rest) == [ValueToken] + rest
  {
    assert Tokens(Omitted) == [] && ValueTokens(Omitted) == [ValueToken];
  }

  lemma EmptyPairIs(a: Parse, b: Parse)
    requires a.More() && a.Peek() == ValueToken && b.More() && EndsPair(b.Peek())
    ensures ParseFlowSequenceEntryMappingKey(a)
         == Made(EMPTY_SCALAR, a.Skip().(state := AtFlowSequenceEntryMappingValue))
    ensures ParseFlowSequenceEntryMappingValue(b) == Made(EMPTY_SCALAR, b.(state := AtFlowSequenceEntryMappingEnd))
  {
  }

  /** The parser never goes back. */
  lemma {:induction false} RunsAhead(p: Parse, es: seq<Event>, q: Parse)
    requires Runs(p, es, q)
    ensures p.head <= q.head
    decreases |es|
  {
    if es != [] {
      StepReads(p);
      RunsAhead(StepOf(p).next, es[1..], q);
    }
  }

  /** A pair without a key node, and with a value node or without VALUE, is not parsed to its events: the token after
      the key's indicator is lost. */
  lemma PairKeyIsLost(p: Parse, t: Tree, ds: seq<TagDirective>, rest: seq<Token>, s: Parse)
    requires Inside(p) && p.directives == ds && t.PairTree? && t.key.Omitted? && !t.mapped.Omitted?
    requires ValueFits(t.mapped, ds, false) && Next(p, Tokens(t) + rest) && rest != [] && EndsPair(rest[0])
    requires s == Forward(p, |Tokens(t)|).(state := AtFlowSequenceEntry)
    ensures !Goes(ParseFlowSequenceItem(p), Events(t, ds), s)
  {
    var value := t.mapped;
    var a := Forward(p, 1).(state := AtFlowSequenceEntryMappingKey);
    var b := Forward(a, 1).(state := AtFlowSequenceEntryMappingValue);
    var tail := Events(value, ds) + [MappingEnd];
    PairStart(p, t.key, value, rest, a);
    assert Tokens(t.key) + (ValueTokens(value) + rest) == ValueTokens(value) + rest;
    KeyIsSkipped(a, value, rest, b);
    assert Events(t, ds) == [MappingStart([], [], true, true)] + ([EMPTY_SCALAR] + tail);
    assert s.head == p.head + 1 + |ValueTokens(value)|;
    if Goes(ParseFlowSequenceItem(p), Events(t, ds), s) {
      ValueFollows(value, rest);
      hide *;
      assert Events(t, ds)[1..] == [EMPTY_SCALAR] + tail && ([EMPTY_SCALAR] + tail)[1..] == tail;
      Unrolled(p, Events(t, ds), s, a);
      FirstRun(a, [EMPTY_SCALAR] + tail, s, EMPTY_SCALAR, b);
      RunsAhead(b, tail, s);
      assert !value.Absent?;
      ValueIsSkipped(b, value, ds, rest, s);
    }
  }

  /** A pair of a flow sequence is parsed to its events exactly if it has a key node, or VALUE without a node. */
  lemma PairIsParsed(p: Parse, t: Tree, ds: seq<TagDirective>, rest: seq<Token>, s: Parse)
    requires Inside(p) && p.directives == ds && t.PairTree? && KeyFits(t.key, ds, false)
        && ValueFits(t.mapped, ds, false)
    requires Next(p, Tokens(t) + rest) && rest != [] && EndsPair(rest[0])
    requires s == Forward(p, |Tokens(t)|).(state := AtFlowSequenceEntry)
    ensures Goes(ParseFlowSequenceItem(p), Events(t, ds), s) <==> (t.key.Omitted? ==> t.mapped.Omitted?)
  {
    if t.key.Omitted? && !t.mapped.Omitted? {
      PairKeyIsLost(p, t, ds, rest, s);
    } else {
      PairGoes(p, t, ds, rest, s);
    }
  }

  /** The first step of a run. */
  lemma FirstRun(p: Parse, es: seq<Event>, s: Parse, e: Event, q: Parse)
    requires es != [] && Runs(p, es, s) && StepOf(p) == Made(e, q)
    ensures es[0] == e && Runs(q, es[1..], s)
  {
  }

  lemma Unrolled(p: Parse, es: seq<Event>, s: Parse, q: Parse)
    requires p.states != [] && p.marks != [] && es != [] && Goes(ParseFlowSequenceItem(p), es, s)
    requires ParseFlowSequenceItem(p).Made? && ParseFlowSequenceItem(p).next == q
    ensures Runs(q, es[1..], s)
  {
  }

  /** Where the key is omitted, the next token is taken for it. */
  lemma KeyIsSkipped(a: Parse, value: Tree, rest: seq<Token>, b: Parse)
    requires Inside(a) && a.state == AtFlowSequenceEntryMappingKey && rest != [] && EndsPair(rest[0])
    requires Next(a, ValueTokens(value) + rest) && b == Forward(a, 1).(state := AtFlowSequenceEntryMappingValue)
    ensures StepOf(a) == Made(EMPTY_SCALAR, b) && Inside(b)
    ensures !value.Absent? ==> Next(b, Tokens(value) + rest)
  {
    hide Next, WithinDocument, MarkCount, Tokens;
    ValueFollows(value, rest);
    NextHead(a, ValueTokens(value) + rest);
    StepsAt(a);
    if !value.Absent? {
      NextToken(a, ValueToken, Tokens(value) + rest);
      NextSame(Forward(a, 1), b, Tokens(value) + rest);
    }
  }

  lemma OneEvent(t: Tree, ds: seq<TagDirective>, block: bool)
    requires Fits(t, ds, block, block) && Events(t, ds)[0] == EMPTY_SCALAR
    ensures Events(t, ds) == [EMPTY_SCALAR]
  {
  }

  /** The scalar after an indicator that was lost is not read as the value. */
  lemma ValueIsSkipped(b: Parse, value: Tree, ds: seq<TagDirective>, rest: seq<Token>, s: Parse)
    requires Inside(b) && b.state == AtFlowSequenceEntryMappingValue && Fits(value, ds, false, false)
    requires Next(b, Tokens(value) + rest) && s.head == b.head + |Tokens(value)|
    ensures !Runs(b, Events(value, ds) + [MappingEnd], s)
  {
    var c := b.(state := AtFlowSequenceEntryMappingEnd);
    var d := b.(state := AtFlowSequenceEntry);
    var tail := Events(value, ds) + [MappingEnd];
    SkippedSteps(b, value, ds, rest, c, d);
    if Runs(b, tail, s) {
      EventsSome(value, ds);
      assert d.head != s.head;
      hide *;
      FirstRun(b, tail, s, EMPTY_SCALAR, c);
      assert tail[0] == Events(value, ds)[0];
      OneEvent(value, ds, false);
      EndRun(c, tail[1..], s, d);
    }
  }

  lemma EndRun(c: Parse, es: seq<Event>, s: Parse, d: Parse)
    requires Runs(c, es, s) && StepOf(c) == Made(MappingEnd, d) && es == [MappingEnd]
    ensures s == d
  {
    hide StepOf, Goes;
    FirstRun(c, es, s, MappingEnd, d);
    assert es[1..] == [];
  }

  lemma SkippedSteps(b: Parse, value: Tree, ds: seq<TagDirective>, rest: seq<Token>, c: Parse, d: Parse)
    requires Inside(b) && b.state == AtFlowSequenceEntryMappingValue && Fits(value, ds, false, false)
    requires Next(b, Tokens(value) + rest)
    requires c == b.(state := AtFlowSequenceEntryMappingEnd) && d == b.(state := AtFlowSequenceEntry)
    ensures Tokens(value) != [] && StepOf(b) == Made(EMPTY_SCALAR, c) && StepOf(c) == Made(MappingEnd, d)
  {
    hide Next, WithinDocument, MarkCount, Tokens, Fits, StepOf;
    FirstToken(value, ds, false, false);
    NextSplit(b, Tokens(value), rest);
    NextHead(b, Tokens(value));
    StepsAt(b);
    StepsAt(c);
  }

  lemma PairTokens(key: Tree, value: Tree, rest: seq<Token>)
    ensures Tokens(PairTree(key, value)) + rest == [KeyToken] + (Tokens(key) + (ValueTokens(value) + rest))
    ensures |Tokens(PairTree(key, value))| == 1 + |Tokens(key)| + |ValueTokens(value)|
  {
    var a, b := Tokens(key), ValueTokens(value);
    assert Tokens(PairTree(key, value)) == [KeyToken] + (a + b);
    hide *;
    JoinsAgree(KeyToken, a, b, rest);
  }

  lemma PairKeyIs(p: Parse)
    requires Inside(p) && p.More() && p.Peek() == KeyToken
    ensures ParseFlowSequenceItem(p)
         == Made(MappingStart([], [], true, true), p.Skip().(state := AtFlowSequenceEntryMappingKey))
  {
    hide WithinDocument, MarkCount;
  }

  lemma PairStart(p: Parse, key: Tree, value: Tree, rest: seq<Token>, a: Parse)
    requires Inside(p) && Next(p, Tokens(PairTree(key, value)) + rest)
    requires a == Forward(p, 1).(state := AtFlowSequenceEntryMappingKey)
    ensures ParseFlowSequenceItem(p) == Made(MappingStart([], [], true, true), a)
    ensures Inside(a) && Next(a, Tokens(key) + (ValueTokens(value) + rest))
    ensures |Tokens(PairTree(key, value))| == 1 + |Tokens(key)| + |ValueTokens(value)|
  {
    hide *;
    var inner := Tokens(key) + (ValueTokens(value) + rest);
    PairTokens(key, value, rest);
    Moved(p, [KeyToken], inner, AtFlowSequenceEntryMappingKey, a);
    NextHead(p, [KeyToken] + inner);
    PairKeyIs(p);
    NotTheEnd(p);
  }

  lemma NotTheEnd(p: Parse)
    requires Inside(p) && p.More() && p.Peek() != StreamEndToken
    ensures p.Skip() == Forward(p, 1)
  {
    hide WithinDocument, MarkCount;
  }

  lemma PairInner(a: Parse, t: Tree, ds: seq<TagDirective>, rest: seq<Token>, b: Parse, c: Parse, s: Parse)
    requires Inside(a) && Inside(b) && Inside(c) && a.directives == b.directives == ds
    requires t.PairTree? && Fits(t.key, ds, false, false) && ValueFits(t.mapped, ds, false) && rest != []
        && EndsPair(rest[0])
    requires Next(a, Tokens(t.key) + (ValueTokens(t.mapped) + rest)) && Next(b, ValueTokens(t.mapped) + rest)
        && Next(c, rest)
    requires a.state == AtFlowSequenceEntryMappingKey
    requires b == Forward(a, |Tokens(t.key)|).(state := AtFlowSequenceEntryMappingValue)
    requires c == Forward(b, |ValueTokens(t.mapped)|).(state := AtFlowSequenceEntryMappingEnd)
    requires s == c.(state := AtFlowSequenceEntry)
    ensures Runs(a, Events(t.key, ds) + (Events(t.mapped, ds) + [MappingEnd]), s)
    decreases t, 2
  {
    var key, value := t.key, t.mapped;
    assert b.state == AtFlowSequenceEntryMappingValue && c.state == AtFlowSequenceEntryMappingEnd;
    PairEnd(c, rest, s);
    PairKeyGoes(a, key, value, ds, rest, b);
    hide *;
    StepsAt(b);
    PairValueGoes(b, value, ds, rest, c);
    EventsSome(key, ds);
    EventsSome(value, ds);
    GoesThen(StepOf(b), Events(value, ds), c, [MappingEnd], s);
    RunsNow(b, Events(value, ds) + [MappingEnd], s);
    GoesThen(StepOf(a), Events(key, ds), b, Events(value, ds) + [MappingEnd], s);
    RunsNow(a, Events(key, ds) + (Events(value, ds) + [MappingEnd]), s);
  }

  lemma PairKeyGoes(a: Parse, key: Tree, value: Tree, ds: seq<TagDirective>, rest: seq<Token>, b: Parse)
    requires Inside(a) && a.directives == ds && Fits(key, ds, false, false) && rest != [] && EndsPair(rest[0])
    requires Next(a, Tokens(key) + (ValueTokens(value) + rest)) && a.state == AtFlowSequenceEntryMappingKey
    requires b == Forward(a, |Tokens(key)|).(state := AtFlowSequenceEntryMappingValue)
    ensures Goes(StepOf(a), Events(key, ds), b)
    decreases key, 3
  {
    assert !key.Omitted? && a.states != [] && a.marks != [];
    hide *;
    InFlow(rest[0]);
    ValueFollows(value, rest);
    StepsAt(a);
    ChildGoes(a, key, ds, ValueTokens(value) + rest, AtFlowSequenceEntryMappingValue, false, false, b);
    NodeBegins(a);
  }

  lemma PairEnd(c: Parse, rest: seq<Token>, s: Parse)
    requires Inside(c) && c.state == AtFlowSequenceEntryMappingEnd && Next(c, rest) && rest != []
    requires s == c.(state := AtFlowSequenceEntry)
    ensures Runs(c, [MappingEnd], s)
  {
    NextHead(c, rest);
    StepsAt(c);
    GoesOnce(MappingEnd, s);
    RunsNow(c, [MappingEnd], s);
  }

  lemma FlowItemGoes(p: Parse, t: Tree, ds: seq<TagDirective>, rest: seq<Token>, s: Parse)
    requires Inside(p) && p.directives == ds && FlowItemFits(t, ds)
    requires Next(p, Tokens(t) + rest) && rest != [] && EndsPair(rest[0])
    requires s == Forward(p, |Tokens(t)|).(state := AtFlowSequenceEntry)
    ensures Goes(ParseFlowSequenceItem(p), Events(t, ds), s)
    decreases t, 4
  {
    if t.PairTree? {
      PairGoes(p, t, ds, rest, s);
    } else {
      assert !t.Omitted? && Fits(t, ds, false, false) && p.states != [] && p.marks != [];
      hide *;
      InFlow(rest[0]);
      ChildGoes(p, t, ds, rest, AtFlowSequenceEntry, false, false, s);
      NodeBegins(p);
    }
  }

  lemma NoFlowItems(p: Parse, ds: seq<TagDirective>)
    requires Inside(p) && Next(p, [FlowSequenceEndToken])
    ensures Goes(ParseFlowSequenceItem(p), AllEvents([], ds) + [SequenceEnd], Out(p, 1))
    ensures Goes(ParseFlowSequenceEntry(p, false), AllEvents([], ds) + [SequenceEnd], Out(p, 1))
  {
    NextHead(p, [FlowSequenceEndToken]);
    EndGoes(p, SequenceEnd, ds);
  }

  lemma FlowItemPlaces(p: Parse, ts: seq<Tree>, more: bool, s: Parse)
    requires ts != [] && Inside(p) && Next(p, FlowItems(ts, more))
    requires s == Forward(p, |Tokens(ts[0])|).(state := AtFlowSequenceEntry)
    ensures var rest := FlowRest(ts[1..], more);
            && rest != [] && EndsPair(rest[0]) && FlowItems(ts, more) == Tokens(ts[0]) + rest
            && Inside(s) && Next(s, rest) && Out(s, |rest|) == Out(p, |FlowItems(ts, more)|)
    ensures s.directives == p.directives && s.state == AtFlowSequenceEntry
  {
    hide Next, Tokens, WithinDocument, MarkCount;
    NextSplit(p, Tokens(ts[0]), FlowRest(ts[1..], more));
    NextSame(Forward(p, |Tokens(ts[0])|), s, FlowRest(ts[1..], more));
  }

  lemma FlowItemsGo(p: Parse, ts: seq<Tree>, more: bool, ds: seq<TagDirective>)
    requires Inside(p) && p.directives == ds && FlowItemsFit(ts, ds) && Next(p, FlowItems(ts, more))
    ensures Goes(ParseFlowSequenceItem(p), AllEvents(ts, ds) + [SequenceEnd], Out(p, |FlowItems(ts, more)|))
    decreases ts, 4
  {
    if ts == [] {
      NoFlowItems(p, ds);
    } else {
      var s := Forward(p, |Tokens(ts[0])|).(state := AtFlowSequenceEntry);
      var rest := FlowRest(ts[1..], more);
      assert FlowItemFits(ts[0], ds) && FlowItemsFit(ts[1..], ds);
      hide *;
      FlowItemPlaces(p, ts, more, s);
      FlowItemGoes(p, ts[0], ds, rest, s);
      StepsAt(s);
      EventsSome(ts[0], ds);
      FlowRestGo(s, ts[1..], more, ds);
      RunsNow(s, AllEvents(ts[1..], ds) + [SequenceEnd], Out(s, |rest|));
      ItemsJoin(ParseFlowSequenceItem(p), ts, ds, s, SequenceEnd, Out(s, |rest|));
    }
  }

  lemma FlowRestGo(p: Parse, ts: seq<Tree>, more: bool, ds: seq<TagDirective>)
    requires Inside(p) && p.directives == ds && FlowItemsFit(ts, ds) && Next(p, FlowRest(ts, more))
    ensures Goes(ParseFlowSequenceEntry(p, false), AllEvents(ts, ds) + [SequenceEnd], Out(p, |FlowRest(ts, more)|))
    decreases ts, 5
  {
    if ts == [] && !more {
      NoFlowItems(p, ds);
    } else {
      assert FlowRest(ts, more) == [FlowEntryToken] + FlowItems(ts, more);
      hide *;
      FlowComma(p, FlowItems(ts, more));
      FlowItemsGo(Forward(p, 1), ts, more, ds);
    }
  }

  lemma AliasGoes(p: Parse, anchor: Bytes, block: bool, indentless: bool)
    requires Ready(p) && Next(p, [AliasToken(anchor)])
    ensures Goes(ParseNode(p, block, indentless), [Alias(anchor)], Back(p, 1))
  {
    NextHead(p, [AliasToken(anchor)]);
    GoesOnce(Alias(anchor), Back(p, 1));
  }

  lemma BareGoes(p: Parse, props: Props, ds: seq<TagDirective>, block: bool, indentless: bool)
    requires Ready(p) && p.directives == ds && Fits(BareTree(props), ds, block, indentless)
    requires Next(p, PropsTokens(props)) && Closed(p, |PropsTokens(props)|, indentless)
    ensures Goes(ParseNode(p, block, indentless), Events(BareTree(props), ds), Back(p, |PropsTokens(props)|))
  {
    hide ParseNode, PropsTokens, ResolvedTag, FullTag, Next, Goes, Runs;
    PropsRead(p, props, block, indentless);
    var q := Forward(p, |PropsTokens(props)|);
    var tag := FullTag(props, ds);
    var e := Scalar(props.anchor, tag, [], tag == [], false, true);
    assert Opening(q.Peek(), block, indentless) == None && Events(BareTree(props), ds) == [e];
    GoesOnce(e, q.Return());
  }

  lemma ScalarGoes(p: Parse, props: Props, value: Bytes, plain: bool, ds: seq<TagDirective>, block: bool,
      indentless: bool)
    requires Ready(p) && p.directives == ds && PropsFit(props, ds)
    requires Next(p, PropsTokens(props) + [ScalarToken(value, plain)])
    ensures var t := ScalarTree(props, value, plain);
            Goes(ParseNode(p, block, indentless), Events(t, ds), Back(p, |Tokens(t)|))
  {
    hide ParseNode, PropsTokens, ResolvedTag, FullTag, Next, Goes, Runs;
    var q := Forward(p, |PropsTokens(props)|);
    NextSplit(p, PropsTokens(props), [ScalarToken(value, plain)]);
    NextHead(q, [ScalarToken(value, plain)]);
    PropsRead(p, props, block, indentless);
    var e := ScalarEvent(props.anchor, FullTag(props, ds), value, plain);
    assert Events(ScalarTree(props, value, plain), ds) == [e];
    GoesOnce(e, q.Return().Skip());
  }

  /** A collection's start: its event is made, and its start token is at the head still. */
  lemma CollectionStarts(p: Parse, props: Props, ds: seq<TagDirective>, rest: seq<Token>, state: State, block: bool,
                         indentless: bool, q: Parse)
    requires Ready(p) && p.directives == ds && PropsFit(props, ds) && Next(p, PropsTokens(props) + rest)
    requires rest != [] && Opening(rest[0], block, indentless) == Some(state)
    requires q == Forward(p, |PropsTokens(props)|).(state := state)
    ensures ParseNode(p, block, indentless) == Made(StartEvent(state, props.anchor, FullTag(props, ds)), q)
    ensures Ready(q) && Next(q, rest) && q.state == state && q.directives == ds
    ensures Back(q, |rest|) == Back(p, |PropsTokens(props) + rest|)
  {
    hide ParseNode, PropsTokens, ResolvedTag, FullTag, Next, WithinDocument, MarkCount;
    var r := Forward(p, |PropsTokens(props)|);
    NextSplit(p, PropsTokens(props), rest);
    NextHead(r, rest);
    PropsRead(p, props, block, indentless);
    NextSame(r, q, rest);
  }

  /** Past a collection's start token, which is marked. */
  lemma FirstEntry(q: Parse, t: Token, ts: seq<Token>, r: Parse)
    requires Ready(q) && StartToken(q.state) == Some(t) && Next(q, [t] + ts)
    requires r == Forward(q, 1).(marks := q.marks + [q.head]) && ts != []
    ensures r.More() && Inside(r) && Next(r, ts) && r.directives == q.directives && r.states != [] && r.marks != []
    ensures Out(r, |ts|) == Back(q, |[t] + ts|)
    ensures Valid(q) && q.More() && q.Mark().Skip() == r
  {
    hide Next;
    NextToken(q, t, ts);
    NextSame(Forward(q, 1), r, ts);
    NextHead(r, ts);
    assert r.marks[..|r.marks| - 1] == q.marks;
  }

  lemma FirstStep(q: Parse, r: Parse)
    requires Valid(q) && q.More() && q.Mark().Skip() == r && r.More() && q.states != []
    ensures q.state == AtBlockSequenceFirstEntry ==> StepOf(q) == ParseBlockSequenceEntry(r, false)
    ensures q.state == AtBlockMappingFirstKey ==> StepOf(q) == ParseBlockMappingKey(r, false)
    ensures q.state == AtFlowSequenceFirstEntry ==> StepOf(q) == ParseFlowSequenceItem(r)
    ensures q.state == AtFlowMappingFirstKey ==> StepOf(q) == ParseFlowMappingItem(r)
  {
    hide ParseFlowSequenceItem, ParseFlowMappingItem, ParseBlockSequenceItem, ParseBlockMappingNode;
  }

  lemma BlockSequenceRuns(q: Parse, items: seq<Tree>, ds: seq<TagDirective>)
    requires Ready(q) && q.state == AtBlockSequenceFirstEntry && q.directives == ds && ItemsFit(items, ds)
    requires Next(q, [BlockSequenceStartToken] + BlockItems(items))
    ensures Runs(q, AllEvents(items, ds) + [SequenceEnd], Back(q, |[BlockSequenceStartToken] + BlockItems(items)|))
    decreases items, 7
  {
    var r := Forward(q, 1).(marks := q.marks + [q.head]);
    FirstEntry(q, BlockSequenceStartToken, BlockItems(items), r);
    hide *;
    FirstStep(q, r);
    BlockItemsGo(r, items, ds);
    RunsNow(q, AllEvents(items, ds) + [SequenceEnd], Out(r, |BlockItems(items)|));
  }

  lemma FlowSequenceRuns(q: Parse, items: seq<Tree>, more: bool, ds: seq<TagDirective>)
    requires Ready(q) && q.state == AtFlowSequenceFirstEntry && q.directives == ds && FlowItemsFit(items, ds)
    requires Next(q, [FlowSequenceStartToken] + FlowItems(items, more))
    ensures Runs(q, AllEvents(items, ds) + [SequenceEnd], Back(q, |[FlowSequenceStartToken] + FlowItems(items, more)|))
    decreases items, 7
  {
    var r := Forward(q, 1).(marks := q.marks + [q.head]);
    assert items != [] ==> FlowRest(items[1..], more) != [];
    FirstEntry(q, FlowSequenceStartToken, FlowItems(items, more), r);
    hide *;
    FirstStep(q, r);
    FlowItemsGo(r, items, more, ds);
    RunsNow(q, AllEvents(items, ds) + [SequenceEnd], Out(r, |FlowItems(items, more)|));
  }

  lemma BlockMappingRuns(q: Parse, items: seq<Tree>, ds: seq<TagDirective>)
    requires Ready(q) && q.state == AtBlockMappingFirstKey && q.directives == ds && PairsFit(items, ds, true)
    requires Next(q, [BlockMappingStartToken] + BlockPairs(items))
    ensures Runs(q, AllEvents(items, ds) + [MappingEnd], Back(q, |[BlockMappingStartToken] + BlockPairs(items)|))
    decreases items, 7
  {
    var r := Forward(q, 1).(marks := q.marks + [q.head]);
    FirstEntry(q, BlockMappingStartToken, BlockPairs(items), r);
    hide *;
    FirstStep(q, r);
    BlockPairsGo(r, items, ds);
    RunsNow(q, AllEvents(items, ds) + [MappingEnd], Out(r, |BlockPairs(items)|));
  }

  lemma FlowMappingRuns(q: Parse, items: seq<Tree>, more: bool, ds: seq<TagDirective>)
    requires Ready(q) && q.state == AtFlowMappingFirstKey && q.directives == ds && PairsFit(items, ds, false)
    requires Next(q, [FlowMappingStartToken] + FlowPairs(items, more))
    ensures Runs(q, AllEvents(items, ds) + [MappingEnd], Back(q, |[FlowMappingStartToken] + FlowPairs(items, more)|))
    decreases items, 7
  {
    var r := Forward(q, 1).(marks := q.marks + [q.head]);
    FirstEntry(q, FlowMappingStartToken, FlowPairs(items, more), r);
    hide *;
    FirstStep(q, r);
    FlowPairsGo(r, items, more, ds);
    RunsNow(q, AllEvents(items, ds) + [MappingEnd], Out(r, |FlowPairs(items, more)|));
  }

  lemma BlockSequenceGoes(p: Parse, t: Tree, ds: seq<TagDirective>, block: bool, indentless: bool)
    requires Ready(p) && p.directives == ds && Next(p, Tokens(t)) && t.SequenceTree? && t.style == Block
        && Fits(t, ds, block, indentless)
    ensures Goes(ParseNode(p, block, indentless), Events(t, ds), Back(p, |Tokens(t)|))
    decreases t, 0
  {
    var rest := [BlockSequenceStartToken] + BlockItems(t.items);
    var inner := AllEvents(t.items, ds) + [SequenceEnd];
    var q := Forward(p, |PropsTokens(t.props)|).(state := AtBlockSequenceFirstEntry);
    var start := StartEvent(AtBlockSequenceFirstEntry, t.props.anchor, FullTag(t.props, ds));
    assert Events(t, ds) == [start] + inner && Tokens(t) == PropsTokens(t.props) + rest;
    assert rest != [] && Opening(rest[0], block, indentless) == Some(AtBlockSequenceFirstEntry)
      && PropsFit(t.props, ds);
    assert ItemsFit(t.items, ds);
    hide *;
    CollectionStarts(p, t.props, ds, rest, AtBlockSequenceFirstEntry, block, indentless, q);
    BlockSequenceRuns(q, t.items, ds);
    GoesOn(start, q, inner, Back(q, |rest|));
  }

  lemma FlowSequenceGoes(p: Parse, t: Tree, ds: seq<TagDirective>, block: bool, indentless: bool)
    requires Ready(p) && p.directives == ds && Next(p, Tokens(t)) && t.SequenceTree? && t.style.Flow?
        && Fits(t, ds, block, indentless)
    ensures Goes(ParseNode(p, block, indentless), Events(t, ds), Back(p, |Tokens(t)|))
    decreases t, 0
  {
    var rest := [FlowSequenceStartToken] + FlowItems(t.items, t.style.trailing);
    var inner := AllEvents(t.items, ds) + [SequenceEnd];
    var q := Forward(p, |PropsTokens(t.props)|).(state := AtFlowSequenceFirstEntry);
    var start := StartEvent(AtFlowSequenceFirstEntry, t.props.anchor, FullTag(t.props, ds));
    assert Events(t, ds) == [start] + inner && Tokens(t) == PropsTokens(t.props) + rest;
    assert rest != [] && Opening(rest[0], block, indentless) == Some(AtFlowSequenceFirstEntry) && PropsFit(t.props, ds);
    assert FlowItemsFit(t.items, ds);
    hide *;
    CollectionStarts(p, t.props, ds, rest, AtFlowSequenceFirstEntry, block, indentless, q);
    FlowSequenceRuns(q, t.items, t.style.trailing, ds);
    GoesOn(start, q, inner, Back(q, |rest|));
  }

  lemma BlockMappingGoes(p: Parse, t: Tree, ds: seq<TagDirective>, block: bool, indentless: bool)
    requires Ready(p) && p.directives == ds && Next(p, Tokens(t)) && t.MappingTree? && t.style == Block
        && Fits(t, ds, block, indentless)
    ensures Goes(ParseNode(p, block, indentless), Events(t, ds), Back(p, |Tokens(t)|))
    decreases t, 0
  {
    var rest := [BlockMappingStartToken] + BlockPairs(t.items);
    var inner := AllEvents(t.items, ds) + [MappingEnd];
    var q := Forward(p, |PropsTokens(t.props)|).(state := AtBlockMappingFirstKey);
    var start := StartEvent(AtBlockMappingFirstKey, t.props.anchor, FullTag(t.props, ds));
    assert Events(t, ds) == [start] + inner && Tokens(t) == PropsTokens(t.props) + rest;
    assert rest != [] && Opening(rest[0], block, indentless) == Some(AtBlockMappingFirstKey) && PropsFit(t.props, ds);
    assert PairsFit(t.items, ds, true);
    hide *;
    CollectionStarts(p, t.props, ds, rest, AtBlockMappingFirstKey, block, indentless, q);
    BlockMappingRuns(q, t.items, ds);
    GoesOn(start, q, inner, Back(q, |rest|));
  }

  lemma FlowMappingGoes(p: Parse, t: Tree, ds: seq<TagDirective>, block: bool, indentless: bool)
    requires Ready(p) && p.directives == ds && Next(p, Tokens(t)) && t.MappingTree? && t.style.Flow?
        && Fits(t, ds, block, indentless)
    ensures Goes(ParseNode(p, block, indentless), Events(t, ds), Back(p, |Tokens(t)|))
    decreases t, 0
  {
    var rest := [FlowMappingStartToken] + FlowPairs(t.items, t.style.trailing);
    var inner := AllEvents(t.items, ds) + [MappingEnd];
    var q := Forward(p, |PropsTokens(t.props)|).(state := AtFlowMappingFirstKey);
    var start := StartEvent(AtFlowMappingFirstKey, t.props.anchor, FullTag(t.props, ds));
    assert Events(t, ds) == [start] + inner && Tokens(t) == PropsTokens(t.props) + rest;
    assert rest != [] && Opening(rest[0], block, indentless) == Some(AtFlowMappingFirstKey) && PropsFit(t.props, ds);
    assert PairsFit(t.items, ds, false);
    hide *;
    CollectionStarts(p, t.props, ds, rest, AtFlowMappingFirstKey, block, indentless, q);
    FlowMappingRuns(q, t.items, t.style.trailing, ds);
    GoesOn(start, q, inner, Back(q, |rest|));
  }

  lemma IndentlessRuns(q: Parse, items: seq<Tree>, ds: seq<TagDirective>, rest: seq<Token>)
    requires Ready(q) && q.state == AtIndentlessSequenceEntry && q.directives == ds && ItemsFit(items, ds)
    requires Next(q, IndentlessItems(items) + rest) && rest != [] && Closes(rest[0]) && EndsIndentlessEntry(rest[0])
    requires rest[0] != BlockEntryToken
    ensures Runs(q, AllEvents(items, ds) + [SequenceEnd], Back(q, |IndentlessItems(items)|))
    decreases items, 7
  {
    assert q.states != [];
    hide *;
    IndentlessStep(q);
    IndentlessItemsGo(q, items, ds, rest);
    RunsNow(q, AllEvents(items, ds) + [SequenceEnd], Back(q, |IndentlessItems(items)|));
  }

  lemma IndentlessGoes(p: Parse, t: Tree, ds: seq<TagDirective>, block: bool)
    requires Ready(p) && p.directives == ds && t.SequenceTree? && t.style == Indentless && Fits(t, ds, block, true)
    requires Next(p, Tokens(t)) && Closed(p, |Tokens(t)|, true)
    ensures Goes(ParseNode(p, block, true), Events(t, ds), Back(p, |Tokens(t)|))
    decreases t, 0
  {
    var items := IndentlessItems(t.items);
    var next := p.tokens[p.head + |Tokens(t)|];
    var inner := AllEvents(t.items, ds) + [SequenceEnd];
    var q := Forward(p, |PropsTokens(t.props)|).(state := AtIndentlessSequenceEntry);
    var start := StartEvent(AtIndentlessSequenceEntry, t.props.anchor, FullTag(t.props, ds));
    assert Events(t, ds) == [start] + inner && Tokens(t) == PropsTokens(t.props) + items;
    assert items != [] && Opening(items[0], block, true) == Some(AtIndentlessSequenceEntry) && PropsFit(t.props, ds);
    assert ItemsFit(t.items, ds) && Closes(next) && EndsIndentlessEntry(next) && next != BlockEntryToken;
    OneAfter(p, Tokens(t), next);
    hide *;
    CollectionStarts(p, t.props, ds, items, AtIndentlessSequenceEntry, block, true, q);
    IndentlessNext(p, PropsTokens(t.props), items, next, q);
    IndentlessRuns(q, t.items, ds, [next]);
    GoesOn(start, q, inner, Back(q, |items|));
  }

  lemma OneAfter(p: Parse, ts: seq<Token>, next: Token)
    requires Next(p, ts) && p.head + |ts| < |p.tokens| && p.tokens[p.head + |ts|] == next
    ensures Next(p, ts + [next])
  {
  }

  lemma IndentlessNext(p: Parse, a: seq<Token>, b: seq<Token>, next: Token, q: Parse)
    requires Next(p, a + b + [next]) && q.tokens == p.tokens && q.head == p.head + |a|
    ensures Next(q, b + [next])
  {
    assert a + b + [next] == a + (b + [next]);
    NextSplit(p, a, b + [next]);
    NextSame(Forward(p, |a|), q, b + [next]);
  }

  /** A node written in a way the grammar has is parsed to its events. */
  lemma {:induction false} NodeGoes(p: Parse, t: Tree, ds: seq<TagDirective>, block: bool, indentless: bool)
    requires Ready(p) && Fits(t, ds, block, indentless) && p.directives == ds && Next(p, Tokens(t))
    requires Closed(p, |Tokens(t)|, indentless)
    ensures Goes(ParseNode(p, block, indentless), Events(t, ds), Back(p, |Tokens(t)|))
    decreases t, 1
  {
    hide ParseNode, Goes, Runs, Next;
    match t
    case AliasTree(anchor) => AliasGoes(p, anchor, block, indentless);
    case BareTree(props) => BareGoes(p, props, ds, block, indentless);
    case ScalarTree(props, value, plain) => ScalarGoes(p, props, value, plain, ds, block, indentless);
    case SequenceTree(_, Block, _) => BlockSequenceGoes(p, t, ds, block, indentless);
    case SequenceTree(_, Flow(_), _) => FlowSequenceGoes(p, t, ds, block, indentless);
    case SequenceTree(_, Indentless, _) => IndentlessGoes(p, t, ds, block);
    case MappingTree(_, Block, _) => BlockMappingGoes(p, t, ds, block, indentless);
    case MappingTree(_, Flow(_), _) => FlowMappingGoes(p, t, ds, block, indentless);
  }

  // Block mappings whose entries may lack a key

  /** The entries of a block mapping as the grammar has them: a key and its indicator may be left out where the value
      has an indicator that cannot be taken for that of the entry before. */
  predicate EntriesFit(ts: seq<Tree>, ds: seq<TagDirective>) {
    ts == [] ||
    (|ts| >= 2 && EntriesFit(ts[2..], ds) && ValueFits(ts[1], ds, true)
     && (if ts[0].Keyless? then !ts[1].Absent? else KeyFits(ts[0], ds, true))
     && (|ts| >= 4 && ts[2].Keyless? ==> !ts[1].Absent?))
  }

  predicate Keyed(ts: seq<Tree>) {
    |ts| < 2 || (!ts[0].Keyless? && Keyed(ts[2..]))
  }

  lemma {:induction false} KeyedFits(ts: seq<Tree>, ds: seq<TagDirective>)
    requires EntriesFit(ts, ds)
    ensures PairsFit(ts, ds, true) <==> Keyed(ts)
    decreases |ts|
  {
    hide Fits;
    if ts != [] {
      KeyedFits(ts[2..], ds);
      if ts[0].Keyless? {
        assert !KeyFits(ts[0], ds, true) by {
          KeylessDoesNotFit(ds);
        }
      }
      assert !ts[1].Unmarked? by {
        UnmarkedDoesNotFit(ds);
      }
    }
  }

  lemma KeylessDoesNotFit(ds: seq<TagDirective>)
    ensures !KeyFits(Keyless, ds, true)
  {
  }

  lemma UnmarkedDoesNotFit(ds: seq<TagDirective>)
    ensures !ValueFits(Unmarked, ds, true)
  {
  }

  /** What the parser makes is determined: after a first part of it comes the rest. */
  lemma {:induction false} RunsSplit(p: Parse, a: seq<Event>, s: Parse, b: seq<Event>, q: Parse)
    requires Runs(p, a, s) && Runs(p, a + b, q)
    ensures Runs(s, b, q)
    decreases |a|, 1
  {
    hide StepOf;
    if a == [] {
      assert a + b == b;
    } else {
      GoesSplit(StepOf(p), a, s, b, q);
    }
  }

  lemma {:induction false} GoesSplit(o: Outcome, a: seq<Event>, s: Parse, b: seq<Event>, q: Parse)
    requires a != [] && Goes(o, a, s) && Goes(o, a + b, q)
    ensures Runs(s, b, q)
    decreases |a|, 0
  {
    hide StepOf;
    assert (a + b)[1..] == a[1..] + b;
    RunsSplit(o.next, a[1..], s, b, q);
  }

  /** An entry without a key is not parsed at all. */
  lemma KeylessFails(p: Parse, ts: seq<Tree>)
    requires Inside(p) && |ts| >= 2 && ts[0].Keyless? && !ts[1].Absent? && Next(p, BlockPairs(ts))
    ensures ParseBlockMappingKey(p, false) == Failed
  {
    hide Next;
    assert BlockPairs(ts) != [] && BlockPairs(ts)[0] == ValueToken;
    NextHead(p, BlockPairs(ts));
  }

  lemma {:induction false} BlockPairsStop(p: Parse, ts: seq<Tree>, ds: seq<TagDirective>, q: Parse)
    requires Inside(p) && p.directives == ds && EntriesFit(ts, ds) && !Keyed(ts) && Next(p, BlockPairs(ts))
    ensures !Goes(ParseBlockMappingKey(p, false), AllEvents(ts, ds) + [MappingEnd], q)
    decreases |ts|
  {
    if ts[0].Keyless? {
      KeylessFails(p, ts);
    } else {
      var s := Forward(p, 1 + |Tokens(ts[0])|).(state := AtBlockMappingValue);
      var u := Forward(s, |ValueTokens(ts[1])|).(state := AtBlockMappingKey);
      var tail := AllEvents(ts[2..], ds) + [MappingEnd];
      EntriesFitFirst(ts, ds);
      hide *;
      BlockPairGoes(p, ts, ds, s, u);
      BlockPairsStop(u, ts[2..], ds, q);
      EventsSome(ts[0], ds);
      EventsSome(ts[1], ds);
      TwoEvents(ts, ds);
      if Goes(ParseBlockMappingKey(p, false), AllEvents(ts, ds) + [MappingEnd], q) {
        GoesSplit(ParseBlockMappingKey(p, false), Events(ts[0], ds), s, Events(ts[1], ds) + tail, q);
        RunsNow(s, Events(ts[1], ds), u);
        RunsSplit(s, Events(ts[1], ds), u, tail, q);
        RunsGoes(u, tail, q);
      }
    }
  }

  lemma EntriesFitFirst(ts: seq<Tree>, ds: seq<TagDirective>)
    requires EntriesFit(ts, ds) && ts != [] && !ts[0].Keyless?
    ensures |ts| >= 2 && KeyFits(ts[0], ds, true) && ValueFits(ts[1], ds, true) && EntriesFit(ts[2..], ds)
    ensures |ts| >= 4 && ts[2].Keyless? ==> !ts[1].Absent? && !ts[3].Absent?
    ensures Keyed(ts) <==> Keyed(ts[2..])
  {
    hide Fits;
    if |ts| >= 4 {
      assert ts[2..][0] == ts[2] && ts[2..][1] == ts[3];
    }
  }

  lemma TwoEvents(ts: seq<Tree>, ds: seq<TagDirective>)
    requires |ts| >= 2
    ensures var tail := AllEvents(ts[2..], ds) + [MappingEnd];
            AllEvents(ts, ds) + [MappingEnd] == Events(ts[0], ds) + (Events(ts[1], ds) + tail) && tail != []
  {
    hide Events;
    assert ts[1..][1..] == ts[2..] && ts[1..][0] == ts[1];
    assert AllEvents(ts[1..], ds) == Events(ts[1], ds) + AllEvents(ts[2..], ds);
  }

  lemma RunsGoes(p: Parse, es: seq<Event>, q: Parse)
    requires es != [] && Runs(p, es, q)
    ensures Goes(StepOf(p), es, q)
  {
  }

  /** What is parsed of a node that is a collection is its start, and what its entries are parsed to. */
  lemma StartedGoes(e: Event, q: Parse, es: seq<Event>, r: Parse)
    ensures Goes(Made(e, q), [e] + es, r) <==> Runs(q, es, r)
  {
    hide StepOf;
    assert ([e] + es)[1..] == es;
  }

  /** A block mapping of the grammar is parsed to its events exactly if each of its entries has its key's
      indicator. */
  lemma BlockMappingIsParsed(p: Parse, t: Tree, ds: seq<TagDirective>, indentless: bool)
    requires Ready(p) && p.directives == ds && t.MappingTree? && t.style == Block && PropsFit(t.props, ds)
    requires EntriesFit(t.items, ds) && Next(p, Tokens(t)) && Closed(p, |Tokens(t)|, indentless)
    ensures Goes(ParseNode(p, true, indentless), Events(t, ds), Back(p, |Tokens(t)|)) <==> Keyed(t.items)
  {
    KeyedFits(t.items, ds);
    if Keyed(t.items) {
      assert Fits(t, ds, true, indentless);
      NodeGoes(p, t, ds, true, indentless);
    } else {
      UnkeyedStops(p, t, ds, indentless);
    }
  }

  lemma UnkeyedStops(p: Parse, t: Tree, ds: seq<TagDirective>, indentless: bool)
    requires Ready(p) && p.directives == ds && t.MappingTree? && t.style == Block && PropsFit(t.props, ds)
    requires EntriesFit(t.items, ds) && Next(p, Tokens(t)) && !Keyed(t.items)
    ensures !Goes(ParseNode(p, true, indentless), Events(t, ds), Back(p, |Tokens(t)|))
  {
    var rest := [BlockMappingStartToken] + BlockPairs(t.items);
    var inner := AllEvents(t.items, ds) + [MappingEnd];
    var q := Forward(p, |PropsTokens(t.props)|).(state := AtBlockMappingFirstKey);
    var start := StartEvent(AtBlockMappingFirstKey, t.props.anchor, FullTag(t.props, ds));
    var r := Forward(q, 1).(marks := q.marks + [q.head]);
    assert Events(t, ds) == [start] + inner && Tokens(t) == PropsTokens(t.props) + rest;
    assert rest != [] && Opening(rest[0], true, indentless) == Some(AtBlockMappingFirstKey);
    assert inner != [] && StartToken(AtBlockMappingFirstKey) == Some(BlockMappingStartToken);
    UnkeyedBegins(t.items);
    var end := Back(p, |Tokens(t)|);
    hide *;
    CollectionStarts(p, t.props, ds, rest, AtBlockMappingFirstKey, true, indentless, q);
    FirstEntry(q, BlockMappingStartToken, BlockPairs(t.items), r);
    FirstStep(q, r);
    BlockPairsStop(r, t.items, ds, end);
    StartedGoes(start, q, inner, end);
    if Runs(q, inner, end) {
      RunsGoes(q, inner, end);
    }
  }

  lemma UnkeyedBegins(ts: seq<Tree>)
    requires !Keyed(ts)
    ensures |ts| >= 2 && BlockPairs(ts) != []
  {
    if ts[0].Keyless? && ts[1].Absent? {
      BlockPairsSome(ts[2..]);
    }
  }

  lemma {:induction false} BlockPairsSome(ts: seq<Tree>)
    ensures BlockPairs(ts) != []
    decreases |ts|
  {
    if |ts| >= 2 {
      BlockPairsSome(ts[2..]);
    }
  }

  const PLAIN := Props([], None, false)

  /** The document ": a": a block mapping whose one entry has a value and no key. */
  const KEYLESS := MappingTree(PLAIN, Block, [Keyless, ScalarTree(PLAIN, [0x61], true)])

  const KEYLESS_TOKENS: seq<Token> :=
    [StreamStartToken, BlockMappingStartToken, ValueToken, ScalarToken([0x61], true), BlockEndToken, StreamEndToken]

  lemma KeylessTokens()
    ensures EntriesFit(KEYLESS.items, []) && KEYLESS_TOKENS == [StreamStartToken] + (Tokens(KEYLESS) + [StreamEndToken])
  {
    var value := ScalarTree(PLAIN, [0x61], true);
    assert KEYLESS.items[2..] == [] && PropsTokens(PLAIN) == [];
    assert Tokens(value) == [ScalarToken([0x61], true)];
    assert ValueTokens(value) == [ValueToken, ScalarToken([0x61], true)];
    assert BlockPairs(KEYLESS.items) == ValueTokens(value) + BlockPairs([]);
    EntryFits(KEYLESS.items, []);
  }

  const AT_ENTRY :=
    Parse(KEYLESS_TOKENS, 1, AtBlockMappingFirstKey, [AtDocumentEnd], [],
          WithDefault(WithDefault([], DEFAULT_DIRECTIVES[0]), DEFAULT_DIRECTIVES[1]), false)

  lemma KeylessBegins(p0: Parse, p1: Parse, p2: Parse)
    requires p0 == Start(KEYLESS_TOKENS) && p1 == Parse(KEYLESS_TOKENS, 1, AtImplicitDocumentStart, [], [], [], false)
    requires p2 == AT_ENTRY.(state := AtBlockNode)
    ensures Valid(p0) && Step(p0) == Made(StreamStart, p1)
    ensures Valid(p1) && Step(p1) == Made(DocumentStart(false, [], false), p2)
  {
    assert [] + [AtDocumentEnd] == [AtDocumentEnd];
    hide WithDefault, MarkCount;
    NoMarks();
  }

  lemma NoMarks()
    ensures MarkCount([]) == 0 && MarkCount([AtDocumentEnd]) == 0
  {
    OneState();
  }

  lemma KeylessEnds(p2: Parse, p3: Parse)
    requires p2 == AT_ENTRY.(state := AtBlockNode) && p3 == AT_ENTRY
    ensures Valid(p2) && Step(p2) == Made(MappingStart([], [], true, false), p3)
    ensures Valid(p3) && Step(p3) == Failed
  {
    hide WithDefault, MarkCount;
    NoMarks();
    assert WithinDocument([AtDocumentEnd]);
  }

  /** A lone entry without a key. */
  lemma EntryFits(ts: seq<Tree>, ds: seq<TagDirective>)
    requires |ts| == 2 && ts[0].Keyless? && ts[1].ScalarTree? && ts[1].props.tag.None?
    ensures EntriesFit(ts, ds)
  {
    assert ts[2..] == [];
    assert Fits(ts[1], ds, true, true);
  }

  /** The grammar has that document, and the parser refuses it. */
  lemma KeylessIsRefused()
    ensures EntriesFit(KEYLESS.items, []) && KEYLESS_TOKENS == [StreamStartToken] + (Tokens(KEYLESS) + [StreamEndToken])
    ensures Valid(Start(KEYLESS_TOKENS)) && !Parsed(Start(KEYLESS_TOKENS)).ok
  {
    KeylessTokens();
    var p0, p3 := Start(KEYLESS_TOKENS), AT_ENTRY;
    var p1 := Parse(KEYLESS_TOKENS, 1, AtImplicitDocumentStart, [], [], [], false);
    var p2 := p3.(state := AtBlockNode);
    KeylessBegins(p0, p1, p2);
    KeylessEnds(p2, p3);
    hide Valid, Step, Parsed, Tokens, EntriesFit, Start;
    var es := [StreamStart, DocumentStart(false, [], false)];
    OneMore([], p0);
    OneMore([StreamStart], p1);
    assert [StreamStart] + [DocumentStart(false, [], false)] == es && [] + [StreamStart] == [StreamStart];
    OneMore(es, p2);
    OneMore(es + [MappingStart([], [], true, false)], p3);
  }
}
