/** The parser (parserc.go): a pushdown automaton from tokens to events.

  A token carries what the parser looks at; a mark is the number of its token.  The token sequence is
  arbitrary: where it ends the scanner is taken to have failed.  Two of the source's states, for a node that
  may be an indentless sequence and for a flow node, are never entered and left out.  Each production is a
  function of the parser's state here; the methods of `YamlParser` are proved to compute them. */
module ParserSteps {
  import opened YamlChars
  import opened YamlEvents

  datatype Token =
    | StreamStartToken
    | StreamEndToken
    | VersionDirectiveToken(major: int, minor: int)
    | TagDirectiveToken(directive: TagDirective)
    | DocumentStartToken
    | DocumentEndToken
    | BlockSequenceStartToken
    | BlockMappingStartToken
    | BlockEndToken
    | FlowSequenceStartToken
    | FlowSequenceEndToken
    | FlowMappingStartToken
    | FlowMappingEndToken
    | BlockEntryToken
    | FlowEntryToken
    | KeyToken
    | ValueToken
    | AliasToken(value: Bytes)
    | AnchorToken(value: Bytes)
    | TagToken(handle: Bytes, suffix: Bytes)
    | ScalarToken(value: Bytes, plain: bool)

  datatype State =
    | AtStreamStart
    | AtImplicitDocumentStart
    | AtDocumentStart
    | AtDocumentContent
    | AtDocumentEnd
    | AtBlockNode
    | AtBlockSequenceFirstEntry
    | AtBlockSequenceEntry
    | AtIndentlessSequenceEntry
    | AtBlockMappingFirstKey
    | AtBlockMappingKey
    | AtBlockMappingValue
    | AtFlowSequenceFirstEntry
    | AtFlowSequenceEntry
    | AtFlowSequenceEntryMappingKey
    | AtFlowSequenceEntryMappingValue
    | AtFlowSequenceEntryMappingEnd
    | AtFlowMappingFirstKey
    | AtFlowMappingKey
    | AtFlowMappingValue
    | AtFlowMappingEmptyValue
    | AtEnd

  /** Where the parser is. */
  datatype Parse = Parse(tokens: seq<Token>, head: nat, state: State, states: seq<State>, marks: seq<nat>,
                         directives: seq<TagDirective>, streamEnd: bool)
  {
    predicate More() {
      head < |tokens|
    }

    function Peek(): Token
      requires More()
    {
      tokens[head]
    }

    /** `skip_token`. */
    function Skip(): Parse
      requires More()
    {
      this.(head := head + 1, streamEnd := Peek() == StreamEndToken)
    }

    function Push(s: State): Parse {
      this.(states := states + [s])
    }

    /** Returns to the state on top of the stack. */
    function Return(): Parse
      requires states != []
    {
      this.(state := states[|states| - 1], states := states[..|states| - 1])
    }

    function Mark(): Parse {
      this.(marks := marks + [head])
    }

    function Unmark(): Parse
      requires marks != []
    {
      this.(marks := marks[..|marks| - 1])
    }
  }

  datatype Outcome = Failed | Made(event: Event, next: Parse)

  const EXCLAMATION: Bytes := [0x21]

  /** `!` stands for itself, and `!!` for `tag:yaml.org,2002:`. */
  const DEFAULT_DIRECTIVES := [TagDirective(EXCLAMATION, EXCLAMATION),
                               TagDirective([0x21, 0x21], YAML_PREFIX)]

  const YAML_PREFIX: Bytes := [0x74, 0x61, 0x67, 0x3A, 0x79, 0x61, 0x6D, 0x6C, 0x2E,
                               0x6F, 0x72, 0x67, 0x2C, 0x32, 0x30, 0x30, 0x32, 0x3A]

  const EMPTY_SCALAR := Scalar([], [], [], true, false, true)

  function Start(tokens: seq<Token>): Parse {
    Parse(tokens, 0, AtStreamStart, [], [], [], false)
  }

  /** The prefix declared for a handle. */
  function PrefixOf(ds: seq<TagDirective>, handle: Bytes): Option<Bytes> {
    if ds == [] then None
    else if ds[0].handle == handle then Some(ds[0].prefix)
    else PrefixOf(ds[1..], handle)
  }

  /** A tag's full form, or nothing if its handle is not declared or it comes out empty. */
  function ResolvedTag(ds: seq<TagDirective>, handle: Bytes, suffix: Bytes): Option<Bytes> {
    if handle == [] then Some(suffix)
    else
      match PrefixOf(ds, handle)
      case None => None
      case Some(prefix) => if prefix + suffix == [] then None else Some(prefix + suffix)
  }

  function WithDefault(ds: seq<TagDirective>, d: TagDirective): seq<TagDirective> {
    if PrefixOf(ds, d.handle).None? then ds + [d] else ds
  }

  datatype Directives = BadDirectives | Directives(next: Parse, version: bool, declared: seq<TagDirective>)

  predicate IsDirective(t: Token) {
    t.VersionDirectiveToken? || t.TagDirectiveToken?
  }

  /** The directives from here on, after those already seen. */
  function ProcessDirectives(p: Parse, version: bool, declared: seq<TagDirective>): (r: Directives)
    ensures r.Directives? ==>
      && r.next.More() && !IsDirective(r.next.Peek()) && p.head <= r.next.head
      && r.next == p.(head := r.next.head, directives := r.next.directives, streamEnd := r.next.streamEnd)
      && (r.next.streamEnd ==> r.next.head == p.head && p.streamEnd)
    decreases |p.tokens| - p.head
  {
    if !p.More() then BadDirectives
    else
      match p.Peek()
      case VersionDirectiveToken(major, minor) =>
        if version || major != 1 || minor != 1 then BadDirectives else ProcessDirectives(p.Skip(), true, declared)
      case TagDirectiveToken(d) =>
        if PrefixOf(p.directives, d.handle).Some? then BadDirectives
        else ProcessDirectives(p.(directives := p.directives + [d]).Skip(), version, declared + [d])
      case _ =>
        var ds := WithDefault(WithDefault(p.directives, DEFAULT_DIRECTIVES[0]), DEFAULT_DIRECTIVES[1]);
        Directives(p.(directives := ds), version, declared)
  }

  function ParseStreamStart(p: Parse): Outcome {
    if !p.More() || p.Peek() != StreamStartToken then Failed
    else Made(StreamStart, p.(state := AtImplicitDocumentStart).Skip())
  }

  function SkipDocumentEnds(p: Parse): (q: Parse)
    ensures p.head <= q.head && q == p.(head := q.head, streamEnd := q.streamEnd)
    ensures q.streamEnd ==> q.head == p.head && p.streamEnd
    ensures q.More() ==> q.Peek() != DocumentEndToken
    decreases |p.tokens| - p.head
  {
    if p.More() && p.Peek() == DocumentEndToken then SkipDocumentEnds(p.Skip()) else p
  }

  function ParseDocumentStart(p: Parse, implicit: bool): Outcome {
    var q := if implicit then p else SkipDocumentEnds(p);
    if !q.More() then Failed
    else if q.Peek() == StreamEndToken then Made(StreamEnd, q.(state := AtEnd).Skip())
    else ParseDocument(q, implicit)
  }

  /** A document, which may have directives and a start marker. */
  function ParseDocument(p: Parse, implicit: bool): Outcome
    requires p.More()
  {
    match ProcessDirectives(p, false, [])
    case BadDirectives => Failed
    case Directives(q, version, declared) =>
      if implicit && !IsDirective(p.Peek()) && p.Peek() != DocumentStartToken then
        Made(DocumentStart(false, [], false), q.Push(AtDocumentEnd).(state := AtBlockNode))
      else if q.Peek() != DocumentStartToken then Failed
      else Made(DocumentStart(version, declared, false), q.Skip().Push(AtDocumentEnd).(state := AtDocumentContent))
  }

  /** An explicit document without a node. */
  predicate EndsDocument(t: Token) {
    IsDirective(t) || t == DocumentStartToken || t == DocumentEndToken || t == StreamEndToken
  }

  function ParseDocumentContent(p: Parse): Outcome
    requires p.states != []
  {
    if !p.More() then Failed
    else if EndsDocument(p.Peek()) then Made(EMPTY_SCALAR, p.Return())
    else ParseNode(p, true, false)
  }

  function ParseDocumentEnd(p: Parse): Outcome {
    if !p.More() then Failed
    else
      var explicit := p.Peek() == DocumentEndToken;
      var q := if explicit then p.Skip() else p;
      Made(DocumentEnd(!explicit), q.(directives := [], state := AtDocumentStart))
  }

  datatype Properties = BadProperties | Properties(next: Parse, anchor: Bytes, tag: Option<(Bytes, Bytes)>)

  /** A node's anchor and tag, in either order. */
  function ParseProperties(p: Parse): (r: Properties)
    requires p.More()
    ensures r.Properties? ==> r.next.More() && p.head <= r.next.head <= p.head + 2
    ensures r.Properties? ==> r.next == p.(head := r.next.head, streamEnd := r.next.streamEnd)
    ensures r.Properties? ==> (r.next.streamEnd ==> r.next.head == p.head && p.streamEnd)
    ensures r.Properties? && (r.anchor != [] || r.tag.Some?) ==> p.head < r.next.head
  {
    match p.Peek()
    case AnchorToken(anchor) =>
      var q := p.Skip();
      if !q.More() then BadProperties
      else if !q.Peek().TagToken? then Properties(q, anchor, None)
      else if !q.Skip().More() then BadProperties
      else Properties(q.Skip(), anchor, Some((q.Peek().handle, q.Peek().suffix)))
    case TagToken(handle, suffix) =>
      var q := p.Skip();
      if !q.More() then BadProperties
      else if !q.Peek().AnchorToken? then Properties(q, [], Some((handle, suffix)))
      else if !q.Skip().More() then BadProperties
      else Properties(q.Skip(), q.Peek().value, Some((handle, suffix)))
    case _ => Properties(p, [], None)
  }

  /** Whether a scalar of this tag and style resolves its tag by itself, and whether as a quoted one. */
  function Implicit(tag: Bytes, plain: bool): (bool, bool) {
    var bare := (tag == [] && plain) || tag == EXCLAMATION;
    (bare, !bare && tag == [])
  }

  /** The collection a token opens where a node is due: the state that takes its first entry. */
  function Opening(t: Token, block: bool, indentless: bool): Option<State> {
    match t
    case BlockEntryToken => if indentless then Some(AtIndentlessSequenceEntry) else None
    case FlowSequenceStartToken => Some(AtFlowSequenceFirstEntry)
    case FlowMappingStartToken => Some(AtFlowMappingFirstKey)
    case BlockSequenceStartToken => if block then Some(AtBlockSequenceFirstEntry) else None
    case BlockMappingStartToken => if block then Some(AtBlockMappingFirstKey) else None
    case _ => None
  }

  function StartEvent(state: State, anchor: Bytes, tag: Bytes): Event {
    if state == AtFlowMappingFirstKey || state == AtBlockMappingFirstKey then
      MappingStart(anchor, tag, tag == [], state == AtFlowMappingFirstKey)
    else SequenceStart(anchor, tag, tag == [], state == AtFlowSequenceFirstEntry)
  }

  function ScalarEvent(anchor: Bytes, tag: Bytes, value: Bytes, plain: bool): Event {
    var flags := Implicit(tag, plain);
    Scalar(anchor, tag, value, flags.0, flags.1, plain)
  }

  /** A node's content, after its properties; its collection's start token stays where it is. */
  function ParseContent(p: Parse, anchor: Bytes, tag: Bytes, block: bool, indentless: bool): Outcome
    requires p.More() && p.states != []
  {
    if p.Peek().ScalarToken? then
      Made(ScalarEvent(anchor, tag, p.Peek().value, p.Peek().plain), p.Return().Skip())
    else
      match Opening(p.Peek(), block, indentless)
      case Some(state) => Made(StartEvent(state, anchor, tag), p.(state := state))
      case None => EmptyContent(p, anchor, tag)
  }

  /** A node that has properties may have nothing else. */
  function EmptyContent(p: Parse, anchor: Bytes, tag: Bytes): Outcome
    requires p.states != []
  {
    if anchor == [] && tag == [] then Failed
    else Made(Scalar(anchor, tag, [], tag == [], false, true), p.Return())
  }

  function ParseNode(p: Parse, block: bool, indentless: bool): Outcome
    requires p.states != []
  {
    if !p.More() then Failed
    else if p.Peek().AliasToken? then Made(Alias(p.Peek().value), p.Return().Skip())
    else
      match ParseProperties(p)
      case BadProperties => Failed
      case Properties(q, anchor, None) => ParseContent(q, anchor, [], block, indentless)
      case Properties(q, anchor, Some((handle, suffix))) =>
        match ResolvedTag(p.directives, handle, suffix)
        case None => Failed
        case Some(tag) => ParseContent(q, anchor, tag, block, indentless)
  }

  function ParseBlockSequenceEntry(p: Parse, first: bool): Outcome
    requires p.states != [] && if first then p.More() else p.marks != []
  {
    var q := if first then p.Mark().Skip() else p;
    if !q.More() then Failed
    else
      match q.Peek()
      case BlockEntryToken => ParseBlockSequenceItem(q.Skip())
      case BlockEndToken => Made(SequenceEnd, q.Return().Unmark().Skip())
      case _ => Failed
  }

  /** What follows an entry's indicator. */
  function ParseBlockSequenceItem(p: Parse): Outcome {
    if !p.More() then Failed
    else if p.Peek() != BlockEntryToken && p.Peek() != BlockEndToken then
      ParseNode(p.Push(AtBlockSequenceEntry), true, false)
    else Made(EMPTY_SCALAR, p.(state := AtBlockSequenceEntry))
  }

  predicate EndsIndentlessEntry(t: Token) {
    t == BlockEntryToken || EndsBlockEntry(t)
  }

  predicate EndsBlockEntry(t: Token) {
    t == KeyToken || t == ValueToken || t == BlockEndToken
  }

  function ParseIndentlessSequenceEntry(p: Parse): Outcome
    requires p.states != []
  {
    if !p.More() then Failed
    else if p.Peek() != BlockEntryToken then Made(SequenceEnd, p.Return())
    else ParseIndentlessItem(p.Skip())
  }

  function ParseIndentlessItem(p: Parse): Outcome {
    if !p.More() then Failed
    else if !EndsIndentlessEntry(p.Peek()) then ParseNode(p.Push(AtIndentlessSequenceEntry), true, false)
    else Made(EMPTY_SCALAR, p.(state := AtIndentlessSequenceEntry))
  }

  function ParseBlockMappingKey(p: Parse, first: bool): Outcome
    requires p.states != [] && if first then p.More() else p.marks != []
  {
    var q := if first then p.Mark().Skip() else p;
    if !q.More() then Failed
    else
      match q.Peek()
      case KeyToken => ParseBlockMappingNode(q.Skip(), AtBlockMappingValue)
      case BlockEndToken => Made(MappingEnd, q.Return().Unmark().Skip())
      case _ => Failed
  }

  /** What follows a key's or a value's indicator, and the state after it. */
  function ParseBlockMappingNode(p: Parse, after: State): Outcome {
    if !p.More() then Failed
    else if !EndsBlockEntry(p.Peek()) then ParseNode(p.Push(after), true, true)
    else Made(EMPTY_SCALAR, p.(state := after))
  }

  function ParseBlockMappingValue(p: Parse): Outcome {
    if !p.More() then Failed
    else if p.Peek() != ValueToken then Made(EMPTY_SCALAR, p.(state := AtBlockMappingKey))
    else ParseBlockMappingNode(p.Skip(), AtBlockMappingKey)
  }

  function ParseFlowSequenceEntry(p: Parse, first: bool): Outcome
    requires p.states != [] && if first then p.More() else p.marks != []
  {
    var q := if first then p.Mark().Skip() else p;
    if !q.More() then Failed
    else if first || q.Peek() == FlowSequenceEndToken then ParseFlowSequenceItem(q)
    else if q.Peek() == FlowEntryToken then ParseFlowSequenceItem(q.Skip())
    else Failed
  }

  function ParseFlowSequenceItem(p: Parse): Outcome
    requires p.states != [] && p.marks != []
  {
    if !p.More() then Failed
    else if p.Peek() == KeyToken then
      Made(MappingStart([], [], true, true), p.(state := AtFlowSequenceEntryMappingKey).Skip())
    else if p.Peek() == FlowSequenceEndToken then Made(SequenceEnd, p.Return().Unmark().Skip())
    else ParseNode(p.Push(AtFlowSequenceEntry), false, false)
  }

  predicate EndsPairKey(t: Token) {
    t == ValueToken || EndsPair(t)
  }

  predicate EndsPair(t: Token) {
    t == FlowEntryToken || t == FlowSequenceEndToken
  }

  /** The key of a single pair in a flow sequence; for an absent key the token after it goes too. */
  function ParseFlowSequenceEntryMappingKey(p: Parse): Outcome {
    if !p.More() then Failed
    else if !EndsPairKey(p.Peek()) then ParseNode(p.Push(AtFlowSequenceEntryMappingValue), false, false)
    else Made(EMPTY_SCALAR, p.Skip().(state := AtFlowSequenceEntryMappingValue))
  }

  function ParseFlowSequenceEntryMappingValue(p: Parse): Outcome {
    if !p.More() then Failed
    else if p.Peek() != ValueToken then Made(EMPTY_SCALAR, p.(state := AtFlowSequenceEntryMappingEnd))
    else ParsePairValueNode(p.Skip())
  }

  function ParsePairValueNode(p: Parse): Outcome {
    if !p.More() then Failed
    else if !EndsPair(p.Peek()) then ParseNode(p.Push(AtFlowSequenceEntryMappingEnd), false, false)
    else Made(EMPTY_SCALAR, p.(state := AtFlowSequenceEntryMappingEnd))
  }

  function ParseFlowSequenceEntryMappingEnd(p: Parse): Outcome {
    if !p.More() then Failed else Made(MappingEnd, p.(state := AtFlowSequenceEntry))
  }

  predicate EndsFlowKey(t: Token) {
    t == ValueToken || EndsFlowValue(t)
  }

  predicate EndsFlowValue(t: Token) {
    t == FlowEntryToken || t == FlowMappingEndToken
  }

  function ParseFlowMappingKey(p: Parse, first: bool): Outcome
    requires p.states != [] && if first then p.More() else p.marks != []
  {
    var q := if first then p.Mark().Skip() else p;
    if !q.More() then Failed
    else if first || q.Peek() == FlowMappingEndToken then ParseFlowMappingItem(q)
    else if q.Peek() == FlowEntryToken then ParseFlowMappingItem(q.Skip())
    else Failed
  }

  function ParseFlowMappingItem(p: Parse): Outcome
    requires p.states != [] && p.marks != []
  {
    if !p.More() then Failed
    else if p.Peek() == KeyToken then ParseFlowKeyNode(p.Skip())
    else if p.Peek() == FlowMappingEndToken then Made(MappingEnd, p.Return().Unmark().Skip())
    else ParseNode(p.Push(AtFlowMappingEmptyValue), false, false)
  }

  function ParseFlowKeyNode(p: Parse): Outcome {
    if !p.More() then Failed
    else if !EndsFlowKey(p.Peek()) then ParseNode(p.Push(AtFlowMappingValue), false, false)
    else Made(EMPTY_SCALAR, p.(state := AtFlowMappingValue))
  }

  function ParseFlowMappingValue(p: Parse, empty: bool): Outcome {
    if !p.More() then Failed
    else if empty || p.Peek() != ValueToken then Made(EMPTY_SCALAR, p.(state := AtFlowMappingKey))
    else ParseFlowValueNode(p.Skip())
  }

  function ParseFlowValueNode(p: Parse): Outcome {
    if !p.More() then Failed
    else if !EndsFlowValue(p.Peek()) then ParseNode(p.Push(AtFlowMappingKey), false, false)
    else Made(EMPTY_SCALAR, p.(state := AtFlowMappingKey))
  }

  /** The states in which the marks stack holds the mark of the collection being parsed. */
  predicate Marked(state: State) {
    match state
    case AtBlockSequenceEntry => true
    case AtBlockMappingKey => true
    case AtBlockMappingValue => true
    case AtFlowSequenceEntry => true
    case AtFlowSequenceEntryMappingKey => true
    case AtFlowSequenceEntryMappingValue => true
    case AtFlowSequenceEntryMappingEnd => true
    case AtFlowMappingKey => true
    case AtFlowMappingValue => true
    case AtFlowMappingEmptyValue => true
    case _ => false
  }

  function MarkCount(states: seq<State>): nat {
    if states == [] then 0 else MarkCount(states[..|states| - 1]) + (if Marked(states[|states| - 1]) then 1 else 0)
  }

  /** The states that are returned to within a document. */
  predicate Returns(state: State) {
    state.AtIndentlessSequenceEntry? || (Marked(state) && !state.AtFlowSequenceEntryMappingKey?)
  }

  predicate WithinDocument(states: seq<State>) {
    states != [] && states[0] == AtDocumentEnd && forall i | 1 <= i < |states| :: Returns(states[i])
  }

  /** The start token a first-entry state expects. */
  function StartToken(state: State): Option<Token> {
    match state
    case AtBlockSequenceFirstEntry => Some(BlockSequenceStartToken)
    case AtBlockMappingFirstKey => Some(BlockMappingStartToken)
    case AtFlowSequenceFirstEntry => Some(FlowSequenceStartToken)
    case AtFlowMappingFirstKey => Some(FlowMappingStartToken)
    case _ => None
  }

  /** The states stack suits the state. */
  predicate Stacked(state: State, states: seq<State>) {
    match state
    case AtStreamStart => states == []
    case AtImplicitDocumentStart => states == []
    case AtDocumentStart => states == []
    case AtDocumentEnd => states == []
    case AtEnd => states == []
    case AtBlockNode => states == [AtDocumentEnd]
    case AtDocumentContent => states == [AtDocumentEnd]
    case _ => WithinDocument(states)
  }

  /** The states and marks stacks fit together, and a first-entry state has its start token at the head. */
  predicate Valid(p: Parse) {
    && p.head <= |p.tokens|
    && Stacked(p.state, p.states)
    && |p.marks| == MarkCount(p.states) + (if Marked(p.state) then 1 else 0)
    && (p.streamEnd <==> p.state == AtEnd)
    && (StartToken(p.state).Some? ==> p.More() && p.Peek() == StartToken(p.state).value)
  }

  /** `yaml_parser_state_machine`. */
  function Step(p: Parse): Outcome
    requires Valid(p) && p.state != AtEnd
  {
    match p.state
    case AtStreamStart => ParseStreamStart(p)
    case AtImplicitDocumentStart => ParseDocumentStart(p, true)
    case AtDocumentStart => ParseDocumentStart(p, false)
    case AtDocumentContent => ParseDocumentContent(p)
    case AtDocumentEnd => ParseDocumentEnd(p)
    case AtBlockNode => ParseNode(p, true, false)
    case AtBlockSequenceFirstEntry => ParseBlockSequenceEntry(p, true)
    case AtBlockSequenceEntry => ParseBlockSequenceEntry(p, false)
    case AtIndentlessSequenceEntry => ParseIndentlessSequenceEntry(p)
    case AtBlockMappingFirstKey => ParseBlockMappingKey(p, true)
    case AtBlockMappingKey => ParseBlockMappingKey(p, false)
    case AtBlockMappingValue => ParseBlockMappingValue(p)
    case AtFlowSequenceFirstEntry => ParseFlowSequenceEntry(p, true)
    case AtFlowSequenceEntry => ParseFlowSequenceEntry(p, false)
    case AtFlowSequenceEntryMappingKey => ParseFlowSequenceEntryMappingKey(p)
    case AtFlowSequenceEntryMappingValue => ParseFlowSequenceEntryMappingValue(p)
    case AtFlowSequenceEntryMappingEnd => ParseFlowSequenceEntryMappingEnd(p)
    case AtFlowMappingFirstKey => ParseFlowMappingKey(p, true)
    case AtFlowMappingKey => ParseFlowMappingKey(p, false)
    case AtFlowMappingValue => ParseFlowMappingValue(p, false)
    case AtFlowMappingEmptyValue => ParseFlowMappingValue(p, true)
  }
}
