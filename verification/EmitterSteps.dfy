/** The emitter's state machine (emitterc.go): what each event of the queue's head makes of the state, the stacks
  and the writes.

  What the writers have left of the line decides some of it, and so does the style a scalar is given: that is
  a parameter here, `Line`, which may be anything.  The events are those of `YamlEvents`; a version directive is
  1.1, an empty anchor or tag is an absent one. */
module EmitterSteps {
  import opened YamlChars
  import opened YamlEvents
  import ParserSteps
  import QuotedWriter

  datatype State =
    | AtStreamStart
    | AtFirstDocumentStart
    | AtDocumentStart
    | AtDocumentContent
    | AtDocumentEnd
    | AtFlowSequenceFirstItem
    | AtFlowSequenceItem
    | AtFlowMappingFirstKey
    | AtFlowMappingKey
    | AtFlowMappingSimpleValue
    | AtFlowMappingValue
    | AtBlockSequenceFirstItem
    | AtBlockSequenceItem
    | AtBlockMappingFirstKey
    | AtBlockMappingKey
    | AtBlockMappingSimpleValue
    | AtBlockMappingValue
    | AtEnd

  datatype Config = Config(canonical: bool, bestIndent: nat, unicode: bool)

  /** Whether the column is past the best width, only indentation is on the line, the scalar is given another
      style than plain, and the text so far is open-ended. */
  datatype Line = Line(wide: bool, indention: bool, quoted: bool, openEnded: bool)

  /** A call of a writer; an indent's column and the flags of an indicator are the writer's own arguments. */
  datatype Write =
    | Indicator(sign: string, needWhitespace: bool, isWhitespace: bool, isIndention: bool)
    | Indent(indent: int)
    | AnchorText(text: Bytes)
    | TagHandle(text: Bytes)
    | TagContent(text: Bytes, needWhitespace: bool)
    | ScalarText(text: Bytes, indent: int, simpleKey: bool)
    | Flush

  datatype Emit = Emit(state: State, states: seq<State>, indents: seq<int>, indent: int, flowLevel: nat,
                       directives: seq<TagDirective>, mapping: bool, writes: seq<Write>)
  {
    function Write(ws: seq<Write>): Emit {
      this.(writes := writes + ws)
    }

    function Indented(): Emit {
      Write([Indent(indent)])
    }

    function Push(s: State): Emit {
      this.(states := states + [s])
    }

    function Pop(): Emit
      requires states != []
    {
      this.(state := states[|states| - 1], states := states[..|states| - 1])
    }

    /** `yaml_emitter_increase_indent`. */
    function Increase(c: Config, flow: bool, indentless: bool): Emit {
      var more := if indent < 0 then (if flow then c.bestIndent else 0)
                  else if indentless then indent else indent + c.bestIndent;
      this.(indents := indents + [indent], indent := more)
    }

    function Decrease(): Emit
      requires indents != []
    {
      this.(indent := indents[|indents| - 1], indents := indents[..|indents| - 1])
    }
  }

  datatype Outcome = Failed | Made(next: Emit)

  const START := Emit(AtStreamStart, [], [], 0, 0, [], false, [])

  /** What `yaml_emitter_analyze_event` finds out. */
  datatype Data = BadData | Data(anchor: Bytes, alias: bool, handle: Bytes, suffix: Bytes, value: Bytes,
    multiline: bool)

  predicate AnchorFits(anchor: Bytes) {
    anchor != [] && forall b | b in anchor :: IsAlpha(b)
  }

  /** The first directive whose prefix the tag has; without one the tag is all suffix. */
  function TagParts(ds: seq<TagDirective>, tag: Bytes): (Bytes, Bytes) {
    if ds == [] then ([], tag)
    else if ds[0].prefix <= tag then (ds[0].handle, tag[|ds[0].prefix|..])
    else TagParts(ds[1..], tag)
  }

  function NodeData(c: Config, ds: seq<TagDirective>, anchor: Bytes, tag: Bytes, implicit: bool, value: Bytes): Data
    requires ValidUtf8(value)
  {
    if anchor != [] && !AnchorFits(anchor) then BadData
    else
      var parts := if tag != [] && (c.canonical || !implicit) then TagParts(ds, tag) else ([], []);
      Data(anchor, false, parts.0, parts.1, value, QuotedWriter.AnalyzeScalar(c.unicode, value).multiline)
  }

  /** What the writers are to write they can step through: a scalar's value is valid UTF-8, and in a tag the octets
      that each lead octet asks for are there. */
  predicate Readable(e: Event) {
    match e
    case DocumentStart(_, tags, _) => forall d | d in tags :: Whole(d.prefix)
    case Scalar(_, tag, value, _, _, _) => Whole(tag) && ValidUtf8(value)
    case SequenceStart(_, tag, _, _) => Whole(tag)
    case MappingStart(_, tag, _, _) => Whole(tag)
    case _ => true
  }

  function AnalyzeEvent(c: Config, ds: seq<TagDirective>, e: Event): Data
    requires Readable(e)
  {
    match e
    case Alias(anchor) => if AnchorFits(anchor) then Data(anchor, true, [], [], [], false) else BadData
    case Scalar(anchor, tag, value, implicit, quotedImplicit, _) =>
      NodeData(c, ds, anchor, tag, implicit || quotedImplicit, value)
    case SequenceStart(anchor, tag, implicit, _) => NodeData(c, ds, anchor, tag, implicit, [])
    case MappingStart(anchor, tag, implicit, _) => NodeData(c, ds, anchor, tag, implicit, [])
    case _ => Data([], false, [], [], [], false)
  }

  /** How much an event opens or closes. */
  function Level(e: Event): int {
    match e
    case StreamStart => 1
    case DocumentStart(_, _, _) => 1
    case SequenceStart(_, _, _, _) => 1
    case MappingStart(_, _, _, _) => 1
    case Alias(_) => 0
    case Scalar(_, _, _, _, _, _) => 0
    case _ => -1
  }

  /** Whether what the first event opens is closed within the queue. */
  predicate Closes(queue: seq<Event>, level: int) {
    queue != [] && (level + Level(queue[0]) == 0 || Closes(queue[1..], level + Level(queue[0])))
  }

  function Accumulate(e: Event): nat {
    match e
    case DocumentStart(_, _, _) => 1
    case SequenceStart(_, _, _, _) => 2
    case MappingStart(_, _, _, _) => 3
    case _ => 0
  }

  /** `yaml_emitter_need_more_events`. */
  predicate NeedMore(queue: seq<Event>) {
    queue == [] || (Accumulate(queue[0]) > 0 && |queue| <= Accumulate(queue[0]) && !Closes(queue, 0))
  }

  /** `yaml_emitter_check_empty_sequence`. */
  predicate EmptySequence(queue: seq<Event>) {
    |queue| >= 2 && queue[0].SequenceStart? && queue[1].SequenceEnd?
  }

  predicate EmptyMapping(queue: seq<Event>) {
    |queue| >= 2 && queue[0].MappingStart? && queue[1].MappingEnd?
  }

  /** `yaml_emitter_check_simple_key`. */
  predicate SimpleKey(queue: seq<Event>, d: Data)
    requires queue != [] && d.Data?
  {
    match queue[0]
    case Alias(_) => |d.anchor| <= 128
    case Scalar(_, _, _, _, _, _) => !d.multiline && |d.anchor| + |d.handle| + |d.suffix| + |d.value| <= 128
    case SequenceStart(_, _, _, _) => EmptySequence(queue) && |d.anchor| + |d.handle| + |d.suffix| <= 128
    case MappingStart(_, _, _, _) => EmptyMapping(queue) && |d.anchor| + |d.handle| + |d.suffix| <= 128
    case _ => false
  }

  function AnchorWrites(d: Data): seq<Write>
    requires d.Data?
  {
    if d.anchor == [] then []
    else [Indicator(if d.alias then "*" else "&", true, false, false), AnchorText(d.anchor)]
  }

  function TagWrites(d: Data): seq<Write>
    requires d.Data?
  {
    if d.handle == [] && d.suffix == [] then []
    else if d.handle == [] then
      [Indicator("!<", true, false, false), TagContent(d.suffix, false), Indicator(">", false, false, false)]
    else [TagHandle(d.handle)] + (if d.suffix == [] then [] else [TagContent(d.suffix, false)])
  }

  /** A scalar that has neither a tag nor an implicit one is refused. */
  function EmitScalar(c: Config, l: Line, s: Emit, e: Event, d: Data, simpleKey: bool): Outcome
    requires s.states != [] && d.Data? && e.Scalar?
  {
    var noTag := d.handle == [] && d.suffix == [];
    if noTag && !e.implicit && !e.quotedImplicit then Failed
    else
      var d' := if noTag && !e.quotedImplicit && l.quoted then d.(handle := [0x21]) else d;
      Made(PutScalar(c, s, d', simpleKey).Pop())
  }

  /** The properties and the text, the latter one indent deeper. */
  function PutScalar(c: Config, s: Emit, d: Data, simpleKey: bool): Emit
    requires d.Data?
  {
    var inside := s.Write(AnchorWrites(d) + TagWrites(d)).Increase(c, true, false);
    inside.Write([ScalarText(d.value, inside.indent, simpleKey)]).Decrease()
  }

  function EmitStart(c: Config, s: Emit, d: Data, flow: bool, first: State, flowFirst: State): Outcome
    requires d.Data?
  {
    Made(s.Write(AnchorWrites(d) + TagWrites(d)).(state :=
      if s.flowLevel > 0 || c.canonical || flow then flowFirst else first))
  }

  /** `yaml_emitter_emit_node`. */
  function EmitNode(c: Config, l: Line, s: Emit, queue: seq<Event>, d: Data, mapping: bool, simpleKey: bool): Outcome
    requires s.states != [] && queue != [] && d.Data?
  {
    var t := s.(mapping := mapping);
    match queue[0]
    case Alias(_) => Made(t.Write(AnchorWrites(d)).Pop())
    case Scalar(_, _, _, _, _, _) => EmitScalar(c, l, t, queue[0], d, simpleKey)
    case SequenceStart(_, _, _, flow) =>
      EmitStart(c, t, d, flow || EmptySequence(queue), AtBlockSequenceFirstItem, AtFlowSequenceFirstItem)
    case MappingStart(_, _, _, flow) =>
      EmitStart(c, t, d, flow || EmptyMapping(queue), AtBlockMappingFirstKey, AtFlowMappingFirstKey)
    case _ => Failed
  }

  predicate TagFits(d: TagDirective) {
    && d.handle != [] && d.handle[0] == 0x21 && d.handle[|d.handle| - 1] == 0x21 && d.prefix != []
    && forall i | 1 <= i < |d.handle| - 1 :: IsAlpha(d.handle[i])
  }

  predicate Declared(ds: seq<TagDirective>, handle: Bytes) {
    ParserSteps.PrefixOf(ds, handle).Some?
  }

  /** The directives declared one after the other; none if one is malformed or a handle is declared twice. */
  function Declare(ds: seq<TagDirective>, tags: seq<TagDirective>): Option<seq<TagDirective>>
    decreases |tags|
  {
    if tags == [] then Some(ds)
    else if !TagFits(tags[0]) || Declared(ds, tags[0].handle) then None
    else Declare(ds + [tags[0]], tags[1..])
  }

  const DOTS := Indicator("...", true, false, false)

  function DirectiveWrites(tags: seq<TagDirective>, indent: int): seq<Write> {
    if tags == [] then []
    else
      [Indicator("%TAG", true, false, false), TagHandle(tags[0].handle), TagContent(tags[0].prefix, true),
        Indent(indent)]
      + DirectiveWrites(tags[1..], indent)
  }

  /** What comes before a document's marker. */
  function HeadWrites(l: Line, indent: int, version: bool, tags: seq<TagDirective>): seq<Write> {
    (if l.openEnded && (version || tags != []) then [DOTS, Indent(indent)] else [])
    + (if version
       then [Indicator("%YAML", true, false, false), Indicator("1.1", true, false, false), Indent(indent)]
       else [])
    + DirectiveWrites(tags, indent)
  }

  /** The marker, unless the document is bare. */
  function MarkerWrites(c: Config, indent: int, bare: bool): seq<Write> {
    if bare then []
    else [Indent(indent), Indicator("---", true, false, false)] + (if c.canonical then [Indent(indent)] else [])
  }

  function DocumentWrites(c: Config, l: Line, indent: int, first: bool, version: bool, tags: seq<TagDirective>,
                          implicit: bool): seq<Write>
  {
    HeadWrites(l, indent, version, tags)
    + MarkerWrites(c, indent, implicit && first && !c.canonical && !version && tags == [])
  }

  function EmitStreamStart(s: Emit, e: Event): Outcome {
    if !e.StreamStart? then Failed else Made(s.(indent := -1, state := AtFirstDocumentStart))
  }

  function EmitDocumentStart(c: Config, l: Line, s: Emit, e: Event, first: bool): Outcome {
    match e
    case DocumentStart(version, tags, implicit) =>
      (match Declare(s.directives, tags)
       case None => Failed
       case Some(ds) =>
         var all := ParserSteps.WithDefault(ParserSteps.WithDefault(ds, ParserSteps.DEFAULT_DIRECTIVES[0]),
                                            ParserSteps.DEFAULT_DIRECTIVES[1]);
         Made(s.Write(DocumentWrites(c, l, s.indent, first, version, tags, implicit))
               .(directives := all, state := AtDocumentContent)))
    case StreamEnd => Made(s.Write((if l.openEnded then [DOTS, Indent(s.indent)] else []) + [Flush]).(state := AtEnd))
    case _ => Failed
  }

  function EmitDocumentContent(c: Config, l: Line, s: Emit, queue: seq<Event>, d: Data): Outcome
    requires queue != [] && d.Data?
  {
    EmitNode(c, l, s.Push(AtDocumentEnd), queue, d, false, false)
  }

  function EmitDocumentEnd(s: Emit, e: Event): Outcome {
    match e
    case DocumentEnd(implicit) =>
      Made(s.Write([Indent(s.indent)] + (if implicit then [] else [DOTS, Indent(s.indent)]) + [Flush])
            .(state := AtDocumentStart, directives := []))
    case _ => Failed
  }

  /** Into a flow collection: its bracket, a deeper indent and flow level. */
  function OpenFlow(c: Config, s: Emit, bracket: string): Emit {
    s.Write([Indicator(bracket, true, true, false)]).Increase(c, true, false).(flowLevel := s.flowLevel + 1)
  }

  function CloseFlow(c: Config, s: Emit, bracket: string, first: bool): Outcome
    requires s.flowLevel > 0 && s.indents != [] && s.states != []
  {
    var t := s.(flowLevel := s.flowLevel - 1).Decrease();
    var u := if c.canonical && !first then t.Write([Indicator(",", false, false, false), Indent(t.indent)]) else t;
    Made(u.Write([Indicator(bracket, false, false, false)]).Pop())
  }

  /** Between the items of a flow collection. */
  function NextFlow(c: Config, l: Line, s: Emit, first: bool): Emit {
    var t := if first then s else s.Write([Indicator(",", false, false, false)]);
    if c.canonical || l.wide then t.Indented() else t
  }

  function EmitFlowSequenceItem(c: Config, l: Line, s: Emit, queue: seq<Event>, d: Data, first: bool): Outcome
    requires queue != [] && d.Data? && s.states != [] && (!first ==> s.flowLevel > 0 && s.indents != [])
  {
    var t := if first then OpenFlow(c, s, "[") else s;
    if queue[0].SequenceEnd? then CloseFlow(c, t, "]", first)
    else EmitNode(c, l, NextFlow(c, l, t, first).Push(AtFlowSequenceItem), queue, d, false, false)
  }

  function EmitFlowMappingKey(c: Config, l: Line, s: Emit, queue: seq<Event>, d: Data, first: bool): Outcome
    requires queue != [] && d.Data? && s.states != [] && (!first ==> s.flowLevel > 0 && s.indents != [])
  {
    var t := if first then OpenFlow(c, s, "{") else s;
    if queue[0].MappingEnd? then CloseFlow(c, t, "}", first)
    else
      var u := NextFlow(c, l, t, first);
      if !c.canonical && SimpleKey(queue, d) then
        EmitNode(c, l, u.Push(AtFlowMappingSimpleValue), queue, d, true, true)
      else
        EmitNode(c, l, u.Write([Indicator("?", true, false, false)]).Push(AtFlowMappingValue), queue, d, true, false)
  }

  function EmitFlowMappingValue(c: Config, l: Line, s: Emit, queue: seq<Event>, d: Data, simple: bool): Outcome
    requires queue != [] && d.Data?
  {
    var t := if simple then s.Write([Indicator(":", false, false, false)])
             else
               (if c.canonical || l.wide then s.Indented() else s).Write([Indicator(":", true, false, false)]);
    EmitNode(c, l, t.Push(AtFlowMappingKey), queue, d, true, false)
  }

  function EmitBlockSequenceItem(c: Config, l: Line, s: Emit, queue: seq<Event>, d: Data, first: bool): Outcome
    requires queue != [] && d.Data? && s.states != [] && (!first ==> s.indents != [])
  {
    var t := if first then s.Increase(c, false, s.mapping && !l.indention) else s;
    if queue[0].SequenceEnd? then Made(t.Decrease().Pop())
    else
      EmitNode(c, l, t.Indented().Write([Indicator("-", true, false, true)]).Push(AtBlockSequenceItem), queue, d,
        false, false)
  }

  function EmitBlockMappingKey(c: Config, l: Line, s: Emit, queue: seq<Event>, d: Data, first: bool): Outcome
    requires queue != [] && d.Data? && s.states != [] && (!first ==> s.indents != [])
  {
    var t := if first then s.Increase(c, false, false) else s;
    if queue[0].MappingEnd? then Made(t.Decrease().Pop())
    else
      var u := t.Indented();
      if SimpleKey(queue, d) then EmitNode(c, l, u.Push(AtBlockMappingSimpleValue), queue, d, true, true)
      else
        EmitNode(c, l, u.Write([Indicator("?", true, false, true)]).Push(AtBlockMappingValue), queue, d, true, false)
  }

  function EmitBlockMappingValue(c: Config, l: Line, s: Emit, queue: seq<Event>, d: Data, simple: bool): Outcome
    requires queue != [] && d.Data?
  {
    var t := if simple then s.Write([Indicator(":", false, false, false)])
             else s.Indented().Write([Indicator(":", true, false, true)]);
    EmitNode(c, l, t.Push(AtBlockMappingKey), queue, d, true, false)
  }

  /** The states of a collection that has been entered, and has an indent on the stack. */
  predicate Entered(state: State) {
    match state
    case AtFlowSequenceItem => true
    case AtFlowMappingKey => true
    case AtFlowMappingSimpleValue => true
    case AtFlowMappingValue => true
    case AtBlockSequenceItem => true
    case AtBlockMappingKey => true
    case AtBlockMappingSimpleValue => true
    case AtBlockMappingValue => true
    case _ => false
  }

  predicate InFlow(state: State) {
    state.AtFlowSequenceItem? || state.AtFlowMappingKey? || state.AtFlowMappingSimpleValue? || state.AtFlowMappingValue?
  }

  function EnteredCount(states: seq<State>): nat {
    if states == [] then 0 else EnteredCount(states[..|states| - 1]) + (if Entered(states[|states| - 1]) then 1 else 0)
  }

  function FlowCount(states: seq<State>): nat {
    if states == [] then 0 else FlowCount(states[..|states| - 1]) + (if InFlow(states[|states| - 1]) then 1 else 0)
  }

  /** The states that are pushed within a document. */
  predicate WithinDocument(states: seq<State>) {
    states != [] && states[0] == AtDocumentEnd && forall i | 1 <= i < |states| :: Entered(states[i])
  }

  predicate Stacked(state: State, states: seq<State>) {
    match state
    case AtStreamStart => states == []
    case AtFirstDocumentStart => states == []
    case AtDocumentStart => states == []
    case AtDocumentContent => states == []
    case AtDocumentEnd => states == []
    case AtEnd => states == []
    case _ => WithinDocument(states)
  }

  /** The stacks fit: an indent and, in flow, a level for each collection entered; the outermost indent is -1. */
  predicate Valid(s: Emit) {
    && Stacked(s.state, s.states)
    && |s.indents| == EnteredCount(s.states + [s.state])
    && s.flowLevel == FlowCount(s.states + [s.state])
    && (s.state != AtStreamStart ==> (s.indents + [s.indent])[0] == -1)
    && (forall d | d in s.directives :: d.handle != [])
    && (s.state.AtFirstDocumentStart? || s.state.AtDocumentStart? || s.state.AtStreamStart? ==> s.directives == [])
  }

  /** `yaml_emitter_state_machine`. */
  function Step(c: Config, l: Line, s: Emit, queue: seq<Event>): Outcome
    requires Valid(s) && queue != [] && Readable(queue[0])
  {
    var e := queue[0];
    var d := AnalyzeEvent(c, s.directives, e);
    if d.BadData? then Failed
    else
      match s.state
      case AtStreamStart => EmitStreamStart(s, e)
      case AtFirstDocumentStart => EmitDocumentStart(c, l, s, e, true)
      case AtDocumentStart => EmitDocumentStart(c, l, s, e, false)
      case AtDocumentContent => EmitDocumentContent(c, l, s, queue, d)
      case AtDocumentEnd => EmitDocumentEnd(s, e)
      case AtFlowSequenceFirstItem => EmitFlowSequenceItem(c, l, s, queue, d, true)
      case AtFlowSequenceItem => EmitFlowSequenceItem(c, l, s, queue, d, false)
      case AtFlowMappingFirstKey => EmitFlowMappingKey(c, l, s, queue, d, true)
      case AtFlowMappingKey => EmitFlowMappingKey(c, l, s, queue, d, false)
      case AtFlowMappingSimpleValue => EmitFlowMappingValue(c, l, s, queue, d, true)
      case AtFlowMappingValue => EmitFlowMappingValue(c, l, s, queue, d, false)
      case AtBlockSequenceFirstItem => EmitBlockSequenceItem(c, l, s, queue, d, true)
      case AtBlockSequenceItem => EmitBlockSequenceItem(c, l, s, queue, d, false)
      case AtBlockMappingFirstKey => EmitBlockMappingKey(c, l, s, queue, d, true)
      case AtBlockMappingKey => EmitBlockMappingKey(c, l, s, queue, d, false)
      case AtBlockMappingSimpleValue => EmitBlockMappingValue(c, l, s, queue, d, true)
      case AtBlockMappingValue => EmitBlockMappingValue(c, l, s, queue, d, false)
      case AtEnd => Failed
  }
}
