/** What the writers are given: of events whose tags are whole and whose values are valid UTF-8, the state machine hands
  on nothing else, so the loops of the tag and scalar writers, which step by the width of a lead octet, always get to
  the end. */
module EmitterTexts {
  import opened YamlChars
  import opened YamlEvents
  import opened EmitterSteps
  import opened EmitterSoundness
  import opened EmitterRuns
  import ParserSteps

  predicate WriteFits(w: Write) {
    match w
    case TagContent(text, _) => Whole(text)
    case ScalarText(text, _, _) => ValidUtf8(text)
    case _ => true
  }

  predicate AllWritesFit(ws: seq<Write>) {
    forall w | w in ws :: WriteFits(w)
  }

  predicate PrefixesFit(ds: seq<TagDirective>) {
    forall d | d in ds :: Whole(d.prefix)
  }

  predicate Texts(s: Emit) {
    AllWritesFit(s.writes) && PrefixesFit(s.directives)
  }

  predicate Written(o: Outcome) {
    o.Made? ==> Texts(o.next)
  }

  predicate DataFits(d: Data) {
    d.Data? ==> Whole(d.suffix) && ValidUtf8(d.value)
  }

  /** What is left of a tag after a prefix is whole. */
  lemma {:induction false} PartsFit(ds: seq<TagDirective>, tag: Bytes)
    requires PrefixesFit(ds) && Whole(tag)
    ensures Whole(TagParts(ds, tag).1)
  {
    hide ValidUtf8, Whole;
    if ds != [] {
      var prefix := ds[0].prefix;
      if prefix <= tag {
        assert tag == prefix + tag[|prefix|..];
        WholeJoins(prefix, tag[|prefix|..]);
      } else {
        PartsFit(ds[1..], tag);
      }
    }
  }

  lemma NodeDataFits(c: Config, ds: seq<TagDirective>, anchor: Bytes, tag: Bytes, implicit: bool, value: Bytes)
    requires PrefixesFit(ds) && Whole(tag) && ValidUtf8(value)
    ensures DataFits(NodeData(c, ds, anchor, tag, implicit, value))
  {
    assert ValidUtf8([]) && Whole([]);
    hide ValidUtf8, Whole, AnchorFits, TagParts;
    PartsFit(ds, tag);
  }

  lemma AnalysisFits(c: Config, ds: seq<TagDirective>, e: Event)
    requires PrefixesFit(ds) && Readable(e)
    ensures DataFits(AnalyzeEvent(c, ds, e))
  {
    assert ValidUtf8([]) && Whole([]);
    hide ValidUtf8, Whole, NodeData, AnchorFits;
    match e
    case Scalar(anchor, tag, value, implicit, quotedImplicit, _) =>
      NodeDataFits(c, ds, anchor, tag, implicit || quotedImplicit, value);
    case SequenceStart(anchor, tag, implicit, _) => NodeDataFits(c, ds, anchor, tag, implicit, []);
    case MappingStart(anchor, tag, implicit, _) => NodeDataFits(c, ds, anchor, tag, implicit, []);
    case _ =>
  }

  lemma PropertiesFit(d: Data)
    requires d.Data? && DataFits(d)
    ensures AllWritesFit(AnchorWrites(d)) && AllWritesFit(TagWrites(d))
  {
    hide ValidUtf8, Whole;
  }

  lemma TextsWrite(s: Emit, ws: seq<Write>)
    requires Texts(s) && AllWritesFit(ws)
    ensures Texts(s.Write(ws))
  {
    hide WriteFits, PrefixesFit;
  }

  lemma ScalarWritten(c: Config, l: Line, s: Emit, e: Event, d: Data, simpleKey: bool)
    requires Texts(s) && s.states != [] && d.Data? && DataFits(d) && e.Scalar?
    ensures Written(EmitScalar(c, l, s, e, d, simpleKey))
  {
    PutWritten(c, s, d, simpleKey);
    PutWritten(c, s, d.(handle := [0x21]), simpleKey);
    hide AllWritesFit, PrefixesFit, PutScalar;
  }

  lemma PutWritten(c: Config, s: Emit, d: Data, simpleKey: bool)
    requires Texts(s) && d.Data? && DataFits(d)
    ensures Texts(PutScalar(c, s, d, simpleKey)) && PutScalar(c, s, d, simpleKey).states == s.states
  {
    PropertiesFit(d);
    hide ValidUtf8, Whole, AnchorWrites, TagWrites, PrefixesFit;
    TextsWrite(s, AnchorWrites(d) + TagWrites(d));
  }

  lemma NodeWritten(c: Config, l: Line, s: Emit, queue: seq<Event>, d: Data, mapping: bool, simpleKey: bool)
    requires Texts(s) && s.states != [] && queue != [] && d.Data? && DataFits(d)
    ensures Written(EmitNode(c, l, s, queue, d, mapping, simpleKey))
  {
    var t := s.(mapping := mapping);
    PropertiesFit(d);
    hide ValidUtf8, Whole, AnchorWrites, TagWrites, EmptySequence, EmptyMapping, EmitScalar, WriteFits, PrefixesFit;
    if queue[0].Scalar? {
      ScalarWritten(c, l, t, queue[0], d, simpleKey);
    }
  }

  lemma {:induction false} DirectiveWritesFit(tags: seq<TagDirective>, indent: int)
    requires PrefixesFit(tags)
    ensures AllWritesFit(DirectiveWrites(tags, indent))
  {
    hide ValidUtf8, Whole;
    if tags != [] {
      DirectiveWritesFit(tags[1..], indent);
    }
  }

  lemma DocumentWritesFit(c: Config, l: Line, indent: int, first: bool, version: bool, tags: seq<TagDirective>,
                          implicit: bool)
    requires PrefixesFit(tags)
    ensures AllWritesFit(DocumentWrites(c, l, indent, first, version, tags, implicit))
  {
    DirectiveWritesFit(tags, indent);
    hide DirectiveWrites, ValidUtf8, Whole;
  }

  lemma {:induction false} DeclaredFit(ds: seq<TagDirective>, tags: seq<TagDirective>)
    requires PrefixesFit(ds) && PrefixesFit(tags) && Declare(ds, tags).Some?
    ensures PrefixesFit(Declare(ds, tags).value)
    decreases |tags|
  {
    hide ValidUtf8, Whole, TagFits, Declared;
    if tags != [] {
      DeclaredFit(ds + [tags[0]], tags[1..]);
    }
  }

  lemma DefaultFits(ds: seq<TagDirective>, d: TagDirective)
    requires PrefixesFit(ds) && Whole(d.prefix)
    ensures PrefixesFit(ParserSteps.WithDefault(ds, d))
  {
    hide ValidUtf8, Whole, ParserSteps.PrefixOf;
  }

  lemma DefaultsAreText()
    ensures Whole(ParserSteps.DEFAULT_DIRECTIVES[0].prefix) && Whole(ParserSteps.DEFAULT_DIRECTIVES[1].prefix)
  {
    AsciiIsOctets(ParserSteps.EXCLAMATION);
    AsciiIsOctets(ParserSteps.YAML_PREFIX);
    hide ValidUtf8, Whole;
  }

  lemma DocumentWritten(c: Config, l: Line, s: Emit, e: Event, first: bool)
    requires Texts(s) && Readable(e)
    ensures Written(EmitDocumentStart(c, l, s, e, first)) && Written(EmitDocumentEnd(s, e))
    ensures Written(EmitStreamStart(s, e))
  {
    if e.DocumentStart? {
      DocumentWritesFit(c, l, s.indent, first, e.version, e.directives, e.implicit);
      DefaultsAreText();
      if Declare(s.directives, e.directives).Some? {
        DeclaredFit(s.directives, e.directives);
        var ds := Declare(s.directives, e.directives).value;
        DefaultFits(ds, ParserSteps.DEFAULT_DIRECTIVES[0]);
        DefaultFits(ParserSteps.WithDefault(ds, ParserSteps.DEFAULT_DIRECTIVES[0]), ParserSteps.DEFAULT_DIRECTIVES[1]);
      }
    }
    hide ValidUtf8, Whole, Declare, DocumentWrites, ParserSteps.WithDefault;
  }

  lemma FlowWritten(c: Config, l: Line, s: Emit, queue: seq<Event>, d: Data, first: bool)
    requires Texts(s) && queue != [] && d.Data? && DataFits(d) && s.states != []
    requires !first ==> s.flowLevel > 0 && s.indents != []
    ensures Written(EmitFlowSequenceItem(c, l, s, queue, d, first))
    ensures Written(EmitFlowMappingKey(c, l, s, queue, d, first))
  {
    hide EmitNode, DataFits, PrefixesFit, SimpleKey;
    var t, m := if first then OpenFlow(c, s, "[") else s, if first then OpenFlow(c, s, "{") else s;
    var u, v := NextFlow(c, l, t, first), NextFlow(c, l, m, first);
    assert Texts(t) && Texts(m) && Texts(u) && Texts(v);
    var w := v.Write([Indicator("?", true, false, false)]);
    assert Texts(w);
    NodeWritten(c, l, u.Push(AtFlowSequenceItem), queue, d, false, false);
    NodeWritten(c, l, v.Push(AtFlowMappingSimpleValue), queue, d, true, true);
    NodeWritten(c, l, w.Push(AtFlowMappingValue), queue, d, true, false);
  }

  lemma BlockWritten(c: Config, l: Line, s: Emit, queue: seq<Event>, d: Data, first: bool)
    requires Texts(s) && queue != [] && d.Data? && DataFits(d) && s.states != [] && (!first ==> s.indents != [])
    ensures Written(EmitBlockSequenceItem(c, l, s, queue, d, first))
    ensures Written(EmitBlockMappingKey(c, l, s, queue, d, first))
  {
    hide EmitNode, DataFits, PrefixesFit, SimpleKey;
    var t := if first then s.Increase(c, false, s.mapping && !l.indention) else s;
    var u := t.Indented().Write([Indicator("-", true, false, true)]);
    var v := (if first then s.Increase(c, false, false) else s).Indented();
    var w := v.Write([Indicator("?", true, false, true)]);
    assert Texts(t) && Texts(u) && Texts(v) && Texts(w);
    NodeWritten(c, l, u.Push(AtBlockSequenceItem), queue, d, false, false);
    NodeWritten(c, l, v.Push(AtBlockMappingSimpleValue), queue, d, true, true);
    NodeWritten(c, l, w.Push(AtBlockMappingValue), queue, d, true, false);
  }

  lemma ValueWritten(c: Config, l: Line, s: Emit, queue: seq<Event>, d: Data, simple: bool)
    requires Texts(s) && queue != [] && d.Data? && DataFits(d)
    ensures Written(EmitFlowMappingValue(c, l, s, queue, d, simple))
    ensures Written(EmitBlockMappingValue(c, l, s, queue, d, simple)) && Written(EmitDocumentContent(c, l, s, queue, d))
  {
    hide EmitNode, DataFits, PrefixesFit;
    var t := if simple then s.Write([Indicator(":", false, false, false)])
             else (if c.canonical || l.wide then s.Indented() else s).Write([Indicator(":", true, false, false)]);
    var u := if simple then s.Write([Indicator(":", false, false, false)])
             else s.Indented().Write([Indicator(":", true, false, true)]);
    assert Texts(t) && Texts(u);
    NodeWritten(c, l, t.Push(AtFlowMappingKey), queue, d, true, false);
    NodeWritten(c, l, u.Push(AtBlockMappingKey), queue, d, true, false);
    NodeWritten(c, l, s.Push(AtDocumentEnd), queue, d, false, false);
  }

  lemma StepWritten(c: Config, l: Line, s: Emit, queue: seq<Event>)
    requires Valid(s) && queue != [] && Readable(queue[0]) && Texts(s)
    ensures Written(Step(c, l, s, queue))
  {
    var d := AnalyzeEvent(c, s.directives, queue[0]);
    AnalysisFits(c, s.directives, queue[0]);
    StepStacks(s);
    hide Valid, Readable, Texts, Written, DataFits, AnalyzeEvent, EmitStreamStart, EmitDocumentStart,
      EmitDocumentContent, EmitDocumentEnd, EmitFlowSequenceItem, EmitFlowMappingKey, EmitFlowMappingValue,
      EmitBlockSequenceItem, EmitBlockMappingKey, EmitBlockMappingValue;
    if d.Data? {
      match s.state
      case AtStreamStart => DocumentWritten(c, l, s, queue[0], true);
      case AtFirstDocumentStart => DocumentWritten(c, l, s, queue[0], true);
      case AtDocumentStart => DocumentWritten(c, l, s, queue[0], false);
      case AtDocumentContent => ValueWritten(c, l, s, queue, d, true);
      case AtDocumentEnd => DocumentWritten(c, l, s, queue[0], true);
      case AtFlowSequenceFirstItem => FlowWritten(c, l, s, queue, d, true);
      case AtFlowSequenceItem => FlowWritten(c, l, s, queue, d, false);
      case AtFlowMappingFirstKey => FlowWritten(c, l, s, queue, d, true);
      case AtFlowMappingKey => FlowWritten(c, l, s, queue, d, false);
      case AtFlowMappingSimpleValue => ValueWritten(c, l, s, queue, d, true);
      case AtFlowMappingValue => ValueWritten(c, l, s, queue, d, false);
      case AtBlockSequenceFirstItem => BlockWritten(c, l, s, queue, d, true);
      case AtBlockSequenceItem => BlockWritten(c, l, s, queue, d, false);
      case AtBlockMappingFirstKey => BlockWritten(c, l, s, queue, d, true);
      case AtBlockMappingKey => BlockWritten(c, l, s, queue, d, false);
      case AtBlockMappingSimpleValue => ValueWritten(c, l, s, queue, d, true);
      case AtBlockMappingValue => ValueWritten(c, l, s, queue, d, false);
      case AtEnd =>
    }
  }

  /** The stacks are there for the states that look at them. */
  lemma StepStacks(s: Emit)
    requires Valid(s)
    ensures s.state.AtFlowSequenceFirstItem? || s.state.AtFlowMappingFirstKey? ==> s.states != []
    ensures s.state.AtBlockSequenceFirstItem? || s.state.AtBlockMappingFirstKey? ==> s.states != []
    ensures Entered(s.state) ==> s.states != [] && s.indents != []
    ensures InFlow(s.state) ==> s.flowLevel > 0
  {
    assert (s.states + [s.state])[..|s.states|] == s.states;
  }

  lemma {:induction false} DrainWritten(c: Config, lines: Lines, s: Emit, queue: seq<Event>, done: nat)
    requires Valid(s) && AllReadable(queue) && Texts(s)
    ensures var e := Drain(c, lines, s, queue, done); e.Emitter? ==> Texts(e.s)
    decreases |queue|
  {
    hide Valid, Texts, Readable, Step, NeedMore;
    if !NeedMore(queue) {
      NotEmpty(queue);
      StepWritten(c, lines(done), s, queue);
      StepExact(c, lines(done), s, queue);
      match Step(c, lines(done), s, queue)
      case Failed =>
      case Made(t) => DrainWritten(c, lines, t, queue[1..], done + 1);
    }
  }

  lemma NotEmpty(queue: seq<Event>)
    requires !NeedMore(queue)
    ensures queue != []
  {
  }

  /** Every text that the writer of tags is ever given is whole, and every one of the scalar writers valid UTF-8. */
  lemma {:induction false} WritersGetText(c: Config, lines: Lines, es: seq<Event>)
    requires AllReadable(es)
    ensures var e := EmitAll(c, lines, es); e.Emitter? ==> Texts(e.s)
  {
    if es == [] {
      assert Texts(START);
    } else {
      var init := es[..|es| - 1];
      WritersGetText(c, lines, init);
      var e := EmitAll(c, lines, init);
      hide Valid, Texts, Readable, Drain;
      if e.Emitter? {
        DrainWritten(c, lines, e.s, e.queue + [es[|es| - 1]], e.done);
      }
    }
  }
}
