/** The emitter as emitterc.go has it: an object that queues events and changes its state, stacks and flow level
  as it emits them. */
module YamlEmitter {
  import opened YamlChars
  import opened YamlEvents
  import opened EmitterSteps
  import opened EmitterSoundness
  import opened EmitterRuns
  import ParserSteps
  import QuotedWriter

  class EventEmitter {
    const config: Config
    var events: seq<Event>
    var head: nat
    var state: State
    var states: seq<State>
    var indents: seq<int>
    var indent: int
    var flowLevel: nat
    var directives: seq<TagDirective>
    var mapping: bool
    var writes: seq<Write>
    var line: Line              // what the writers and the style selection find, before each step
    var data: Data
    var failed: bool

    constructor (config: Config)
      ensures this.config == config && Now() == START && head == 0 && events == [] && !failed
    {
      this.config := config;
      events, head, state, states, indents, indent, flowLevel := [], 0, AtStreamStart, [], [], 0, 0;
      directives, mapping, writes, line := [], false, [], Line(false, false, false, false);
      data, failed := BadData, false;
    }

    ghost function Now(): Emit
      reads this
    {
      Emit(state, states, indents, indent, flowLevel, directives, mapping, writes)
    }

    ghost function Queue(): seq<Event>
      requires head <= |events|
      reads this`events, this`head
    {
      events[head..]
    }

    ghost predicate Did(o: Outcome)
      reads this
    {
      match o
      case Failed => failed
      case Made(next) => !failed && Now() == next
    }

    method Put(ws: seq<Write>)
      modifies this`writes
      ensures Now() == old(Now()).Write(ws)
    {
      writes := writes + ws;
    }

    method PushState(s: State)
      modifies this`states
      ensures Now() == old(Now()).Push(s)
    {
      states := states + [s];
    }

    method PopState()
      requires states != []
      modifies this`state, this`states
      ensures Now() == old(Now()).Pop()
    {
      state := states[|states| - 1];
      states := states[..|states| - 1];
    }

    /** `yaml_emitter_increase_indent`. */
    method IncreaseIndent(flow: bool, indentless: bool)
      modifies this`indents, this`indent
      ensures Now() == old(Now()).Increase(config, flow, indentless)
    {
      indents := indents + [indent];
      if indent < 0 {
        indent := if flow then config.bestIndent else 0;
      } else if !indentless {
        indent := indent + config.bestIndent;
      }
    }

    method DecreaseIndent()
      requires indents != []
      modifies this`indents, this`indent
      ensures Now() == old(Now()).Decrease()
    {
      indent := indents[|indents| - 1];
      indents := indents[..|indents| - 1];
    }

    /** `yaml_emitter_need_more_events`. */
    method NeedMoreEvents() returns (more: bool)
      requires head <= |events|
      ensures more == NeedMore(Queue())
    {
      if head == |events| {
        return true;
      }
      var accumulate := Accumulate(events[head]);
      if accumulate == 0 || |events| - head > accumulate {
        return false;
      }
      var level, i := 0, head;
      while i < |events|
        invariant head <= i <= |events| && Closes(Queue(), 0) == Closes(events[i..], level)
      {
        assert events[i..][1..] == events[i + 1..];
        level := level + Level(events[i]);
        if level == 0 {
          return false;
        }
        i := i + 1;
      }
      assert events[i..] == [];
      more := true;
    }

    /** `yaml_emitter_check_empty_sequence`. */
    method CheckEmptySequence() returns (empty: bool)
      requires head <= |events|
      ensures empty == EmptySequence(Queue())
    {
      if |events| - head < 2 {
        return false;
      }
      empty := events[head].SequenceStart? && events[head + 1].SequenceEnd?;
    }

    /** `yaml_emitter_check_empty_mapping`. */
    method CheckEmptyMapping() returns (empty: bool)
      requires head <= |events|
      ensures empty == EmptyMapping(Queue())
    {
      if |events| - head < 2 {
        return false;
      }
      empty := events[head].MappingStart? && events[head + 1].MappingEnd?;
    }

    /** `yaml_emitter_check_simple_key`. */
    method CheckSimpleKey() returns (simple: bool)
      requires head < |events| && data.Data?
      ensures simple == SimpleKey(Queue(), data)
    {
      var length := |data.anchor|;
      match events[head] {
        case Alias(_) =>
        case Scalar(_, _, _, _, _, _) =>
          if data.multiline {
            return false;
          }
          length := length + |data.handle| + |data.suffix| + |data.value|;
        case SequenceStart(_, _, _, _) =>
          var empty := CheckEmptySequence();
          if !empty {
            return false;
          }
          length := length + |data.handle| + |data.suffix|;
        case MappingStart(_, _, _, _) =>
          var empty := CheckEmptyMapping();
          if !empty {
            return false;
          }
          length := length + |data.handle| + |data.suffix|;
        case _ => return false;
      }
      simple := length <= 128;
    }

    /** `yaml_emitter_append_tag_directive`. */
    method AppendDirective(d: TagDirective, allowDuplicates: bool) returns (ok: bool)
      modifies this`directives
      ensures ok <==> allowDuplicates || !Declared(old(directives), d.handle)
      ensures directives == ParserSteps.WithDefault(old(directives), d)
    {
      var i := 0;
      while i < |directives|
        invariant 0 <= i <= |directives| && directives == old(directives)
        invariant ParserSteps.PrefixOf(directives, d.handle) == ParserSteps.PrefixOf(directives[i..], d.handle)
      {
        if directives[i].handle == d.handle {
          return allowDuplicates;
        }
        i := i + 1;
      }
      directives := directives + [d];
      ok := true;
    }

    /** `yaml_emitter_analyze_tag_directive`. */
    static method AnalyzeDirective(d: TagDirective) returns (ok: bool)
      ensures ok == TagFits(d)
    {
      if d.handle == [] || d.handle[0] != 0x21 || d.handle[|d.handle| - 1] != 0x21 {
        return false;
      }
      var i := 1;
      while i < |d.handle| - 1
        invariant 1 <= i && (i < |d.handle| || i == 1) && forall k | 1 <= k < i :: IsAlpha(d.handle[k])
      {
        if !IsAlpha(d.handle[i]) {
          return false;
        }
        i := i + Width(d.handle[i]);
      }
      ok := d.prefix != [];
    }

    method DeclareDirectives(tags: seq<TagDirective>) returns (ok: bool)
      modifies this`directives
      ensures match Declare(old(directives), tags)
              case None => !ok
              case Some(ds) => ok && directives == ds
    {
      var i := 0;
      while i < |tags|
        invariant 0 <= i <= |tags| && Declare(old(directives), tags) == Declare(directives, tags[i..])
      {
        assert tags[i..][1..] == tags[i + 1..];
        ok := AnalyzeDirective(tags[i]);
        if !ok {
          return false;
        }
        ok := AppendDirective(tags[i], false);
        if !ok {
          return false;
        }
        i := i + 1;
      }
      ok := true;
    }

    /** `yaml_emitter_analyze_anchor`. */
    static method AnalyzeAnchor(anchor: Bytes) returns (ok: bool)
      ensures ok == AnchorFits(anchor)
    {
      if anchor == [] {
        return false;
      }
      var i := 0;
      while i < |anchor|
        invariant 0 <= i <= |anchor| && forall k | 0 <= k < i :: IsAlpha(anchor[k])
      {
        if !IsAlpha(anchor[i]) {
          return false;
        }
        i := i + Width(anchor[i]);
      }
      ok := true;
    }

    /** `yaml_emitter_analyze_tag`. */
    method AnalyzeTag(tag: Bytes) returns (handle: Bytes, suffix: Bytes)
      ensures (handle, suffix) == TagParts(directives, tag)
    {
      var i := 0;
      while i < |directives|
        invariant 0 <= i <= |directives| && TagParts(directives, tag) == TagParts(directives[i..], tag)
      {
        if directives[i].prefix <= tag {
          return directives[i].handle, tag[|directives[i].prefix|..];
        }
        i := i + 1;
      }
      handle, suffix := [], tag;
    }

    method AnalyzeNode(anchor: Bytes, tag: Bytes, implicit: bool, value: Bytes) returns (d: Data)
      requires ValidUtf8(value)
      ensures d == NodeData(config, directives, anchor, tag, implicit, value)
    {
      if anchor != [] {
        var ok := AnalyzeAnchor(anchor);
        if !ok {
          return BadData;
        }
      }
      var handle, suffix := [], [];
      if tag != [] && (config.canonical || !implicit) {
        handle, suffix := AnalyzeTag(tag);
      }
      var a := QuotedWriter.AnalyzeValue(config.unicode, value);
      d := Data(anchor, false, handle, suffix, value, a.multiline);
    }

    /** `yaml_emitter_analyze_event`. */
    method Analyze(e: Event)
      requires Readable(e)
      modifies this`data
      ensures data == AnalyzeEvent(config, directives, e)
    {
      match e
      case Alias(anchor) =>
        var ok := AnalyzeAnchor(anchor);
        data := if ok then Data(anchor, true, [], [], [], false) else BadData;
      case Scalar(anchor, tag, value, implicit, quotedImplicit, _) =>
        data := AnalyzeNode(anchor, tag, implicit || quotedImplicit, value);
      case SequenceStart(anchor, tag, implicit, _) => data := AnalyzeNode(anchor, tag, implicit, []);
      case MappingStart(anchor, tag, implicit, _) => data := AnalyzeNode(anchor, tag, implicit, []);
      case _ => data := Data([], false, [], [], [], false);
    }

    /** `yaml_emitter_process_anchor`. */
    method ProcessAnchor()
      requires data.Data?
      modifies this`writes
      ensures Now() == old(Now()).Write(AnchorWrites(data))
    {
      if data.anchor != [] {
        Put([Indicator(if data.alias then "*" else "&", true, false, false), AnchorText(data.anchor)]);
      } else {
        Put([]);
      }
    }

    /** `yaml_emitter_process_tag`. */
    method ProcessTag()
      requires data.Data?
      modifies this`writes
      ensures Now() == old(Now()).Write(TagWrites(data))
    {
      if data.handle == [] && data.suffix == [] {
        Put([]);
      } else if data.handle != [] {
        Put([TagHandle(data.handle)] + if data.suffix == [] then [] else [TagContent(data.suffix, false)]);
      } else {
        Put([Indicator("!<", true, false, false), TagContent(data.suffix, false), Indicator(">", false, false, false)]);
      }
    }

    method PutProperties()
      requires data.Data?
      modifies this`writes
      ensures Now() == old(Now()).Write(AnchorWrites(data) + TagWrites(data))
    {
      hide AnchorWrites, TagWrites;
      ProcessAnchor();
      ProcessTag();
      assert writes == old(writes) + (AnchorWrites(data) + TagWrites(data));
    }

    /** `yaml_emitter_emit_scalar`. */
    method EmitScalarNode(e: Event, simpleKey: bool)
      requires data.Data? && e.Scalar? && states != [] && !failed
      modifies this`data, this`writes, this`indents, this`indent, this`state, this`states, this`failed
      ensures Did(EmitScalar(config, line, old(Now()), e, old(data), simpleKey))
    {
      hide PutScalar;
      var noTag := data.handle == [] && data.suffix == [];
      if noTag && !e.implicit && !e.quotedImplicit {
        failed := true;
        return;
      }
      if noTag && !e.quotedImplicit && line.quoted {
        data := data.(handle := [0x21]);
      }
      PutScalarText(simpleKey);
      PopState();
    }

    method PutScalarText(simpleKey: bool)
      requires data.Data?
      modifies this`writes, this`indents, this`indent
      ensures Now() == PutScalar(config, old(Now()), data, simpleKey)
    {
      hide AnchorWrites, TagWrites;
      PutProperties();
      IncreaseIndent(true, false);
      Put([ScalarText(data.value, indent, simpleKey)]);
      DecreaseIndent();
    }

    /** `yaml_emitter_emit_sequence_start` and `yaml_emitter_emit_mapping_start`. */
    method EmitStartNode(flow: bool, empty: bool, first: State, flowFirst: State)
      requires data.Data? && !failed
      modifies this`writes, this`state
      ensures Did(EmitStart(config, old(Now()), data, flow || empty, first, flowFirst))
    {
      hide AnchorWrites, TagWrites;
      PutProperties();
      state := if flowLevel > 0 || config.canonical || flow || empty then flowFirst else first;
    }

    /** The queue is as it was. */
    ghost predicate Kept(wasHead: nat, was: seq<Event>)
      reads this`events, this`head
    {
      head == wasHead && events == was
    }

    /** `yaml_emitter_emit_node`. */
    method Node(inMapping: bool, simpleKey: bool)
      requires head < |events| && data.Data? && states != [] && !failed
      modifies this
      ensures Did(EmitNode(config, old(line), old(Now()), old(Queue()), old(data), inMapping, simpleKey))
      ensures Kept(old(head), old(events))
    {
      hide EmitScalar, EmitStart, AnchorWrites;
      mapping := inMapping;
      var e := events[head];
      match e
      case Alias(_) =>
        ProcessAnchor();
        PopState();
      case Scalar(_, _, _, _, _, _) => EmitScalarNode(e, simpleKey);
      case SequenceStart(_, _, _, flow) =>
        var empty := CheckEmptySequence();
        EmitStartNode(flow, empty, AtBlockSequenceFirstItem, AtFlowSequenceFirstItem);
      case MappingStart(_, _, _, flow) =>
        var empty := CheckEmptyMapping();
        EmitStartNode(flow, empty, AtBlockMappingFirstKey, AtFlowMappingFirstKey);
      case _ => failed := true;
    }

    /** `yaml_emitter_emit_stream_start`. */
    method StreamStart()
      requires head < |events| && !failed
      modifies this`indent, this`state, this`failed
      ensures Did(EmitStreamStart(old(Now()), events[head]))
    {
      if !events[head].StreamStart? {
        failed := true;
        return;
      }
      indent := -1;
      state := AtFirstDocumentStart;
    }

    method PutDirectives(tags: seq<TagDirective>)
      modifies this`writes
      ensures Now() == old(Now()).Write(DirectiveWrites(tags, indent))
    {
      var i := 0;
      while i < |tags|
        invariant 0 <= i <= |tags|
        invariant writes + DirectiveWrites(tags[i..], indent) == old(writes) + DirectiveWrites(tags, indent)
      {
        assert tags[i..][1..] == tags[i + 1..];
        Put([Indicator("%TAG", true, false, false), TagHandle(tags[i].handle), TagContent(tags[i].prefix, true),
             Indent(indent)]);
        i := i + 1;
      }
      assert tags[i..] == [];
    }

    /** The end of an open-ended document, and the directives. */
    method PutHead(version: bool, tags: seq<TagDirective>)
      modifies this`writes
      ensures Now() == old(Now()).Write(HeadWrites(line, indent, version, tags))
    {
      hide DirectiveWrites;
      if line.openEnded && (version || |tags| > 0) {
        Put([DOTS, Indent(indent)]);
      }
      ghost var ended := if line.openEnded && (version || tags != []) then [DOTS, Indent(indent)] else [];
      assert writes == old(writes) + ended;
      if version {
        Put([Indicator("%YAML", true, false, false), Indicator("1.1", true, false, false), Indent(indent)]);
      }
      ghost var versions := if version then [Indicator("%YAML", true, false, false),
                                             Indicator("1.1", true, false, false), Indent(indent)] else [];
      assert writes == old(writes) + (ended + versions);
      PutDirectives(tags);
      assert writes == old(writes) + (ended + versions + DirectiveWrites(tags, indent));
    }

    method PutMarker(bare: bool)
      modifies this`writes
      ensures Now() == old(Now()).Write(MarkerWrites(config, indent, bare))
    {
      if !bare {
        Put([Indent(indent), Indicator("---", true, false, false)]);
        if config.canonical {
          Put([Indent(indent)]);
        }
      }
    }

    method PutDocumentStart(first: bool, version: bool, tags: seq<TagDirective>, isImplicit: bool)
      modifies this`writes
      ensures Now() == old(Now()).Write(DocumentWrites(config, line, indent, first, version, tags, isImplicit))
    {
      hide HeadWrites, MarkerWrites;
      var implicit := isImplicit && first && !config.canonical;
      PutHead(version, tags);
      if version || |tags| > 0 {
        implicit := false;
      }
      PutMarker(implicit);
      assert writes == old(writes) + DocumentWrites(config, line, indent, first, version, tags, isImplicit);
    }

    /** `yaml_emitter_emit_document_start`. */
    method DocumentStart(first: bool)
      requires head < |events| && !failed
      modifies this`directives, this`writes, this`state, this`failed
      ensures Did(EmitDocumentStart(config, line, old(Now()), events[head], first))
    {
      match events[head]
      case DocumentStart(version, tags, isImplicit) =>
        hide DocumentWrites, Declared, TagFits;
        var ok := DeclareDirectives(tags);
        if !ok {
          failed := true;
          return;
        }
        var _ := AppendDirective(ParserSteps.DEFAULT_DIRECTIVES[0], true);
        var _ := AppendDirective(ParserSteps.DEFAULT_DIRECTIVES[1], true);
        PutDocumentStart(first, version, tags, isImplicit);
        state := AtDocumentContent;
      case StreamEnd =>
        if line.openEnded {
          Put([DOTS, Indent(indent)]);
        }
        Put([Flush]);
        assert writes == old(writes) + ((if line.openEnded then [DOTS, Indent(indent)] else []) + [Flush]);
        state := AtEnd;
      case _ => failed := true;
    }

    /** `yaml_emitter_emit_document_content`. */
    method DocumentContent()
      requires head < |events| && data.Data? && !failed
      modifies this
      ensures Did(EmitDocumentContent(config, old(line), old(Now()), old(Queue()), old(data)))
      ensures Kept(old(head), old(events))
    {
      PushState(AtDocumentEnd);
      Node(false, false);
    }

    /** `yaml_emitter_emit_document_end`. */
    method DocumentEnd()
      requires head < |events| && !failed
      modifies this`directives, this`writes, this`state, this`failed
      ensures Did(EmitDocumentEnd(old(Now()), events[head]))
    {
      match events[head]
      case DocumentEnd(implicit) =>
        Put([Indent(indent)]);
        if !implicit {
          Put([DOTS, Indent(indent)]);
        }
        Put([Flush]);
        assert writes == old(writes) + ([Indent(indent)] + (if implicit then [] else [DOTS, Indent(indent)]) + [Flush]);
        state := AtDocumentStart;
        directives := [];
      case _ => failed := true;
    }

    /** A flow collection's bracket. */
    method OpenBracket(bracket: string)
      modifies this`writes, this`indents, this`indent, this`flowLevel
      ensures Now() == OpenFlow(config, old(Now()), bracket)
    {
      Put([Indicator(bracket, true, true, false)]);
      IncreaseIndent(true, false);
      flowLevel := flowLevel + 1;
    }

    method CloseBracket(bracket: string, first: bool)
      requires flowLevel > 0 && indents != [] && states != [] && !failed
      modifies this`writes, this`indents, this`indent, this`flowLevel, this`state, this`states
      ensures Did(CloseFlow(config, old(Now()), bracket, first))
    {
      flowLevel := flowLevel - 1;
      DecreaseIndent();
      if config.canonical && !first {
        Put([Indicator(",", false, false, false), Indent(indent)]);
      }
      Put([Indicator(bracket, false, false, false)]);
      PopState();
    }

    method PutComma(first: bool)
      modifies this`writes
      ensures Now() == NextFlow(config, line, old(Now()), first)
    {
      if !first {
        Put([Indicator(",", false, false, false)]);
      }
      if config.canonical || line.wide {
        Put([Indent(indent)]);
      }
    }

    /** `yaml_emitter_emit_flow_sequence_item`. */
    method FlowSequenceItem(first: bool)
      requires head < |events| && data.Data? && !failed && states != [] && (!first ==> flowLevel > 0 && indents != [])
      modifies this
      ensures Did(EmitFlowSequenceItem(config, old(line), old(Now()), old(Queue()), old(data), first))
      ensures Kept(old(head), old(events))
    {
      hide EmitNode, NextFlow, CloseFlow;
      if first {
        OpenBracket("[");
      }
      if events[head].SequenceEnd? {
        CloseBracket("]", first);
        return;
      }
      PutComma(first);
      PushState(AtFlowSequenceItem);
      Node(false, false);
    }

    /** `yaml_emitter_emit_flow_mapping_key`. */
    method FlowMappingKey(first: bool)
      requires head < |events| && data.Data? && !failed && states != [] && (!first ==> flowLevel > 0 && indents != [])
      modifies this
      ensures Did(EmitFlowMappingKey(config, old(line), old(Now()), old(Queue()), old(data), first))
      ensures Kept(old(head), old(events))
    {
      hide EmitNode, SimpleKey, NextFlow, CloseFlow;
      if first {
        OpenBracket("{");
      }
      if events[head].MappingEnd? {
        CloseBracket("}", first);
        return;
      }
      PutComma(first);
      var simple := CheckSimpleKey();
      if !config.canonical && simple {
        PushState(AtFlowMappingSimpleValue);
        Node(true, true);
        return;
      }
      Put([Indicator("?", true, false, false)]);
      PushState(AtFlowMappingValue);
      Node(true, false);
    }

    /** `yaml_emitter_emit_flow_mapping_value`. */
    method FlowMappingValue(simple: bool)
      requires head < |events| && data.Data? && !failed
      modifies this
      ensures Did(EmitFlowMappingValue(config, old(line), old(Now()), old(Queue()), old(data), simple))
      ensures Kept(old(head), old(events))
    {
      hide EmitNode;
      if simple {
        Put([Indicator(":", false, false, false)]);
      } else {
        if config.canonical || line.wide {
          Put([Indent(indent)]);
        }
        Put([Indicator(":", true, false, false)]);
      }
      PushState(AtFlowMappingKey);
      Node(true, false);
    }

    /** `yaml_emitter_emit_block_sequence_item`. */
    method BlockSequenceItem(first: bool)
      requires head < |events| && data.Data? && !failed && states != [] && (!first ==> indents != [])
      modifies this
      ensures Did(EmitBlockSequenceItem(config, old(line), old(Now()), old(Queue()), old(data), first))
      ensures Kept(old(head), old(events))
    {
      hide EmitNode;
      if first {
        IncreaseIndent(false, mapping && !line.indention);
      }
      if events[head].SequenceEnd? {
        DecreaseIndent();
        PopState();
        return;
      }
      Put([Indent(indent)]);
      Put([Indicator("-", true, false, true)]);
      PushState(AtBlockSequenceItem);
      Node(false, false);
    }

    /** `yaml_emitter_emit_block_mapping_key`. */
    method BlockMappingKey(first: bool)
      requires head < |events| && data.Data? && !failed && states != [] && (!first ==> indents != [])
      modifies this
      ensures Did(EmitBlockMappingKey(config, old(line), old(Now()), old(Queue()), old(data), first))
      ensures Kept(old(head), old(events))
    {
      hide EmitNode, SimpleKey;
      if first {
        IncreaseIndent(false, false);
      }
      if events[head].MappingEnd? {
        DecreaseIndent();
        PopState();
        return;
      }
      Put([Indent(indent)]);
      var simple := CheckSimpleKey();
      if simple {
        PushState(AtBlockMappingSimpleValue);
        Node(true, true);
        return;
      }
      Put([Indicator("?", true, false, true)]);
      PushState(AtBlockMappingValue);
      Node(true, false);
    }

    /** `yaml_emitter_emit_block_mapping_value`. */
    method BlockMappingValue(simple: bool)
      requires head < |events| && data.Data? && !failed
      modifies this
      ensures Did(EmitBlockMappingValue(config, old(line), old(Now()), old(Queue()), old(data), simple))
      ensures Kept(old(head), old(events))
    {
      hide EmitNode;
      if simple {
        Put([Indicator(":", false, false, false)]);
      } else {
        Put([Indent(indent)]);
        Put([Indicator(":", true, false, true)]);
      }
      PushState(AtBlockMappingKey);
      Node(true, false);
    }

    /** `yaml_emitter_analyze_event` and `yaml_emitter_state_machine`; its panic cannot happen. */
    method StateMachine()
      requires head < |events| && !failed && Valid(Now()) && Readable(events[head])
      modifies this
      ensures Did(Step(config, old(line), old(Now()), old(Queue())))
      ensures Kept(old(head), old(events))
    {
      Analyze(events[head]);
      if data.BadData? {
        failed := true;
        return;
      }
      Dispatch();
    }

    method Dispatch()
      requires head < |events| && !failed && Valid(Now()) && Readable(events[head])
      requires data.Data? && data == AnalyzeEvent(config, directives, events[head])
      modifies this
      ensures Did(Step(config, old(line), old(Now()), old(Queue())))
      ensures Kept(old(head), old(events))
    {
      StacksHold(Now());
      assert Queue()[0] == events[head];
      hide *;
      match state
      case AtStreamStart => StreamStart();
      case AtFirstDocumentStart => DocumentStart(true);
      case AtDocumentStart => DocumentStart(false);
      case AtDocumentContent => DocumentContent();
      case AtDocumentEnd => DocumentEnd();
      case AtFlowSequenceFirstItem => FlowSequenceItem(true);
      case AtFlowSequenceItem => FlowSequenceItem(false);
      case AtFlowMappingFirstKey => FlowMappingKey(true);
      case AtFlowMappingKey => FlowMappingKey(false);
      case AtFlowMappingSimpleValue => FlowMappingValue(true);
      case AtFlowMappingValue => FlowMappingValue(false);
      case AtBlockSequenceFirstItem => BlockSequenceItem(true);
      case AtBlockSequenceItem => BlockSequenceItem(false);
      case AtBlockMappingFirstKey => BlockMappingKey(true);
      case AtBlockMappingKey => BlockMappingKey(false);
      case AtBlockMappingSimpleValue => BlockMappingValue(true);
      case AtBlockMappingValue => BlockMappingValue(false);
      case AtEnd => failed := true;
    }

    /** What is left of the emitter between calls. */
    ghost function Pack(): Emitter
      requires head <= |events|
      reads this
    {
      if failed then Broken else Emitter(Now(), Queue(), head)
    }

    /** One turn of the loop of `yaml_emitter_emit`; before it the line is what the writers have left of it. */
    method EmitHead(lines: Lines)
      requires !failed && head <= |events| && Valid(Now()) && AllReadable(Queue()) && !NeedMore(Queue())
      modifies this
      ensures events == old(events) && old(head) < |events| && head == old(head) + if failed then 0 else 1
      ensures var whole := Drain(config, lines, old(Now()), old(Queue()), old(head));
              if failed then whole == Broken
              else Valid(Now()) && AllReadable(Queue()) && whole == Drain(config, lines, Now(), Queue(), head)
    {
      line := lines(head);
      DrainOnce(config, lines, Now(), Queue(), head);
      hide Drain, Step, Valid;
      StateMachine();
      if !failed {
        assert events[head..][1..] == events[head + 1..];
        head := head + 1;
      }
    }

    /** `yaml_emitter_emit`. */
    method Feed(event: Event, lines: Lines)
      requires !failed && head <= |events| && Valid(Now()) && AllReadable(Queue()) && Readable(event)
      modifies this
      ensures head <= |events| && Pack() == EmitEvent(config, lines, old(Pack()), event)
      ensures events == old(events) + [event]
      ensures !failed ==> Valid(Now()) && AllReadable(Queue())
    {
      events := events + [event];
      assert Queue() == old(Queue()) + [event];
      ghost var whole := EmitEvent(config, lines, old(Pack()), event);
      assert whole == Drain(config, lines, Now(), Queue(), head);
      hide Drain, NeedMore, Step, Valid, EmitEvent;
      var more := NeedMoreEvents();
      while !more
        invariant head <= |events| && !failed && Valid(Now()) && AllReadable(Queue())
        invariant events == old(events) + [event]
        invariant more == NeedMore(Queue())
        invariant whole == Drain(config, lines, Now(), Queue(), head)
        decreases |events| - head
      {
        EmitHead(lines);
        if failed {
          return;
        }
        more := NeedMoreEvents();
      }
      DrainEnds(config, lines, Now(), Queue(), head);
    }
  }

  lemma DrainEnds(c: Config, lines: Lines, s: Emit, queue: seq<Event>, done: nat)
    requires Valid(s) && AllReadable(queue) && NeedMore(queue)
    ensures Drain(c, lines, s, queue, done) == Emitter(s, queue, done)
  {
  }

  lemma DrainOnce(c: Config, lines: Lines, s: Emit, queue: seq<Event>, done: nat)
    requires Valid(s) && AllReadable(queue) && !NeedMore(queue)
    ensures queue != [] && Readable(queue[0]) && AllReadable(queue[1..])
    ensures match Step(c, lines(done), s, queue)
            case Failed => Drain(c, lines, s, queue, done) == Broken
            case Made(t) => Valid(t) && Drain(c, lines, s, queue, done) == Drain(c, lines, t, queue[1..], done + 1)
  {
    StepExact(c, lines(done), s, queue);
  }

  /** Emits a whole stream. */
  method EmitStream(config: Config, lines: Lines, es: seq<Event>) returns (e: EventEmitter, ok: bool)
    requires AllReadable(es)
    ensures ok == !e.failed && e.head <= |e.events|
    ensures ok <==> EmitAll(config, lines, es).Emitter?
    ensures ok ==> EmitAll(config, lines, es) == e.Pack()
    ensures Complete(es) && AllFit(es) ==> ok && Finished(e.Pack(), |es|)
  {
    EmitterTakesWholeStreams(config, lines, es);
    e := new EventEmitter(config);
    Outer(START);
    ok := true;
    var i := 0;
    EmitNone(config, lines, es);
    hide EmitAll, EmitEvent, Valid, Complete, AllFit, Finished, AllReadable;
    while i < |es| && ok
      invariant 0 <= i <= |es| && e.config == config && e.head <= |e.events| && fresh(e)
      invariant ok == !e.failed && AllReadable(es[..i])
      invariant e.Pack() == EmitAll(config, lines, es[..i])
      invariant !ok ==> EmitAll(config, lines, es).Broken?
      invariant ok ==> Valid(e.Now()) && AllReadable(e.Queue())
    {
      EmitMore(config, lines, es, i);
      e.Feed(es[i], lines);
      ok := !e.failed;
      i := i + 1;
      if !ok {
        StaysBroken(config, lines, es, i);
      }
    }
    if ok {
      assert es[..i] == es;
    }
  }

  lemma EmitNone(c: Config, lines: Lines, es: seq<Event>)
    ensures AllReadable(es[..0]) && EmitAll(c, lines, es[..0]) == Emitter(START, [], 0)
    ensures AllReadable([])
  {
  }

  lemma EmitMore(c: Config, lines: Lines, es: seq<Event>, i: nat)
    requires AllReadable(es) && i < |es|
    ensures AllReadable(es[..i]) && AllReadable(es[..i + 1]) && Readable(es[i])
    ensures EmitAll(c, lines, es[..i + 1]) == EmitEvent(c, lines, EmitAll(c, lines, es[..i]), es[i])
  {
    assert es[..i + 1][..i] == es[..i];
  }

  lemma StaysBroken(c: Config, lines: Lines, es: seq<Event>, i: nat)
    requires AllReadable(es) && i <= |es| && AllReadable(es[..i]) && EmitAll(c, lines, es[..i]).Broken?
    ensures EmitAll(c, lines, es).Broken?
    decreases |es| - i
  {
    if i == |es| {
      assert es[..i] == es;
    } else {
      EmitMore(c, lines, es, i);
      StaysBroken(c, lines, es, i + 1);
    }
  }

  /** The stacks are not empty where they are popped. */
  lemma StacksHold(s: Emit)
    requires Valid(s)
    ensures First(s.state) ==> s.states != []
    ensures Entered(s.state) ==> s.states != [] && s.indents != [] && (InFlow(s.state) ==> s.flowLevel > 0)
  {
    if Entered(s.state) {
      EnteredInside(s);
    } else if First(s.state) {
      FirstReady(s);
    }
  }
}