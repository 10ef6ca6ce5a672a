/** The parser as parserc.go has it: an object whose state, stacks and token position each call changes. */
module YamlParser {
  import opened YamlChars
  import opened YamlEvents
  import opened ParserSteps
  import opened ParserSoundness
  import opened ParserRuns

  class Parser {
    const tokens: seq<Token>
    var head: nat
    var state: State
    var states: seq<State>
    var marks: seq<nat>
    var directives: seq<TagDirective>
    var streamEnd: bool
    var failed: bool

    constructor (tokens: seq<Token>)
      ensures Now() == Start(tokens) && !failed
    {
      this.tokens := tokens;
      head, state, states, marks, directives, streamEnd := 0, AtStreamStart, [], [], [], false;
      failed := false;
    }

    ghost function Now(): Parse
      reads this
    {
      Parse(tokens, head, state, states, marks, directives, streamEnd)
    }

    /** The event, or the error, that the production makes. */
    ghost predicate Did(e: Option<Event>, o: Outcome)
      reads this
    {
      match o
      case Failed => failed && e.None?
      case Made(event, next) => !failed && e == Some(event) && Now() == next
    }

    /** `yaml_parser_set_parser_error`; the scanner's error where there is no token. */
    method Fail() returns (e: Option<Event>)
      modifies this`failed
      ensures failed && e.None?
    {
      failed := true;
      e := None;
    }

    /** `peek_token`. */
    method Peek() returns (t: Option<Token>)
      ensures t == if Now().More() then Some(Now().Peek()) else None
    {
      t := if head < |tokens| then Some(tokens[head]) else None;
    }

    method Skip()
      requires Now().More()
      modifies this`head, this`streamEnd
      ensures Now() == old(Now()).Skip()
    {
      streamEnd := tokens[head] == StreamEndToken;
      head := head + 1;
    }

    method PushState(s: State)
      modifies this`states
      ensures Now() == old(Now()).Push(s)
    {
      states := states + [s];
    }

    method PopState()
      requires states != []
      modifies this`state, this`states
      ensures Now() == old(Now()).Return()
    {
      state := states[|states| - 1];
      states := states[..|states| - 1];
    }

    method PushMark()
      modifies this`marks
      ensures Now() == old(Now()).Mark()
    {
      marks := marks + [head];
    }

    method PopMark()
      requires marks != []
      modifies this`marks
      ensures Now() == old(Now()).Unmark()
    {
      marks := marks[..|marks| - 1];
    }

    /** The first token of a collection is skipped, and marked. */
    method SkipStart(first: bool)
      requires first ==> Now().More()
      modifies this`marks, this`head, this`streamEnd
      ensures Now() == if first then old(Now()).Mark().Skip() else old(Now())
    {
      if first {
        PushMark();
        Skip();
      }
    }

    /** `yaml_parser_append_tag_directive`. */
    method AppendDirective(d: TagDirective, allowDuplicates: bool) returns (ok: bool)
      modifies this`directives
      ensures ok <==> allowDuplicates || PrefixOf(old(directives), d.handle).None?
      ensures directives == WithDefault(old(directives), d)
    {
      var i := 0;
      while i < |directives|
        invariant 0 <= i <= |directives| && directives == old(directives)
        invariant PrefixOf(directives, d.handle) == PrefixOf(directives[i..], d.handle)
      {
        if directives[i].handle == d.handle {
          return allowDuplicates;
        }
        i := i + 1;
      }
      directives := directives + [d];
      ok := true;
    }

    /** `yaml_parser_process_directives`. */
    method Directives() returns (ok: bool, version: bool, declared: seq<TagDirective>)
      modifies this`head, this`streamEnd, this`directives
      ensures var r := ProcessDirectives(old(Now()), false, []);
              if ok then r == ParserSteps.Directives(Now(), version, declared) else r.BadDirectives?
    {
      version, declared, ok := false, [], false;
      var t := Peek();
      while t.Some? && IsDirective(t.value)
        invariant head <= |tokens| || t.None?
        invariant t == if Now().More() then Some(Now().Peek()) else None
        invariant ProcessDirectives(old(Now()), false, []) == ProcessDirectives(Now(), version, declared)
        decreases |tokens| - head
      {
        match t.value {
          case VersionDirectiveToken(major, minor) =>
            if version || major != 1 || minor != 1 {
              return;
            }
            version := true;
          case TagDirectiveToken(d) =>
            var fine := AppendDirective(d, false);
            if !fine {
              return;
            }
            declared := declared + [d];
        }
        Skip();
        t := Peek();
      }
      if t.Some? {
        var _ := AppendDirective(DEFAULT_DIRECTIVES[0], true);
        var _ := AppendDirective(DEFAULT_DIRECTIVES[1], true);
        ok := true;
      }
    }

    /** `yaml_parser_parse_stream_start`. */
    method StreamStart() returns (e: Option<Event>)
      requires !failed
      modifies this
      ensures Did(e, ParseStreamStart(old(Now())))
    {
      var t := Peek();
      if t != Some(StreamStartToken) {
        e := Fail();
        return;
      }
      state := AtImplicitDocumentStart;
      e := Some(Event.StreamStart);
      Skip();
    }

    method SkipEnds()
      modifies this`head, this`streamEnd
      ensures Now() == SkipDocumentEnds(old(Now()))
    {
      var t := Peek();
      while t == Some(DocumentEndToken)
        invariant t == if Now().More() then Some(Now().Peek()) else None
        invariant SkipDocumentEnds(old(Now())) == SkipDocumentEnds(Now())
        decreases |tokens| - head
      {
        Skip();
        t := Peek();
      }
    }

    /** `yaml_parser_parse_document_start`. */
    method DocumentStart(implicit: bool) returns (e: Option<Event>)
      requires !failed
      modifies this
      ensures Did(e, ParseDocumentStart(old(Now()), implicit))
    {
      if !implicit {
        SkipEnds();
      }
      var t := Peek();
      if t.None? {
        e := Fail();
      } else if t.value != StreamEndToken {
        e := Document(implicit);
      } else {
        state := AtEnd;
        e := Some(StreamEnd);
        Skip();
      }
    }

    method Document(implicit: bool) returns (e: Option<Event>)
      requires !failed && Now().More()
      modifies this
      ensures Did(e, ParseDocument(old(Now()), implicit))
    {
      var t := Peek();
      var ok, version, declared := Directives();
      if !ok {
        e := Fail();
      } else if implicit && !IsDirective(t.value) && t.value != DocumentStartToken {
        PushState(AtDocumentEnd);
        state := AtBlockNode;
        e := Some(Event.DocumentStart(false, [], false));
      } else {
        t := Peek();
        if t.value != DocumentStartToken {
          e := Fail();
          return;
        }
        PushState(AtDocumentEnd);
        state := AtDocumentContent;
        e := Some(Event.DocumentStart(version, declared, false));
        Skip();
      }
    }

    /** `yaml_parser_parse_document_content`. */
    method DocumentContent() returns (e: Option<Event>)
      requires !failed && states != []
      modifies this
      ensures Did(e, ParseDocumentContent(old(Now())))
    {
      var t := Peek();
      if t.None? {
        e := Fail();
      } else if EndsDocument(t.value) {
        PopState();
        e := Some(EMPTY_SCALAR);
      } else {
        e := Node(true, false);
      }
    }

    /** `yaml_parser_parse_document_end`. */
    method DocumentEnd() returns (e: Option<Event>)
      requires !failed
      modifies this
      ensures Did(e, ParseDocumentEnd(old(Now())))
    {
      var t := Peek();
      if t.None? {
        e := Fail();
        return;
      }
      var implicit := true;
      if t.value == DocumentEndToken {
        Skip();
        implicit := false;
      }
      directives := [];
      state := AtDocumentStart;
      e := Some(Event.DocumentEnd(implicit));
    }

    /** A node's anchor and tag. */
    method NodeProperties() returns (ok: bool, anchor: Bytes, tag: Option<(Bytes, Bytes)>)
      requires Now().More()
      modifies this`head, this`streamEnd
      ensures var r := ParseProperties(old(Now()));
              if ok then r == Properties(Now(), anchor, tag) else r.BadProperties?
    {
      anchor, tag, ok := [], None, true;
      var t := Peek();
      if t.value.AnchorToken? {
        anchor := t.value.value;
        Skip();
        t := Peek();
        if t.Some? && t.value.TagToken? {
          tag := Some((t.value.handle, t.value.suffix));
          Skip();
          t := Peek();
        }
      } else if t.value.TagToken? {
        tag := Some((t.value.handle, t.value.suffix));
        Skip();
        t := Peek();
        if t.Some? && t.value.AnchorToken? {
          anchor := t.value.value;
          Skip();
          t := Peek();
        }
      }
      ok := t.Some?;
    }

    /** The tag in full; the first directive with its handle counts. */
    method ResolveTag(handle: Bytes, suffix: Bytes) returns (tag: Option<Bytes>)
      ensures tag == ResolvedTag(directives, handle, suffix)
    {
      if handle == [] {
        return Some(suffix);
      }
      var i := 0;
      while i < |directives|
        invariant 0 <= i <= |directives|
        invariant PrefixOf(directives, handle) == PrefixOf(directives[i..], handle)
      {
        if directives[i].handle == handle {
          var full := directives[i].prefix + suffix;
          return if full == [] then None else Some(full);
        }
        i := i + 1;
      }
      tag := None;
    }

    method ScalarContent(anchor: Bytes, tag: Bytes, value: Bytes, plain: bool) returns (e: Option<Event>)
      requires !failed && Now().More() && states != []
      modifies this
      ensures Did(e, Made(ScalarEvent(anchor, tag, value, plain), old(Now()).Return().Skip()))
    {
      var plainImplicit, quotedImplicit := false, false;
      if (tag == [] && plain) || tag == EXCLAMATION {
        plainImplicit := true;
      } else if tag == [] {
        quotedImplicit := true;
      }
      PopState();
      e := Some(Scalar(anchor, tag, value, plainImplicit, quotedImplicit, plain));
      Skip();
    }

    /** `yaml_parser_parse_node`. */
    method Node(block: bool, indentless: bool) returns (e: Option<Event>)
      requires !failed && states != []
      modifies this
      ensures Did(e, ParseNode(old(Now()), block, indentless))
    {
      var t := Peek();
      if t.None? {
        e := Fail();
        return;
      }
      if t.value.AliasToken? {
        PopState();
        e := Some(Alias(t.value.value));
        Skip();
        return;
      }
      var ok, anchor, properties := NodeProperties();
      if !ok {
        e := Fail();
        return;
      }
      var tag := Some([]);
      if properties.Some? {
        tag := ResolveTag(properties.value.0, properties.value.1);
      }
      if tag.None? {
        e := Fail();
        return;
      }
      e := Content(anchor, tag.value, block, indentless);
    }

    method Content(anchor: Bytes, tag: Bytes, block: bool, indentless: bool) returns (e: Option<Event>)
      requires !failed && Now().More() && states != []
      modifies this
      ensures Did(e, ParseContent(old(Now()), anchor, tag, block, indentless))
    {
      hide ScalarEvent;
      var implicit := tag == [];
      var t := Peek();
      if indentless && t.value == BlockEntryToken {
        state := AtIndentlessSequenceEntry;
        return Some(SequenceStart(anchor, tag, implicit, false));
      }
      if t.value.ScalarToken? {
        e := ScalarContent(anchor, tag, t.value.value, t.value.plain);
        return;
      }
      if t.value == FlowSequenceStartToken {
        state := AtFlowSequenceFirstEntry;
        return Some(SequenceStart(anchor, tag, implicit, true));
      }
      if t.value == FlowMappingStartToken {
        state := AtFlowMappingFirstKey;
        return Some(MappingStart(anchor, tag, implicit, true));
      }
      if block && t.value == BlockSequenceStartToken {
        state := AtBlockSequenceFirstEntry;
        return Some(SequenceStart(anchor, tag, implicit, false));
      }
      if block && t.value == BlockMappingStartToken {
        state := AtBlockMappingFirstKey;
        return Some(MappingStart(anchor, tag, implicit, false));
      }
      if anchor != [] || tag != [] {
        PopState();
        return Some(Scalar(anchor, tag, [], implicit, false, true));
      }
      e := Fail();
    }

    /** A node to return from to `after`, or an empty one where it is omitted. */
    method NodeUnless(omitted: bool, after: State, block: bool, indentless: bool) returns (e: Option<Event>)
      requires !failed
      modifies this
      ensures Did(e, if omitted then Made(EMPTY_SCALAR, old(Now()).(state := after))
                     else ParseNode(old(Now()).Push(after), block, indentless))
    {
      if omitted {
        state := after;
        return Some(EMPTY_SCALAR);
      }
      PushState(after);
      e := Node(block, indentless);
    }

    /** The last token of a collection. */
    method EndCollection(end: Event) returns (e: Option<Event>)
      requires !failed && states != [] && marks != [] && Now().More()
      modifies this
      ensures Did(e, Made(end, old(Now()).Return().Unmark().Skip()))
    {
      PopState();
      PopMark();
      e := Some(end);
      Skip();
    }

    /** `yaml_parser_parse_block_sequence_entry`. */
    method BlockSequenceEntry(first: bool) returns (e: Option<Event>)
      requires !failed && states != [] && if first then Now().More() else marks != []
      modifies this
      ensures Did(e, ParseBlockSequenceEntry(old(Now()), first))
    {
      hide ParseNode;
      SkipStart(first);
      var t := Peek();
      if t == Some(BlockEntryToken) {
        Skip();
        t := Peek();
        if t.None? {
          e := Fail();
        } else {
          e := NodeUnless(t.value == BlockEntryToken || t.value == BlockEndToken, AtBlockSequenceEntry, true, false);
        }
      } else if t == Some(BlockEndToken) {
        e := EndCollection(SequenceEnd);
      } else {
        e := Fail();
      }
    }

    /** `yaml_parser_parse_indentless_sequence_entry`. */
    method IndentlessSequenceEntry() returns (e: Option<Event>)
      requires !failed && states != []
      modifies this
      ensures Did(e, ParseIndentlessSequenceEntry(old(Now())))
    {
      hide ParseNode;
      var t := Peek();
      if t.None? {
        e := Fail();
        return;
      }
      if t.value == BlockEntryToken {
        Skip();
        t := Peek();
        if t.None? {
          e := Fail();
          return;
        }
        e := NodeUnless(EndsIndentlessEntry(t.value), AtIndentlessSequenceEntry, true, false);
        return;
      }
      PopState();
      e := Some(SequenceEnd);
    }

    /** `yaml_parser_parse_block_mapping_key`. */
    method BlockMappingKey(first: bool) returns (e: Option<Event>)
      requires !failed && states != [] && if first then Now().More() else marks != []
      modifies this
      ensures Did(e, ParseBlockMappingKey(old(Now()), first))
    {
      hide ParseNode;
      SkipStart(first);
      var t := Peek();
      if t == Some(KeyToken) {
        Skip();
        t := Peek();
        if t.None? {
          e := Fail();
        } else {
          e := NodeUnless(EndsBlockEntry(t.value), AtBlockMappingValue, true, true);
        }
      } else if t == Some(BlockEndToken) {
        e := EndCollection(MappingEnd);
      } else {
        e := Fail();
      }
    }

    /** `yaml_parser_parse_block_mapping_value`. */
    method BlockMappingValue() returns (e: Option<Event>)
      requires !failed
      modifies this
      ensures Did(e, ParseBlockMappingValue(old(Now())))
    {
      hide ParseNode;
      var t := Peek();
      if t.None? {
        e := Fail();
        return;
      }
      if t.value == ValueToken {
        Skip();
        t := Peek();
        if t.None? {
          e := Fail();
          return;
        }
        e := NodeUnless(EndsBlockEntry(t.value), AtBlockMappingKey, true, true);
        return;
      }
      state := AtBlockMappingKey;
      e := Some(EMPTY_SCALAR);
    }

    /** `yaml_parser_parse_flow_sequence_entry`. */
    method FlowSequenceEntry(first: bool) returns (e: Option<Event>)
      requires !failed && states != [] && if first then Now().More() else marks != []
      modifies this
      ensures Did(e, ParseFlowSequenceEntry(old(Now()), first))
    {
      hide ParseNode;
      SkipStart(first);
      var t := Peek();
      if t.None? {
        e := Fail();
        return;
      }
      if t.value != FlowSequenceEndToken {
        if !first {
          if t.value != FlowEntryToken {
            e := Fail();
            return;
          }
          Skip();
          t := Peek();
          if t.None? {
            e := Fail();
            return;
          }
        }
        if t.value == KeyToken {
          state := AtFlowSequenceEntryMappingKey;
          e := Some(MappingStart([], [], true, true));
          Skip();
          return;
        } else if t.value != FlowSequenceEndToken {
          PushState(AtFlowSequenceEntry);
          e := Node(false, false);
          return;
        }
      }
      e := EndCollection(SequenceEnd);
    }

    /** `yaml_parser_parse_flow_sequence_entry_mapping_key`. */
    method FlowSequenceEntryMappingKey() returns (e: Option<Event>)
      requires !failed
      modifies this
      ensures Did(e, ParseFlowSequenceEntryMappingKey(old(Now())))
    {
      hide ParseNode;
      var t := Peek();
      if t.None? {
        e := Fail();
        return;
      }
      if !EndsPairKey(t.value) {
        PushState(AtFlowSequenceEntryMappingValue);
        e := Node(false, false);
        return;
      }
      Skip();
      state := AtFlowSequenceEntryMappingValue;
      e := Some(EMPTY_SCALAR);
    }

    /** `yaml_parser_parse_flow_sequence_entry_mapping_value`. */
    method FlowSequenceEntryMappingValue() returns (e: Option<Event>)
      requires !failed
      modifies this
      ensures Did(e, ParseFlowSequenceEntryMappingValue(old(Now())))
    {
      hide ParseNode;
      var t := Peek();
      if t.None? {
        e := Fail();
        return;
      }
      if t.value == ValueToken {
        Skip();
        t := Peek();
        if t.None? {
          e := Fail();
          return;
        }
        e := NodeUnless(EndsPair(t.value), AtFlowSequenceEntryMappingEnd, false, false);
        return;
      }
      state := AtFlowSequenceEntryMappingEnd;
      e := Some(EMPTY_SCALAR);
    }

    /** `yaml_parser_parse_flow_sequence_entry_mapping_end`. */
    method FlowSequenceEntryMappingEnd() returns (e: Option<Event>)
      requires !failed
      modifies this
      ensures Did(e, ParseFlowSequenceEntryMappingEnd(old(Now())))
    {
      var t := Peek();
      if t.None? {
        e := Fail();
        return;
      }
      state := AtFlowSequenceEntry;
      e := Some(MappingEnd);
    }

    /** `yaml_parser_parse_flow_mapping_key`. */
    method FlowMappingKey(first: bool) returns (e: Option<Event>)
      requires !failed && states != [] && if first then Now().More() else marks != []
      modifies this
      ensures Did(e, ParseFlowMappingKey(old(Now()), first))
    {
      hide ParseNode;
      SkipStart(first);
      var t := Peek();
      if t.None? {
        e := Fail();
        return;
      }
      if t.value != FlowMappingEndToken {
        if !first {
          if t.value != FlowEntryToken {
            e := Fail();
            return;
          }
          Skip();
          t := Peek();
          if t.None? {
            e := Fail();
            return;
          }
        }
        if t.value == KeyToken {
          Skip();
          t := Peek();
          if t.None? {
            e := Fail();
          } else {
            e := NodeUnless(EndsFlowKey(t.value), AtFlowMappingValue, false, false);
          }
          return;
        } else if t.value != FlowMappingEndToken {
          PushState(AtFlowMappingEmptyValue);
          e := Node(false, false);
          return;
        }
      }
      e := EndCollection(MappingEnd);
    }

    /** `yaml_parser_parse_flow_mapping_value`. */
    method FlowMappingValue(empty: bool) returns (e: Option<Event>)
      requires !failed
      modifies this
      ensures Did(e, ParseFlowMappingValue(old(Now()), empty))
    {
      hide ParseNode;
      var t := Peek();
      if t.None? {
        e := Fail();
        return;
      }
      if empty {
        state := AtFlowMappingKey;
        return Some(EMPTY_SCALAR);
      }
      if t.value == ValueToken {
        Skip();
        t := Peek();
        if t.None? {
          e := Fail();
          return;
        }
        e := NodeUnless(EndsFlowValue(t.value), AtFlowMappingKey, false, false);
        return;
      }
      state := AtFlowMappingKey;
      e := Some(EMPTY_SCALAR);
    }

    /** `yaml_parser_state_machine`. */
    method StateMachine() returns (e: Option<Event>)
      requires !failed && Valid(Now()) && state != AtEnd
      modifies this
      ensures Did(e, Step(old(Now())))
    {
      match state
      case AtStreamStart => e := StreamStart();
      case AtImplicitDocumentStart => e := DocumentStart(true);
      case AtDocumentStart => e := DocumentStart(false);
      case AtDocumentContent => e := DocumentContent();
      case AtDocumentEnd => e := DocumentEnd();
      case AtBlockNode => e := Node(true, false);
      case AtBlockSequenceFirstEntry => e := BlockSequenceEntry(true);
      case AtBlockSequenceEntry => e := BlockSequenceEntry(false);
      case AtIndentlessSequenceEntry => e := IndentlessSequenceEntry();
      case AtBlockMappingFirstKey => e := BlockMappingKey(true);
      case AtBlockMappingKey => e := BlockMappingKey(false);
      case AtBlockMappingValue => e := BlockMappingValue();
      case AtFlowSequenceFirstEntry => e := FlowSequenceEntry(true);
      case AtFlowSequenceEntry => e := FlowSequenceEntry(false);
      case AtFlowSequenceEntryMappingKey => e := FlowSequenceEntryMappingKey();
      case AtFlowSequenceEntryMappingValue => e := FlowSequenceEntryMappingValue();
      case AtFlowSequenceEntryMappingEnd => e := FlowSequenceEntryMappingEnd();
      case AtFlowMappingFirstKey => e := FlowMappingKey(true);
      case AtFlowMappingKey => e := FlowMappingKey(false);
      case AtFlowMappingValue => e := FlowMappingValue(false);
      case AtFlowMappingEmptyValue => e := FlowMappingValue(true);
    }

    /** `yaml_parser_parse`: no event after the end of the stream or an error. */
    method NextEvent() returns (e: Option<Event>)
      requires Valid(Now())
      modifies this
      ensures if old(failed || state == AtEnd) then e.None? && failed == old(failed) && Now() == old(Now())
              else Did(e, Step(old(Now())))
      ensures !failed ==> Valid(Now())
    {
      if streamEnd || failed || state == AtEnd {
        return None;
      }
      StepKeeps(Now());
      e := StateMachine();
    }
  }

  /** A whole parse. */
  method ParseAll(tokens: seq<Token>) returns (events: seq<Event>, ok: bool)
    ensures Valid(Start(tokens)) && Run(events, ok) == Parsed(Start(tokens))
    ensures WellNested(events) && (ok <==> Complete(events)) && |events| <= 5 * |tokens| + 1
  {
    EveryParse(tokens);
    var p := new Parser(tokens);
    events := [];
    while true
      invariant !p.failed && Valid(p.Now())
      invariant Parsed(Start(tokens)) == After(events, p.Now())
      decreases Left(p.Now())
    {
      ghost var was := p.Now();
      var e := p.NextEvent();
      if e.None? {
        assert events + [] == events;
        return events, !p.failed;
      }
      OneMore(events, was);
      events := events + [e.value];
    }
  }
}
