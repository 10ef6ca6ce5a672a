/** What the parser makes the emitter takes: from tokens as the scanner makes them, a parse without an error gives
  a stream that can be emitted whole. */
module ParserToEmitter {
  import opened YamlChars
  import opened YamlEvents
  import P = ParserSteps
  import PS = ParserSoundness
  import PR = ParserRuns
  import E = EmitterSteps
  import ES = EmitterSoundness
  import ER = EmitterRuns
  import ET = EmitterTexts

  /** Anchors and aliases are made of letters and digits, a tag directive's handle is between exclamation marks,
      prefixes and suffixes are whole, and scalars are valid UTF-8. */
  predicate TokenFits(t: P.Token) {
    match t
    case AnchorToken(anchor) => E.AnchorFits(anchor)
    case AliasToken(anchor) => E.AnchorFits(anchor)
    case TagDirectiveToken(d) => E.TagFits(d) && Whole(d.prefix)
    case TagToken(_, suffix) => Whole(suffix)
    case ScalarToken(value, _) => ValidUtf8(value)
    case _ => true
  }

  predicate AllTokensFit(p: P.Parse) {
    (forall i | 0 <= i < |p.tokens| :: TokenFits(p.tokens[i])) && ET.PrefixesFit(p.directives)
  }

  predicate Takes(o: P.Outcome) {
    o.Made? ==> ES.EventFits(o.event) && E.Readable(o.event) && AllTokensFit(o.next)
  }

  lemma NoText()
    ensures ValidUtf8([]) && Whole([])
  {
  }

  lemma ContentFits(p: P.Parse, anchor: Bytes, tag: Bytes, block: bool, indentless: bool)
    requires p.More() && p.states != [] && AllTokensFit(p) && (anchor == [] || E.AnchorFits(anchor)) && Whole(tag)
    ensures Takes(P.ParseContent(p, anchor, tag, block, indentless))
  {
    hide E.AnchorFits, ValidUtf8, Whole, ET.PrefixesFit;
    NoText();
    assert TokenFits(p.Peek());
  }

  lemma {:induction false} PrefixFits(ds: seq<TagDirective>, handle: Bytes)
    requires ET.PrefixesFit(ds) && P.PrefixOf(ds, handle).Some?
    ensures Whole(P.PrefixOf(ds, handle).value)
  {
    hide ValidUtf8, Whole;
    if ds[0].handle != handle {
      PrefixFits(ds[1..], handle);
    }
  }

  /** A tag in full is whole. */
  lemma TagIsWhole(ds: seq<TagDirective>, handle: Bytes, suffix: Bytes)
    requires ET.PrefixesFit(ds) && Whole(suffix)
    ensures var tag := P.ResolvedTag(ds, handle, suffix); tag.Some? ==> Whole(tag.value)
  {
    hide ValidUtf8, Whole, ET.PrefixesFit;
    if P.PrefixOf(ds, handle).Some? {
      PrefixFits(ds, handle);
      WholeJoins(P.PrefixOf(ds, handle).value, suffix);
    }
  }

  lemma NodeFits(p: P.Parse, block: bool, indentless: bool)
    requires p.states != [] && AllTokensFit(p)
    ensures Takes(P.ParseNode(p, block, indentless))
  {
    hide E.AnchorFits, P.ParseContent, P.ResolvedTag, ValidUtf8, Whole, ET.PrefixesFit;
    NoText();
    if p.More() {
      assert TokenFits(p.Peek());
      if p.Peek().AliasToken? {
      } else {
        var r := P.ParseProperties(p);
        if r.Properties? {
          AnchorIsRead(p);
          match r.tag {
            case None => ContentFits(r.next, r.anchor, [], block, indentless);
            case Some((handle, suffix)) =>
              var tag := P.ResolvedTag(p.directives, handle, suffix);
              TagIsWhole(p.directives, handle, suffix);
              if tag.Some? {
                ContentFits(r.next, r.anchor, tag.value, block, indentless);
              }
          }
        }
      }
    }
  }

  lemma AnchorIsRead(p: P.Parse)
    requires p.More() && AllTokensFit(p)
    ensures var r := P.ParseProperties(p);
            r.Properties? ==> && (r.anchor == [] || E.AnchorFits(r.anchor))
                              && (r.tag.Some? ==> Whole(r.tag.value.1))
  {
    hide E.AnchorFits, ValidUtf8, Whole, ET.PrefixesFit;
    assert TokenFits(p.Peek());
    if p.Skip().More() {
      assert TokenFits(p.Skip().Peek());
    }
  }

  lemma {:induction false} NotDeclared(a: seq<TagDirective>, b: seq<TagDirective>, handle: Bytes)
    requires P.PrefixOf(a + b, handle).None?
    ensures P.PrefixOf(b, handle).None?
    decreases |a|
  {
    if a == [] {
      assert a + b == b;
    } else {
      assert (a + b)[1..] == a[1..] + b;
      NotDeclared(a[1..], b, handle);
    }
  }

  lemma {:induction false} DeclareMore(ds: seq<TagDirective>, tags: seq<TagDirective>, d: TagDirective)
    requires E.Declare(ds, tags) == Some(ds + tags) && E.TagFits(d) && P.PrefixOf(ds + tags, d.handle).None?
    ensures E.Declare(ds, tags + [d]) == Some(ds + tags + [d])
    decreases |tags|
  {
    if tags == [] {
      assert tags + [d] == [d] && ds + tags == ds && [d][1..] == [];
      assert E.Declare(ds + [d], []) == Some(ds + [d]);
    } else {
      assert (tags + [d])[1..] == tags[1..] + [d];
      assert ds + [tags[0]] + tags[1..] == ds + tags;
      DeclareMore(ds + [tags[0]], tags[1..], d);
    }
  }

  lemma DefaultsFit(ds: seq<TagDirective>)
    requires ET.PrefixesFit(ds)
    ensures ET.PrefixesFit(P.WithDefault(P.WithDefault(ds, P.DEFAULT_DIRECTIVES[0]), P.DEFAULT_DIRECTIVES[1]))
  {
    hide ValidUtf8, Whole, P.PrefixOf, P.WithDefault;
    ET.DefaultsAreText();
    ET.DefaultFits(ds, P.DEFAULT_DIRECTIVES[0]);
    ET.DefaultFits(P.WithDefault(ds, P.DEFAULT_DIRECTIVES[0]), P.DEFAULT_DIRECTIVES[1]);
  }

  /** The directives that the parser accepts are declared once each. */
  lemma {:induction false} DirectivesFit(p: P.Parse, before: seq<TagDirective>, version: bool,
      declared: seq<TagDirective>)
    requires AllTokensFit(p) && p.directives == before + declared && E.Declare([], declared) == Some(declared)
    requires ET.PrefixesFit(declared)
    ensures var r := P.ProcessDirectives(p, version, declared);
            r.Directives? ==>
              E.Declare([], r.declared).Some? && ET.PrefixesFit(r.declared) && ET.PrefixesFit(r.next.directives)
    decreases |p.tokens| - p.head
  {
    hide E.TagFits, ValidUtf8, Whole, E.Declare;
    if p.More() {
      assert TokenFits(p.Peek());
      DefaultsFit(p.directives);
      match p.Peek()
      case VersionDirectiveToken(_, _) => DirectivesFit(p.Skip(), before, true, declared);
      case TagDirectiveToken(d) =>
        if P.PrefixOf(p.directives, d.handle).None? {
          NotDeclared(before, declared, d.handle);
          assert [] + declared == declared && before + declared + [d] == before + (declared + [d]);
          DeclareMore([], declared, d);
          DirectivesFit(p.(directives := p.directives + [d]).Skip(), before, version, declared + [d]);
        }
      case _ =>
    }
  }

  lemma DocumentFits(p: P.Parse, implicit: bool)
    requires AllTokensFit(p)
    ensures Takes(P.ParseDocumentStart(p, implicit))
  {
    var q := if implicit then p else P.SkipDocumentEnds(p);
    assert q.directives + [] == q.directives;
    assert E.Declare([], []) == Some([]);
    DirectivesFit(q, q.directives, false, []);
    hide ValidUtf8, Whole, E.Declare, P.ProcessDirectives;
  }

  lemma BlockItemFits(p: P.Parse)
    requires AllTokensFit(p)
    ensures Takes(P.ParseBlockSequenceItem(p)) && Takes(P.ParseBlockMappingNode(p, P.AtBlockMappingValue))
    ensures Takes(P.ParseBlockMappingNode(p, P.AtBlockMappingKey))
  {
    hide P.ParseNode;
    NoText();
    NodeFits(p.Push(P.AtBlockSequenceEntry), true, false);
    NodeFits(p.Push(P.AtBlockMappingValue), true, true);
    NodeFits(p.Push(P.AtBlockMappingKey), true, true);
  }

  lemma BlockFits(p: P.Parse, first: bool)
    requires AllTokensFit(p) && p.states != [] && if first then p.More() else p.marks != []
    ensures Takes(P.ParseBlockSequenceEntry(p, first)) && Takes(P.ParseBlockMappingKey(p, first))
  {
    hide P.ParseBlockSequenceItem, P.ParseBlockMappingNode;
    var q := if first then p.Mark().Skip() else p;
    if q.More() {
      BlockItemFits(q.Skip());
    }
  }

  lemma FlowFits(p: P.Parse, first: bool)
    requires AllTokensFit(p) && p.states != [] && if first then p.More() else p.marks != []
    ensures Takes(P.ParseFlowSequenceEntry(p, first)) && Takes(P.ParseFlowMappingKey(p, first))
  {
    hide P.ParseFlowSequenceItem, P.ParseFlowMappingItem;
    var q := if first then p.Mark().Skip() else p;
    FlowItemFits(q);
    if q.More() {
      FlowItemFits(q.Skip());
    }
  }

  lemma FlowItemFits(p: P.Parse)
    requires AllTokensFit(p) && p.states != [] && p.marks != []
    ensures Takes(P.ParseFlowSequenceItem(p)) && Takes(P.ParseFlowMappingItem(p))
  {
    hide P.ParseNode;
    NoText();
    NodeFits(p.Push(P.AtFlowSequenceEntry), false, false);
    NodeFits(p.Push(P.AtFlowMappingEmptyValue), false, false);
    if p.More() {
      NodeFits(p.Skip().Push(P.AtFlowMappingValue), false, false);
    }
  }

  lemma BlockValueFits(p: P.Parse)
    requires AllTokensFit(p)
    ensures Takes(P.ParseBlockMappingValue(p))
    ensures p.states != [] ==> Takes(P.ParseIndentlessSequenceEntry(p))
  {
    hide P.ParseNode, P.ParseBlockMappingNode;
    NoText();
    if p.More() {
      NodeFits(p.Skip().Push(P.AtIndentlessSequenceEntry), true, false);
      BlockItemFits(p.Skip());
    }
  }

  lemma PairFits(p: P.Parse)
    requires AllTokensFit(p)
    ensures Takes(P.ParseFlowSequenceEntryMappingKey(p)) && Takes(P.ParseFlowSequenceEntryMappingValue(p))
  {
    hide P.ParseNode;
    NoText();
    NodeFits(p.Push(P.AtFlowSequenceEntryMappingValue), false, false);
    if p.More() {
      NodeFits(p.Skip().Push(P.AtFlowSequenceEntryMappingEnd), false, false);
    }
  }

  lemma FlowValueFits(p: P.Parse)
    requires AllTokensFit(p)
    ensures Takes(P.ParseFlowMappingValue(p, true)) && Takes(P.ParseFlowMappingValue(p, false))
  {
    hide P.ParseNode;
    NoText();
    if p.More() {
      NodeFits(p.Skip().Push(P.AtFlowMappingKey), false, false);
    }
  }

  /** Every event that the parser makes is one that the emitter takes. */
  lemma StepFits(p: P.Parse)
    requires P.Valid(p) && p.state != P.AtEnd && AllTokensFit(p)
    ensures Takes(P.Step(p))
  {
    NoText();
    match p.state
    case AtImplicitDocumentStart => DocumentFits(p, true);
    case AtDocumentStart => DocumentFits(p, false);
    case AtDocumentContent => NodeFits(p, true, false);
    case AtBlockNode => NodeFits(p, true, false);
    case AtBlockSequenceFirstEntry => BlockFits(p, true);
    case AtBlockSequenceEntry => BlockFits(p, false);
    case AtBlockMappingFirstKey => BlockFits(p, true);
    case AtBlockMappingKey => BlockFits(p, false);
    case AtFlowSequenceFirstEntry => FlowFits(p, true);
    case AtFlowSequenceEntry => FlowFits(p, false);
    case AtFlowMappingFirstKey => FlowFits(p, true);
    case AtFlowMappingKey => FlowFits(p, false);
    case AtIndentlessSequenceEntry => BlockValueFits(p);
    case AtBlockMappingValue => BlockValueFits(p);
    case AtFlowMappingValue => FlowValueFits(p);
    case AtFlowMappingEmptyValue => FlowValueFits(p);
    case _ => PairFits(p);
  }

  lemma {:induction false} RunFits(p: P.Parse)
    requires P.Valid(p) && AllTokensFit(p)
    ensures var r := PR.Parsed(p); ER.AllReadable(r.events) && ER.AllFit(r.events)
    decreases PR.Left(p)
  {
    if p.state != P.AtEnd {
      match P.Step(p)
      case Failed =>
      case Made(e, q) =>
        StepFits(p);
        PS.StepKeeps(p);
        PR.StepLeaves(p);
        PR.StepReads(p);
        RunFits(q);
        FitMore(e, PR.Parsed(q).events);
    }
  }

  lemma FitMore(e: Event, es: seq<Event>)
    requires E.Readable(e) && ES.EventFits(e) && ER.AllReadable(es) && ER.AllFit(es)
    ensures ER.AllReadable([e] + es) && ER.AllFit([e] + es)
  {
  }

  /** A stream that is parsed without an error is emitted whole, whatever the settings and the layout. */
  lemma ParsedIsEmitted(tokens: seq<P.Token>, c: E.Config, lines: ER.Lines)
    requires AllTokensFit(P.Start(tokens))
    ensures P.Valid(P.Start(tokens))
    ensures var r := PR.Parsed(P.Start(tokens));
            ER.AllReadable(r.events) && (r.ok ==> ER.Finished(ER.EmitAll(c, lines, r.events), |r.events|))
  {
    PR.EveryParse(tokens);
    RunFits(P.Start(tokens));
    ER.EmitterTakesWholeStreams(c, lines, PR.Parsed(P.Start(tokens)).events);
  }
}
