/** The grammar at the head of parserc.go, as the tokens that each tree may be written with and the events
  that it stands for. */
module TokenGrammar {
  import opened YamlChars
  import opened YamlEvents
  import opened ParserSteps

  /** An anchor and a tag, in either order; a tag is a handle and a suffix. */
  datatype Props = Props(anchor: Bytes, tag: Option<(Bytes, Bytes)>, tagFirst: bool)

  /** A flow collection may have a separator after its last entry. */
  datatype Style = Block | Indentless | Flow(trailing: bool)

  /** A node as it is written.  An omitted node leaves its indicator alone, an absent value has none; an unmarked
      value is absent too, and its key, in a flow mapping, has no indicator either.  In a block mapping an entry
      may be keyless: that is, have neither key nor indicator of it. */
  datatype Tree =
    | Omitted
    | Absent
    | Unmarked
    | Keyless
    | AliasTree(anchor: Bytes)
    | BareTree(props: Props)
    | ScalarTree(props: Props, value: Bytes, plain: bool)
    | SequenceTree(props: Props, style: Style, items: seq<Tree>)
    | MappingTree(props: Props, style: Style, items: seq<Tree>)
    | PairTree(key: Tree, mapped: Tree)

  function PropsTokens(props: Props): seq<Token> {
    var anchor := if props.anchor == [] then [] else [AnchorToken(props.anchor)];
    var tag := if props.tag.None? then [] else [TagToken(props.tag.value.0, props.tag.value.1)];
    if props.tagFirst then tag + anchor else anchor + tag
  }

  predicate PropsFit(props: Props, ds: seq<TagDirective>) {
    props.tag.Some? ==> ResolvedTag(ds, props.tag.value.0, props.tag.value.1).Some?
  }

  function FullTag(props: Props, ds: seq<TagDirective>): Bytes
    requires PropsFit(props, ds)
  {
    if props.tag.None? then [] else ResolvedTag(ds, props.tag.value.0, props.tag.value.1).value
  }

  /** A node's tokens. */
  function Tokens(t: Tree): seq<Token>
    decreases t, 0
  {
    match t
    case Omitted => []
    case Absent => []
    case Unmarked => []
    case Keyless => []
    case AliasTree(anchor) => [AliasToken(anchor)]
    case BareTree(props) => PropsTokens(props)
    case ScalarTree(props, value, plain) => PropsTokens(props) + [ScalarToken(value, plain)]
    case SequenceTree(props, Block, items) => PropsTokens(props) + ([BlockSequenceStartToken] + BlockItems(items))
    case SequenceTree(props, Indentless, items) => PropsTokens(props) + IndentlessItems(items)
    case SequenceTree(props, Flow(more), items) =>
      PropsTokens(props) + ([FlowSequenceStartToken] + FlowItems(items, more))
    case MappingTree(props, Flow(more), items) =>
      PropsTokens(props) + ([FlowMappingStartToken] + FlowPairs(items, more))
    case MappingTree(props, _, items) => PropsTokens(props) + ([BlockMappingStartToken] + BlockPairs(items))
    case PairTree(key, mapped) => [KeyToken] + (Tokens(key) + ValueTokens(mapped))
  }

  function ValueTokens(t: Tree): seq<Token>
    decreases t, 1
  {
    if t.Absent? then [] else [ValueToken] + Tokens(t)
  }

  function BlockItems(ts: seq<Tree>): seq<Token> {
    if ts == [] then [BlockEndToken] else [BlockEntryToken] + (Tokens(ts[0]) + BlockItems(ts[1..]))
  }

  function IndentlessItems(ts: seq<Tree>): seq<Token> {
    if ts == [] then [] else [BlockEntryToken] + (Tokens(ts[0]) + IndentlessItems(ts[1..]))
  }

  function FlowItems(ts: seq<Tree>, more: bool): seq<Token>
    decreases ts, 0
  {
    if ts == [] then [FlowSequenceEndToken] else Tokens(ts[0]) + FlowRest(ts[1..], more)
  }

  /** After an entry: the separator may come once more. */
  function FlowRest(ts: seq<Tree>, more: bool): seq<Token>
    decreases ts, 1
  {
    if ts == [] && !more then [FlowSequenceEndToken] else [FlowEntryToken] + FlowItems(ts, more)
  }

  function BlockPairs(ts: seq<Tree>): seq<Token> {
    if |ts| < 2 then [BlockEndToken]
    else if ts[0].Keyless? then ValueTokens(ts[1]) + BlockPairs(ts[2..])
    else [KeyToken] + (Tokens(ts[0]) + (ValueTokens(ts[1]) + BlockPairs(ts[2..])))
  }

  function FlowPairs(ts: seq<Tree>, more: bool): seq<Token>
    decreases ts, 0
  {
    if |ts| < 2 then [FlowMappingEndToken]
    else if ts[1].Unmarked? then Tokens(ts[0]) + FlowPairsRest(ts[2..], more)
    else [KeyToken] + (Tokens(ts[0]) + (ValueTokens(ts[1]) + FlowPairsRest(ts[2..], more)))
  }

  function FlowPairsRest(ts: seq<Tree>, more: bool): seq<Token>
    decreases ts, 1
  {
    if |ts| < 2 && !more then [FlowMappingEndToken] else [FlowEntryToken] + FlowPairs(ts, more)
  }

  /** A node's events. */
  function Events(t: Tree, ds: seq<TagDirective>): seq<Event> {
    match t
    case Omitted => [EMPTY_SCALAR]
    case Absent => [EMPTY_SCALAR]
    case Unmarked => [EMPTY_SCALAR]
    case Keyless => [EMPTY_SCALAR]
    case AliasTree(anchor) => [Alias(anchor)]
    case BareTree(props) =>
      var tag := TagOf(props, ds);
      [Scalar(props.anchor, tag, [], tag == [], false, true)]
    case ScalarTree(props, value, plain) => [ScalarEvent(props.anchor, TagOf(props, ds), value, plain)]
    case SequenceTree(props, style, items) =>
      var tag := TagOf(props, ds);
      [SequenceStart(props.anchor, tag, tag == [], style.Flow?)] + (AllEvents(items, ds) + [SequenceEnd])
    case MappingTree(props, style, items) =>
      var tag := TagOf(props, ds);
      [MappingStart(props.anchor, tag, tag == [], style.Flow?)] + (AllEvents(items, ds) + [MappingEnd])
    case PairTree(key, mapped) =>
      [MappingStart([], [], true, true)] + (Events(key, ds) + (Events(mapped, ds) + [MappingEnd]))
  }

  function TagOf(props: Props, ds: seq<TagDirective>): Bytes {
    if PropsFit(props, ds) then FullTag(props, ds) else []
  }

  function AllEvents(ts: seq<Tree>, ds: seq<TagDirective>): seq<Event> {
    if ts == [] then [] else Events(ts[0], ds) + AllEvents(ts[1..], ds)
  }

  /** The grammar's node, in block or flow context, and where a block sequence needs no indentation. */
  predicate Fits(t: Tree, ds: seq<TagDirective>, block: bool, indentless: bool)
    decreases t, 0
  {
    match t
    case AliasTree(_) => true
    case BareTree(props) => PropsFit(props, ds) && (props.anchor != [] || FullTag(props, ds) != [])
    case ScalarTree(props, _, _) => PropsFit(props, ds)
    case SequenceTree(props, Block, items) => PropsFit(props, ds) && block && ItemsFit(items, ds)
    case SequenceTree(props, Indentless, items) =>
      PropsFit(props, ds) && indentless && items != [] && ItemsFit(items, ds)
    case SequenceTree(props, Flow(_), items) => PropsFit(props, ds) && FlowItemsFit(items, ds)
    case MappingTree(props, style, items) =>
      PropsFit(props, ds) && !style.Indentless? && (style.Flow? || block) && PairsFit(items, ds, !style.Flow?)
    case _ => false
  }

  predicate KeyFits(t: Tree, ds: seq<TagDirective>, block: bool)
    decreases t, 1
  {
    t.Omitted? || Fits(t, ds, block, block)
  }

  predicate ValueFits(t: Tree, ds: seq<TagDirective>, block: bool)
    decreases t, 1
  {
    t.Omitted? || t.Absent? || Fits(t, ds, block, block)
  }

  predicate ItemsFit(ts: seq<Tree>, ds: seq<TagDirective>) {
    ts == [] || ((ts[0].Omitted? || Fits(ts[0], ds, true, false)) && ItemsFit(ts[1..], ds))
  }

  /** A flow sequence may hold single pairs, whose key is omitted only if the value is: see `PairKeyIsLost`. */
  predicate FlowItemFits(t: Tree, ds: seq<TagDirective>)
    decreases t, 1
  {
    if t.PairTree? then
      KeyFits(t.key, ds, false) && ValueFits(t.mapped, ds, false) && (t.key.Omitted? ==> t.mapped.Omitted?)
    else Fits(t, ds, false, false)
  }

  predicate FlowItemsFit(ts: seq<Tree>, ds: seq<TagDirective>) {
    ts == [] || (FlowItemFits(ts[0], ds) && FlowItemsFit(ts[1..], ds))
  }

  /** The entries of a mapping, each a key and a value. */
  predicate PairsFit(ts: seq<Tree>, ds: seq<TagDirective>, block: bool) {
    ts == [] ||
    (|ts| >= 2 && PairsFit(ts[2..], ds, block)
     && if ts[1].Unmarked? then !block && Fits(ts[0], ds, false, false)
        else KeyFits(ts[0], ds, block) && ValueFits(ts[1], ds, block))
  }
}
