/** The events between the YAML parser, the tree builder and the emitter, and what makes a stream of them
  well nested. */
module YamlEvents {
  import opened YamlChars

  datatype TagDirective = TagDirective(handle: Bytes, prefix: Bytes)

  datatype Event =
    | StreamStart
    | StreamEnd
    | DocumentStart(version: bool, directives: seq<TagDirective>, implicit: bool)
    | DocumentEnd(implicit: bool)
    | Alias(anchor: Bytes)
    | Scalar(anchor: Bytes, tag: Bytes, value: Bytes, implicit: bool, quotedImplicit: bool, plain: bool)
    | SequenceStart(anchor: Bytes, tag: Bytes, implicit: bool, flow: bool)
    | SequenceEnd
    | MappingStart(anchor: Bytes, tag: Bytes, implicit: bool, flow: bool)
    | MappingEnd

  datatype Option<+T> = None | Some(value: T)

  /** What is open: a document has its node or not, a mapping waits for a key or for a value. */
  datatype Frame = InStream | InDocument(filled: bool) | InSequence | InMapping(atKey: bool)

  datatype Nest = NotStarted | Open(stack: seq<Frame>) | Ended

  function Top(s: seq<Frame>): Frame
    requires s != []
  {
    s[|s| - 1]
  }

  predicate CanHold(s: seq<Frame>) {
    s != [] && (Top(s) == InDocument(false) || Top(s) == InSequence || Top(s).InMapping?)
  }

  /** A node begins in the innermost frame. */
  function Fill(s: seq<Frame>): seq<Frame>
    requires CanHold(s)
  {
    match Top(s)
    case InDocument(_) => s[..|s| - 1] + [InDocument(true)]
    case InMapping(atKey) => s[..|s| - 1] + [InMapping(!atKey)]
    case _ => s
  }

  /** What is open after one more event; none if the event may not come here. */
  function Accept(n: Nest, e: Event): Option<Nest> {
    match n
    case NotStarted => if e.StreamStart? then Some(Open([InStream])) else None
    case Ended => None
    case Open(s) =>
      if s == [] then None
      else
        match e
        case StreamStart => None
        case StreamEnd => if s == [InStream] then Some(Ended) else None
        case DocumentStart(_, _, _) => if s == [InStream] then Some(Open(s + [InDocument(false)])) else None
        case DocumentEnd(_) => if Top(s) == InDocument(true) then Some(Open(s[..|s| - 1])) else None
        case Alias(_) => if CanHold(s) then Some(Open(Fill(s))) else None
        case Scalar(_, _, _, _, _, _) => if CanHold(s) then Some(Open(Fill(s))) else None
        case SequenceStart(_, _, _, _) => if CanHold(s) then Some(Open(Fill(s) + [InSequence])) else None
        case SequenceEnd => if Top(s) == InSequence then Some(Open(s[..|s| - 1])) else None
        case MappingStart(_, _, _, _) => if CanHold(s) then Some(Open(Fill(s) + [InMapping(true)])) else None
        case MappingEnd => if Top(s) == InMapping(true) then Some(Open(s[..|s| - 1])) else None
  }

  function AcceptAll(n: Nest, es: seq<Event>): Option<Nest> {
    if es == [] then Some(n)
    else
      match AcceptAll(n, es[..|es| - 1])
      case None => None
      case Some(before) => Accept(before, es[|es| - 1])
  }

  /** The events are a prefix of a well-nested stream: every collection and document that ends was open,
      and every mapping that ends holds an even number of nodes. */
  predicate WellNested(es: seq<Event>) {
    AcceptAll(NotStarted, es).Some?
  }

  /** A whole stream. */
  predicate Complete(es: seq<Event>) {
    AcceptAll(NotStarted, es) == Some(Ended)
  }

  lemma {:induction false} AcceptJoins(n: Nest, a: seq<Event>, b: seq<Event>)
    requires AcceptAll(n, a).Some?
    ensures AcceptAll(n, a + b) == AcceptAll(AcceptAll(n, a).value, b)
  {
    if b == [] {
      assert a + b == a;
    } else {
      assert (a + b)[..|a + b| - 1] == a + b[..|b| - 1];
      AcceptJoins(n, a, b[..|b| - 1]);
    }
  }

  lemma {:induction false} AcceptPrefix(n: Nest, a: seq<Event>, b: seq<Event>)
    requires AcceptAll(n, a + b).Some?
    ensures AcceptAll(n, a).Some?
  {
    if b == [] {
      assert a + b == a;
    } else {
      assert (a + b)[..|a + b| - 1] == a + b[..|b| - 1];
      AcceptPrefix(n, a, b[..|b| - 1]);
    }
  }

  lemma AcceptOne(n: Nest, e: Event)
    ensures AcceptAll(n, [e]) == Accept(n, e)
  {
    assert [e][..0] == [];
  }

  lemma NodeAccepted(s: seq<Frame>, e: Event)
    requires CanHold(s)
    ensures e.Alias? || e.Scalar? ==> Accept(Open(s), e) == Some(Open(Fill(s)))
    ensures e.SequenceStart? ==> Accept(Open(s), e) == Some(Open(Fill(s) + [InSequence]))
    ensures e.MappingStart? ==> Accept(Open(s), e) == Some(Open(Fill(s) + [InMapping(true)]))
  {
  }

  /** Where a node is due, a well-nested stream has a node or the end of what is innermost. */
  lemma NodeDue(s: seq<Frame>, e: Event)
    requires CanHold(s) && Accept(Open(s), e).Some?
    ensures || e.Alias? || e.Scalar? || e.SequenceStart? || e.MappingStart?
            || (e == SequenceEnd && Top(s) == InSequence) || (e == MappingEnd && Top(s) == InMapping(true))
  {
  }

  lemma EndAccepted(outside: seq<Frame>, frame: Frame, e: Event)
    requires (frame == InSequence && e == SequenceEnd) || (frame == InMapping(true) && e == MappingEnd)
    ensures Accept(Open(outside + [frame]), e) == Some(Open(outside))
  {
    assert (outside + [frame])[..|outside|] == outside;
  }
}
