/** The builder that turns a document's events into a tree (decode.go).

  A node carries the number of its event, which stands for its line and column and for its identity.  An
  empty anchor is an absent one.  The parser's events are a sequence: where it ends, the parser failed. */
module TreeBuilder {
  import opened YamlChars
  import opened YamlEvents

  datatype Node =
    | AliasNode(at: nat, value: Bytes)
    | ScalarNode(at: nat, tag: Bytes, value: Bytes, implicit: bool)
    | SequenceNode(at: nat, children: seq<Node>)
    | MappingNode(at: nat, children: seq<Node>)

  datatype Document = Document(at: nat, root: Node, anchors: map<Bytes, nat>)

  /** What of an event the tree shows. */
  datatype Mark =
    | AliasMark(at: nat, value: Bytes)
    | ScalarMark(at: nat, tag: Bytes, value: Bytes, implicit: bool)
    | SequenceMark(at: nat)
    | MappingMark(at: nat)
    | SequenceEnds
    | MappingEnds
    | Nothing

  function Shown(e: Event, at: nat): Mark {
    match e
    case Alias(anchor) => AliasMark(at, anchor)
    case Scalar(_, tag, value, implicit, _, _) => ScalarMark(at, tag, value, implicit)
    case SequenceStart(_, _, _, _) => SequenceMark(at)
    case MappingStart(_, _, _, _) => MappingMark(at)
    case SequenceEnd => SequenceEnds
    case MappingEnd => MappingEnds
    case _ => Nothing
  }

  /** What of the events from number `i` up to `j` a tree shows. */
  function AllShown(es: seq<Event>, i: nat, j: nat): seq<Mark>
    requires i <= j <= |es|
  {
    if i == j then [] else AllShown(es, i, j - 1) + [Shown(es[j - 1], j - 1)]
  }

  /** A tree from top to bottom, left to right. */
  function Flatten(n: Node): seq<Mark> {
    match n
    case AliasNode(at, value) => [AliasMark(at, value)]
    case ScalarNode(at, tag, value, implicit) => [ScalarMark(at, tag, value, implicit)]
    case SequenceNode(at, children) => [SequenceMark(at)] + FlattenAll(children) + [SequenceEnds]
    case MappingNode(at, children) => [MappingMark(at)] + FlattenAll(children) + [MappingEnds]
  }

  function FlattenAll(ns: seq<Node>): seq<Mark> {
    if ns == [] then [] else FlattenAll(ns[..|ns| - 1]) + Flatten(ns[|ns| - 1])
  }

  /** Every mapping of the tree has as many values as keys. */
  predicate Paired(n: Node) {
    match n
    case SequenceNode(_, children) => AllPaired(children)
    case MappingNode(_, children) => |children| % 2 == 0 && AllPaired(children)
    case _ => true
  }

  predicate AllPaired(ns: seq<Node>) {
    ns == [] || (AllPaired(ns[..|ns| - 1]) && Paired(ns[|ns| - 1]))
  }

  /** The anchor an event gives its node. */
  function AnchorOf(e: Event): Bytes {
    match e
    case Scalar(anchor, _, _, _, _, _) => anchor
    case SequenceStart(anchor, _, _, _) => anchor
    case MappingStart(anchor, _, _, _) => anchor
    case _ => []
  }

  function Anchored(m: map<Bytes, nat>, anchor: Bytes, at: nat): map<Bytes, nat> {
    if anchor == [] then m else m[anchor := at]
  }

  /** The last node of each anchor among the events from `i` up to `j`, over those of before. */
  function AllAnchored(m: map<Bytes, nat>, es: seq<Event>, i: nat, j: nat): map<Bytes, nat>
    requires i <= j <= |es|
  {
    if i == j then m else Anchored(AllAnchored(m, es, i, j - 1), AnchorOf(es[j - 1]), j - 1)
  }

  /** What is open before event number `i`. */
  function NestAt(es: seq<Event>, i: nat): Option<Nest>
    requires i <= |es|
  {
    if i == 0 then Some(NotStarted)
    else
      match NestAt(es, i - 1)
      case None => None
      case Some(n) => Accept(n, es[i - 1])
  }

  lemma {:induction false} NestPrefix(es: seq<Event>, i: nat)
    requires i <= |es|
    ensures NestAt(es, i) == AcceptAll(NotStarted, es[..i])
  {
    if i > 0 {
      NestPrefix(es, i - 1);
      assert es[..i][..i - 1] == es[..i - 1];
    }
  }

  lemma {:induction false} ShownJoins(es: seq<Event>, i: nat, j: nat, k: nat)
    requires i <= j <= k <= |es|
    ensures AllShown(es, i, k) == AllShown(es, i, j) + AllShown(es, j, k)
  {
    if j < k {
      ShownJoins(es, i, j, k - 1);
    }
  }

  lemma {:induction false} AnchoredJoins(m: map<Bytes, nat>, es: seq<Event>, i: nat, j: nat, k: nat)
    requires i <= j <= k <= |es|
    ensures AllAnchored(m, es, i, k) == AllAnchored(AllAnchored(m, es, i, j), es, j, k)
  {
    if j < k {
      AnchoredJoins(m, es, i, j, k - 1);
    }
  }

  /** In a well-nested stream each event is accepted where it comes. */
  lemma NestNext(es: seq<Event>, i: nat)
    requires WellNested(es) && i < |es|
    ensures NestAt(es, i).Some? && NestAt(es, i + 1).Some?
    ensures Accept(NestAt(es, i).value, es[i]) == NestAt(es, i + 1)
  {
    assert es[..i + 1] + es[i + 1..] == es;
    AcceptPrefix(NotStarted, es[..i + 1], es[i + 1..]);
    NestPrefix(es, i + 1);
  }

  /** In a whole stream the last event is the one that ends it. */
  lemma CompleteEnds(es: seq<Event>, s: seq<Frame>)
    requires Complete(es) && es != [] && NestAt(es, |es| - 1) == Some(Open(s))
    ensures es[|es| - 1] == StreamEnd
  {
    assert es[..|es|] == es;
    NestPrefix(es, |es|);
  }

  lemma PairTurns(s: seq<Frame>)
    requires s != [] && Top(s) == InMapping(true)
    ensures CanHold(s) && CanHold(Fill(s)) && Top(Fill(s)) == InMapping(false) && Fill(Fill(s)) == s
  {
  }

  class Builder {
    const events: seq<Event>
    var at: nat                       // the number of the event the builder looks at
    var anchors: map<Bytes, nat>

    constructor (events: seq<Event>)
      ensures this.events == events && at == 0 && anchors == map[]
    {
      this.events := events;
      at := 0;
      anchors := map[];
    }

    ghost predicate Valid()
      reads this
    {
      WellNested(events) && at < |events|
    }

    /** What is open before the event the builder looks at. */
    ghost predicate Within(s: seq<Frame>)
      reads this
    {
      Valid() && NestAt(events, at) == Some(Open(s))
    }

    /** `parser.skip`: the next event, unless the parser or the stream is at its end. */
    method Skip(ghost s: seq<Frame>) returns (ok: bool)
      requires Within(s) && s != []
      modifies this`at
      ensures at == old(at) + if ok then 1 else 0
      ensures ok ==> Valid() && NestAt(events, at) == Accept(Open(s), events[old(at)])
      ensures !ok ==> old(at) + 1 == |events|
      ensures !ok && Complete(events) ==> events[old(at)] == StreamEnd
    {
      hide NestAt, Accept, AcceptAll;
      NestNext(events, at);
      if at + 1 == |events| {
        if Complete(events) {
          CompleteEnds(events, s);
        }
        return false;
      }
      at := at + 1;
      ok := true;
    }

    /** `newParser`: past the start of the stream, which is there. */
    method SkipStart() returns (ok: bool)
      requires Valid() && at == 0
      modifies this`at
      ensures ok ==> Within([InStream]) && at == 1
      ensures !ok ==> |events| == 1
    {
      NestNext(events, 0);
      assert events[0] == StreamStart;
      if |events| == 1 {
        return false;
      }
      at := 1;
      ok := true;
    }

    /** Past an event that is accepted, whose node gets its anchor. */
    method Pass(ghost s: seq<Frame>, ghost inside: seq<Frame>) returns (ok: bool)
      requires Within(s) && s != [] && Accept(Open(s), events[at]) == Some(Open(inside))
      modifies this`at, this`anchors
      ensures anchors == Anchored(old(anchors), AnchorOf(events[old(at)]), old(at))
      ensures ok ==> Within(inside) && at == old(at) + 1
      ensures !ok ==> at + 1 == |events| && !Complete(events)
    {
      var anchor := AnchorOf(events[at]);
      if anchor != [] {
        anchors := anchors[anchor := at];
      }
      ok := Skip(s);
    }

    /** The nodes read show exactly the events from number `from` on, and so do the anchors. */
    ghost predicate Read(from: nat, before: map<Bytes, nat>, ns: seq<Node>)
      reads this
    {
      && from <= at <= |events|
      && AllShown(events, from, at) == FlattenAll(ns)
      && AllPaired(ns)
      && anchors == AllAnchored(before, events, from, at)
    }

    /** `parser.parse`, where a node is due; its panic cannot happen. */
    method Parse(ghost s: seq<Frame>) returns (n: Option<Node>)
      requires Within(s) && CanHold(s) && !events[at].SequenceEnd? && !events[at].MappingEnd?
      modifies this`at, this`anchors
      ensures n.Some? ==> Within(Fill(s)) && Read(old(at), old(anchors), [n.value]) && old(at) < at
      ensures n.None? ==> at + 1 == |events| && !Complete(events)
      decreases |events| - at, 1
    {
      hide NestAt, Accept, AcceptAll, Fill, AllShown, AllAnchored, FlattenAll, Flatten;
      NestNext(events, at);
      NodeDue(s, events[at]);
      match events[at]
      case Scalar(_, _, _, _, _, _) => n := ParseScalar(s);
      case Alias(_) => n := ParseAlias(s);
      case MappingStart(_, _, _, _) => n := ParseMapping(s);
      case SequenceStart(_, _, _, _) => n := ParseSequence(s);
    }

    method ParseAlias(ghost s: seq<Frame>) returns (n: Option<Node>)
      requires Within(s) && CanHold(s) && events[at].Alias?
      modifies this`at, this`anchors
      ensures n.Some? ==> Within(Fill(s)) && Read(old(at), old(anchors), [n.value]) && old(at) < at
      ensures n.None? ==> at + 1 == |events| && !Complete(events)
      decreases |events| - at, 0
    {
      hide NestAt, Accept, AcceptAll, Fill;
      NodeAccepted(s, events[at]);
      var node := AliasNode(at, events[at].anchor);
      LeafRead(events, anchors, at, node);
      var ok := Pass(s, Fill(s));
      return if ok then Some(node) else None;
    }

    method ParseScalar(ghost s: seq<Frame>) returns (n: Option<Node>)
      requires Within(s) && CanHold(s) && events[at].Scalar?
      modifies this`at, this`anchors
      ensures n.Some? ==> Within(Fill(s)) && Read(old(at), old(anchors), [n.value]) && old(at) < at
      ensures n.None? ==> at + 1 == |events| && !Complete(events)
      decreases |events| - at, 0
    {
      hide NestAt, Accept, AcceptAll, Fill;
      NodeAccepted(s, events[at]);
      var e := events[at];
      var node := ScalarNode(at, e.tag, e.value, e.implicit);
      LeafRead(events, anchors, at, node);
      var ok := Pass(s, Fill(s));
      return if ok then Some(node) else None;
    }

    method ParseSequence(ghost s: seq<Frame>) returns (n: Option<Node>)
      requires Within(s) && CanHold(s) && events[at].SequenceStart?
      modifies this`at, this`anchors
      ensures n.Some? ==> Within(Fill(s)) && Read(old(at), old(anchors), [n.value]) && old(at) < at
      ensures n.None? ==> at + 1 == |events| && !Complete(events)
      decreases |events| - at, 0
    {
      hide NestAt, Accept, AcceptAll, Fill, AllShown, AllAnchored, FlattenAll, Flatten, AllPaired;
      var start := at;
      NodeAccepted(s, events[at]);
      ghost var inside := Fill(s) + [InSequence];
      var ok := Pass(s, inside);
      if !ok {
        return None;
      }
      var children := ParseItems(inside);
      if children.None? {
        return None;
      }
      EndAccepted(Fill(s), Top(inside), events[at]);
      n := EndCollection(inside, Fill(s), SequenceNode(start, children.value), old(anchors));
    }

    method ParseItems(ghost s: seq<Frame>) returns (ns: Option<seq<Node>>)
      requires Within(s) && s != [] && Top(s) == InSequence
      modifies this`at, this`anchors
      ensures ns.Some? ==> Within(s) && events[at] == SequenceEnd && Read(old(at), old(anchors), ns.value)
      ensures ns.None? ==> at + 1 == |events| && !Complete(events)
      decreases |events| - at, 2, 1
    {
      hide NestAt, Accept, AcceptAll;
      var children := [];
      while events[at] != SequenceEnd
        invariant Within(s) && old(at) <= at && Read(old(at), old(anchors), children)
        decreases |events| - at
      {
        label Next:
        NestNext(events, at);
        NodeDue(s, events[at]);
        var child := Parse(s);
        if child.None? {
          return None;
        }
        ReadMore(events, old(anchors), old(at), old@Next(at), at, children, child.value);
        children := children + [child.value];
      }
      ns := Some(children);
    }

    /** Past the end of a collection. */
    method EndCollection(ghost inside: seq<Frame>, ghost outside: seq<Frame>, n: Node, ghost before: map<Bytes, nat>)
      returns (r: Option<Node>)
      requires Within(inside) && inside != [] && Accept(Open(inside), events[at]) == Some(Open(outside)) && n.at < at
      requires if n.SequenceNode? then events[n.at].SequenceStart? && events[at] == SequenceEnd
               else n.MappingNode? && events[n.at].MappingStart? && events[at] == MappingEnd && |n.children| % 2 == 0
      requires Read(n.at + 1, Anchored(before, AnchorOf(events[n.at]), n.at), n.children)
      modifies this`at, this`anchors
      ensures r.Some? ==> r.value == n && Within(outside) && Read(n.at, before, [n]) && n.at < at
      ensures r.None? ==> at + 1 == |events| && !Complete(events)
    {
      hide NestAt, Accept, AcceptAll, Fill, AllShown, AllAnchored;
      CollectionRead(events, n.at, at, n);
      AnchoredOnce(events, before, n.at, at);
      var ok := Pass(inside, outside);
      return if ok then Some(n) else None;
    }

    method ParseMapping(ghost s: seq<Frame>) returns (n: Option<Node>)
      requires Within(s) && CanHold(s) && events[at].MappingStart?
      modifies this`at, this`anchors
      ensures n.Some? ==> Within(Fill(s)) && Read(old(at), old(anchors), [n.value]) && old(at) < at
      ensures n.None? ==> at + 1 == |events| && !Complete(events)
      decreases |events| - at, 0
    {
      hide NestAt, Accept, AcceptAll, Fill, AllShown, AllAnchored, FlattenAll, Flatten, AllPaired;
      var start := at;
      NodeAccepted(s, events[at]);
      ghost var inside := Fill(s) + [InMapping(true)];
      var ok := Pass(s, inside);
      if !ok {
        return None;
      }
      var children := ParsePairs(inside);
      if children.None? {
        return None;
      }
      EndAccepted(Fill(s), Top(inside), events[at]);
      n := EndCollection(inside, Fill(s), MappingNode(start, children.value), old(anchors));
    }

    method ParsePairs(ghost s: seq<Frame>) returns (ns: Option<seq<Node>>)
      requires Within(s) && s != [] && Top(s) == InMapping(true)
      modifies this`at, this`anchors
      ensures ns.Some? ==> Within(s) && events[at] == MappingEnd && Read(old(at), old(anchors), ns.value)
      ensures ns.Some? ==> |ns.value| % 2 == 0
      ensures ns.None? ==> at + 1 == |events| && !Complete(events)
      decreases |events| - at, 2, 1
    {
      hide NestAt, Accept, AcceptAll;
      var children := [];
      while events[at] != MappingEnd
        invariant Within(s) && old(at) <= at && Read(old(at), old(anchors), children) && |children| % 2 == 0
        decreases |events| - at
      {
        var more := ParsePair(s, old(at), old(anchors), children);
        if more.None? {
          return None;
        }
        children := more.value;
      }
      ns := Some(children);
    }

    /** A key and its value. */
    method ParsePair(ghost s: seq<Frame>, ghost from: nat, ghost before: map<Bytes, nat>, ns: seq<Node>)
      returns (more: Option<seq<Node>>)
      requires Within(s) && s != [] && Top(s) == InMapping(true) && events[at] != MappingEnd && Read(from, before, ns)
      modifies this`at, this`anchors
      ensures more.Some? ==> Within(s) && old(at) < at && Read(from, before, more.value) && |more.value| == |ns| + 2
      ensures more.None? ==> at + 1 == |events| && !Complete(events)
      decreases |events| - at, 2, 0
    {
      hide NestAt, Accept, AcceptAll, Fill, AllShown, AllAnchored, FlattenAll, Flatten, AllPaired;
      PairTurns(s);
      ghost var waiting := Fill(s);
      NestNext(events, at);
      NodeDue(s, events[at]);
      var key := Parse(s);
      if key.None? {
        return None;
      }
      ReadMore(events, before, from, old(at), at, ns, key.value);
      label Middle:
      NestNext(events, at);
      NodeDue(waiting, events[at]);
      var value := Parse(waiting);
      if value.None? {
        return None;
      }
      ReadMore(events, before, from, old@Middle(at), at, ns + [key.value], value.value);
      more := Some(ns + [key.value] + [value.value]);
    }

    /** `parser.document`; it never meets another event where the document's end is due. */
    method ParseDocument() returns (d: Option<Document>)
      requires Within([InStream]) && events[at].DocumentStart?
      modifies this`at, this`anchors
      ensures d.Some? ==> Within([InStream]) && Built(events, d.value, at)
      ensures d.Some? ==> d.value.at == old(at)
      ensures d.None? ==> at + 1 == |events| && !Complete(events)
    {
      hide NestAt, Accept, AcceptAll, AllShown, AllAnchored, FlattenAll, Flatten, AllPaired, Fill;
      var start := at;
      anchors := map[];
      DocumentAccepted();
      NestNext(events, at);
      var ok := Skip([InStream]);
      if !ok {
        return None;
      }
      NestNext(events, at);
      NodeDue([InStream, InDocument(false)], events[at]);
      var root := Parse([InStream, InDocument(false)]);
      if root.None? {
        return None;
      }
      NestNext(events, at);
      EndIsDue(events[at]);
      OneNode(root.value);
      ok := Skip([InStream, InDocument(true)]);
      return if ok then Some(Document(start, root.value, anchors)) else None;
    }
  }

  lemma DocumentAccepted()
    ensures CanHold([InStream, InDocument(false)])
        && Fill([InStream, InDocument(false)]) == [InStream, InDocument(true)]
    ensures forall version, tags, implicit ::
      Accept(Open([InStream]), DocumentStart(version, tags, implicit)) == Some(Open([InStream, InDocument(false)]))
  {
    assert [InStream] + [InDocument(false)] == [InStream, InDocument(false)];
  }

  /** After a document's node only its end may come. */
  lemma EndIsDue(e: Event)
    requires Accept(Open([InStream, InDocument(true)]), e).Some?
    ensures e.DocumentEnd? && Accept(Open([InStream, InDocument(true)]), e) == Some(Open([InStream]))
  {
    assert [InStream, InDocument(true)][..1] == [InStream];
  }

  /** The document is the one whose events end before number `end`: its tree shows each of them in its place,
      its mappings are paired, and each anchor names the last node it was given to. */
  predicate Built(es: seq<Event>, d: Document, end: nat) {
    && d.at + 2 <= end <= |es|
    && es[d.at].DocumentStart? && es[end - 1].DocumentEnd?
    && AllShown(es, d.at + 1, end - 1) == Flatten(d.root)
    && Paired(d.root)
    && d.anchors == AllAnchored(map[], es, d.at + 1, end - 1)
  }

  lemma OneNode(n: Node)
    ensures FlattenAll([n]) == Flatten(n) && (AllPaired([n]) <==> Paired(n))
  {
    assert [n][..0] == [];
    assert FlattenAll([n]) == FlattenAll([n][..0]) + Flatten(n);
  }

  lemma LeafRead(es: seq<Event>, before: map<Bytes, nat>, i: nat, n: Node)
    requires i < |es| && (n.AliasNode? || n.ScalarNode?) && Flatten(n) == [Shown(es[i], i)]
    ensures AllShown(es, i, i + 1) == FlattenAll([n]) && AllPaired([n])
    ensures AllAnchored(before, es, i, i + 1) == Anchored(before, AnchorOf(es[i]), i)
  {
    OneNode(n);
    ShownOne(es, i);
    assert AllAnchored(before, es, i, i) == before;
  }

  lemma ReadMore(es: seq<Event>, before: map<Bytes, nat>, i: nat, j: nat, k: nat, ns: seq<Node>, n: Node)
    requires i <= j <= k <= |es|
    requires AllShown(es, i, j) == FlattenAll(ns) && AllPaired(ns)
    requires AllShown(es, j, k) == FlattenAll([n]) && AllPaired([n])
    ensures AllShown(es, i, k) == FlattenAll(ns + [n]) && AllPaired(ns + [n])
    ensures AllAnchored(before, es, i, k) == AllAnchored(AllAnchored(before, es, i, j), es, j, k)
  {
    OneNode(n);
    ShownJoins(es, i, j, k);
    AnchoredJoins(before, es, i, j, k);
    assert (ns + [n])[..|ns|] == ns;
  }

  lemma ShownOne(es: seq<Event>, i: nat)
    requires i < |es|
    ensures AllShown(es, i, i + 1) == [Shown(es[i], i)]
  {
    assert AllShown(es, i, i) == [];
  }

  /** A collection is its start, its children and its end. */
  lemma {:induction false} Collected(es: seq<Event>, i: nat, j: nat, inner: seq<Mark>)
    requires i < j < |es| && AllShown(es, i + 1, j) == inner
    ensures AllShown(es, i, j + 1) == [Shown(es[i], i)] + inner + [Shown(es[j], j)]
  {
    hide *;
    ShownLast(es, i, j);
    ShownOne(es, i);
    ShownJoins(es, i, i + 1, j);
    Sandwich(AllShown(es, i, j + 1), AllShown(es, i, j), AllShown(es, i, i + 1), Shown(es[i], i), inner,
      Shown(es[j], j));
  }

  lemma Sandwich(x: seq<Mark>, y: seq<Mark>, z: seq<Mark>, a: Mark, inner: seq<Mark>, b: Mark)
    requires x == y + [b] && y == z + inner && z == [a]
    ensures x == [a] + inner + [b]
  {
  }

  lemma ShownLast(es: seq<Event>, i: nat, j: nat)
    requires i <= j < |es|
    ensures AllShown(es, i, j + 1) == AllShown(es, i, j) + [Shown(es[j], j)]
  {
  }

  lemma {:induction false} CollectionRead(es: seq<Event>, i: nat, j: nat, n: Node)
    requires i < j < |es| && (n.SequenceNode? || n.MappingNode?) && n.at == i
    requires AllShown(es, i + 1, j) == FlattenAll(n.children) && AllPaired(n.children)
    requires n.MappingNode? ==> |n.children| % 2 == 0
    requires if n.SequenceNode? then es[i].SequenceStart? && es[j] == SequenceEnd
             else es[i].MappingStart? && es[j] == MappingEnd
    ensures AllShown(es, i, j + 1) == FlattenAll([n]) && AllPaired([n])
  {
    Collected(es, i, j, FlattenAll(n.children));
    OneNode(n);
  }

  lemma AnchoredOnce(es: seq<Event>, before: map<Bytes, nat>, i: nat, j: nat)
    requires i < j < |es| && AnchorOf(es[j]) == []
    ensures AllAnchored(before, es, i, j + 1) == AllAnchored(Anchored(before, AnchorOf(es[i]), i), es, i + 1, j)
  {
    AnchoredJoins(before, es, i, i + 1, j);
    assert AllAnchored(before, es, i, i + 1) == Anchored(AllAnchored(before, es, i, i), AnchorOf(es[i]), i);
  }

  /** Builds the first document of a parser's events; none if the stream holds no document. */
  method BuildFirst(events: seq<Event>) returns (ok: bool, d: Option<Document>)
    requires WellNested(events)
    ensures Complete(events) ==> ok
    ensures ok && d.Some? ==> d.value.at == 1 && exists end :: Built(events, d.value, end)
    ensures ok && d.None? ==> events == [StreamStart, StreamEnd]
  {
    if |events| == 0 {
      return false, None;
    }
    var b := new Builder(events);
    NestNext(events, 0);
    var first := b.SkipStart();
    if !first {
      return false, None;
    }
    NestNext(events, 1);
    if events[1] == StreamEnd {
      NothingAfterEnd(events, 1);
      return true, None;
    }
    d := b.ParseDocument();
    ok := d.Some?;
  }

  /** Nothing follows the end of the stream. */
  lemma {:induction false} NothingAfterEnd(es: seq<Event>, i: nat)
    requires WellNested(es) && i < |es| && es[i] == StreamEnd
    ensures i + 1 == |es|
  {
    NestNext(es, i);
    if i + 1 < |es| {
      NestNext(es, i + 1);
    }
  }

  lemma FlattenLast(ns: seq<Node>, n: Node)
    ensures FlattenAll(ns + [n]) == FlattenAll(ns) + Flatten(n)
  {
    assert (ns + [n])[..|ns|] == ns;
  }

  lemma {:induction false} FlattenFirst(ns: seq<Node>)
    requires ns != []
    ensures FlattenAll(ns) == Flatten(ns[0]) + FlattenAll(ns[1..])
    decreases |ns|
  {
    OneNode(ns[0]);
    FlattenNone();
    hide FlattenAll, Flatten, AllPaired;
    if |ns| == 1 {
      assert ns == [ns[0]] && ns[1..] == [];
    } else {
      var front, last := ns[..|ns| - 1], ns[|ns| - 1];
      FlattenFirst(front);
      FlattenLast(front, last);
      FlattenLast(front[1..], last);
      assert ns == front + [last] && ns[1..] == front[1..] + [last];
      Regrouped(Flatten(ns[0]), FlattenAll(front[1..]), Flatten(last));
    }
  }

  lemma Regrouped(a: seq<Mark>, b: seq<Mark>, c: seq<Mark>)
    ensures a + b + c == a + (b + c)
  {
  }

  lemma FlattenNone()
    ensures FlattenAll([]) == []
  {
  }

  /** Where one tree's marks end can be told from them: no tree's marks begin another's. */
  lemma {:induction false} Separates(a: Node, b: Node, x: seq<Mark>, y: seq<Mark>)
    requires Flatten(a) + x == Flatten(b) + y
    ensures a == b && x == y
    decreases a
  {
    var all := Flatten(a) + x;
    assert all[0] == Flatten(a)[0] == Flatten(b)[0];
    if a.AliasNode? || a.ScalarNode? {
      assert x == all[1..] == y;
    } else {
      var end := if a.SequenceNode? then SequenceEnds else MappingEnds;
      assert all[1..] == FlattenAll(a.children) + [end] + x;
      assert all[1..] == FlattenAll(b.children) + [end] + y;
      AllSeparate(a.children, b.children, end, x, y);
    }
  }

  lemma FirstMark(n: Node)
    ensures Flatten(n) != [] && !Flatten(n)[0].SequenceEnds? && !Flatten(n)[0].MappingEnds?
  {
  }

  lemma {:induction false} AllSeparate(a: seq<Node>, b: seq<Node>, end: Mark, x: seq<Mark>, y: seq<Mark>)
    requires FlattenAll(a) + [end] + x == FlattenAll(b) + [end] + y && (end.SequenceEnds? || end.MappingEnds?)
    ensures a == b && x == y
    decreases a
  {
    hide Flatten;
    var all := FlattenAll(a) + [end] + x;
    if a != [] {
      FirstMark(a[0]);
      FlattenFirst(a);
      assert all[0] == Flatten(a[0])[0];
    } else {
      assert all[0] == end && x == all[1..];
    }
    if b != [] {
      FirstMark(b[0]);
      FlattenFirst(b);
      assert all[0] == Flatten(b[0])[0];
    } else {
      assert all[0] == end && y == all[1..];
    }
    if a != [] {
      assert all == Flatten(a[0]) + (FlattenAll(a[1..]) + [end] + x);
      assert all == Flatten(b[0]) + (FlattenAll(b[1..]) + [end] + y);
      Separates(a[0], b[0], FlattenAll(a[1..]) + [end] + x, FlattenAll(b[1..]) + [end] + y);
      AllSeparate(a[1..], b[1..], end, x, y);
      assert a == [a[0]] + a[1..] && b == [b[0]] + b[1..];
    }
  }

  /** A document's events have one tree only. */
  lemma OneTree(es: seq<Event>, d: Document, e: Document, end: nat)
    requires Built(es, d, end) && Built(es, e, end) && d.at == e.at
    ensures d == e
  {
    assert Flatten(d.root) + [] == Flatten(e.root) + [];
    Separates(d.root, e.root, [], []);
  }
}
