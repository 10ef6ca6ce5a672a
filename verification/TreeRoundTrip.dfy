/** From a tree to tokens, events and back to the tree: what the parser and the builder together make of a
  written document. */
module TreeRoundTrip {
  import opened YamlChars
  import opened YamlEvents
  import opened ParserSteps
  import opened ParserRuns
  import opened TokenGrammar
  import opened StreamRoundTrip
  import opened TreeBuilder
  import YamlParser

  /** The node that a written tree stands for, its first event being number `at`. */
  function NodeOf(t: Tree, ds: seq<TagDirective>, at: nat): Node {
    match t
    case Omitted => ScalarNode(at, [], [], true)
    case Absent => ScalarNode(at, [], [], true)
    case Unmarked => ScalarNode(at, [], [], true)
    case Keyless => ScalarNode(at, [], [], true)
    case AliasTree(anchor) => AliasNode(at, anchor)
    case BareTree(props) => ScalarNode(at, TagOf(props, ds), [], TagOf(props, ds) == [])
    case ScalarTree(props, value, plain) =>
      ScalarNode(at, TagOf(props, ds), value, Implicit(TagOf(props, ds), plain).0)
    case SequenceTree(_, _, items) => SequenceNode(at, NodesOf(items, ds, at + 1))
    case MappingTree(_, _, items) => MappingNode(at, NodesOf(items, ds, at + 1))
    case PairTree(key, mapped) =>
      MappingNode(at, [NodeOf(key, ds, at + 1), NodeOf(mapped, ds, at + 1 + |Events(key, ds)|)])
  }

  function NodesOf(ts: seq<Tree>, ds: seq<TagDirective>, at: nat): seq<Node> {
    if ts == [] then []
    else [NodeOf(ts[0], ds, at)] + NodesOf(ts[1..], ds, at + |Events(ts[0], ds)|)
  }

  /** The events from number `at` on. */
  predicate From(es: seq<Event>, at: nat, part: seq<Event>) {
    at + |part| <= |es| && es[at..at + |part|] == part
  }

  lemma FromSplit(es: seq<Event>, at: nat, a: seq<Event>, b: seq<Event>)
    requires From(es, at, a + b)
    ensures From(es, at, a) && From(es, at + |a|, b)
  {
    var all := es[at..at + |a + b|];
    assert es[at..at + |a|] == all[..|a|] == a;
    assert es[at + |a|..at + |a| + |b|] == all[|a|..] == b;
  }

  lemma FromOne(es: seq<Event>, at: nat, e: Event)
    requires From(es, at, [e])
    ensures at < |es| && es[at] == e && AllShown(es, at, at + 1) == [Shown(e, at)]
  {
    assert es[at] == es[at..at + 1][0];
    ShownOne(es, at);
  }

  /** A collection: its start, what is inside, its end. */
  lemma {:induction false} FromCollection(es: seq<Event>, at: nat, start: Event, inner: seq<Event>, end: Event)
    requires From(es, at, [start] + (inner + [end]))
    ensures var j := at + 1 + |inner|;
            && From(es, at + 1, inner) && j < |es|
            && AllShown(es, at, j + 1) == [Shown(start, at)] + AllShown(es, at + 1, j) + [Shown(end, j)]
  {
    hide AllShown, From, Shown;
    FromSplit(es, at, [start], inner + [end]);
    FromSplit(es, at + 1, inner, [end]);
    FromOne(es, at, start);
    FromOne(es, at + 1 + |inner|, end);
    Collected(es, at, at + 1 + |inner|, AllShown(es, at + 1, at + 1 + |inner|));
  }

  lemma LeafShows(es: seq<Event>, at: nat, t: Tree, ds: seq<TagDirective>)
    requires !t.SequenceTree? && !t.MappingTree? && !t.PairTree? && From(es, at, Events(t, ds))
    ensures AllShown(es, at, at + |Events(t, ds)|) == Flatten(NodeOf(t, ds, at))
  {
    hide AllShown, From, TagOf;
    var e := Events(t, ds)[0];
    assert Events(t, ds) == [e];
    FromOne(es, at, e);
  }

  lemma {:induction false} EventsShow(es: seq<Event>, at: nat, t: Tree, ds: seq<TagDirective>)
    requires From(es, at, Events(t, ds))
    ensures AllShown(es, at, at + |Events(t, ds)|) == Flatten(NodeOf(t, ds, at))
    decreases t, 1
  {
    hide AllShown, From, TagOf, FlattenAll, AllEvents, NodesOf;
    match t
    case SequenceTree(props, style, items) =>
      var tag := TagOf(props, ds);
      FromCollection(es, at, SequenceStart(props.anchor, tag, tag == [], style.Flow?), AllEvents(items, ds),
        SequenceEnd);
      AllEventsShow(es, at + 1, items, ds);
    case MappingTree(props, style, items) =>
      var tag := TagOf(props, ds);
      FromCollection(es, at, MappingStart(props.anchor, tag, tag == [], style.Flow?), AllEvents(items, ds), MappingEnd);
      AllEventsShow(es, at + 1, items, ds);
    case PairTree(key, mapped) => PairShows(es, at, t, ds);
    case _ => LeafShows(es, at, t, ds);
  }

  lemma PairForm(t: Tree, ds: seq<TagDirective>, at: nat, k: seq<Event>, m: seq<Event>, a: Node, b: Node)
    requires t.PairTree? && k == Events(t.key, ds) && m == Events(t.mapped, ds)
    requires a == NodeOf(t.key, ds, at + 1) && b == NodeOf(t.mapped, ds, at + 1 + |k|)
    ensures Events(t, ds) == [MappingStart([], [], true, true)] + (k + m + [MappingEnd])
    ensures |Events(t, ds)| == |k| + |m| + 2
    ensures Flatten(NodeOf(t, ds, at)) == [MappingMark(at)] + FlattenAll([a, b]) + [MappingEnds]
  {
  }

  lemma {:induction false} PairShows(es: seq<Event>, at: nat, t: Tree, ds: seq<TagDirective>)
    requires t.PairTree? && From(es, at, Events(t, ds))
    ensures AllShown(es, at, at + |Events(t, ds)|) == Flatten(NodeOf(t, ds, at))
    decreases t, 0
  {
    hide *;
    var k, m := Events(t.key, ds), Events(t.mapped, ds);
    var a, b := NodeOf(t.key, ds, at + 1), NodeOf(t.mapped, ds, at + 1 + |k|);
    PairForm(t, ds, at, k, m, a, b);
    PairPlaces(es, at, k, m);
    EventsShow(es, at + 1, t.key, ds);
    EventsShow(es, at + 1 + |k|, t.mapped, ds);
    PairJoins(es, at, k, m, a, b);
  }

  /** Where the key and the value of a pair are. */
  lemma {:induction false} PairPlaces(es: seq<Event>, at: nat, k: seq<Event>, m: seq<Event>)
    requires From(es, at, [MappingStart([], [], true, true)] + (k + m + [MappingEnd]))
    ensures From(es, at + 1, k) && From(es, at + 1 + |k|, m) && at + 1 + |k| + |m| < |es|
    ensures AllShown(es, at, at + 2 + |k| + |m|)
         == [MappingMark(at)] + AllShown(es, at + 1, at + 1 + |k| + |m|) + [MappingEnds]
  {
    hide AllShown, From;
    assert |k + m| == |k| + |m|;
    FromCollection(es, at, MappingStart([], [], true, true), k + m, MappingEnd);
    FromSplit(es, at + 1, k, m);
  }

  lemma {:induction false} PairJoins(es: seq<Event>, at: nat, k: seq<Event>, m: seq<Event>, a: Node, b: Node)
    requires at + 1 + |k| + |m| < |es|
    requires AllShown(es, at + 1, at + 1 + |k|) == Flatten(a)
    requires AllShown(es, at + 1 + |k|, at + 1 + |k| + |m|) == Flatten(b)
    ensures AllShown(es, at + 1, at + 1 + |k| + |m|) == FlattenAll([a, b])
  {
    hide *;
    ShownJoins(es, at + 1, at + 1 + |k|, at + 1 + |k| + |m|);
    TwoNodes(a, b);
  }

  lemma FromEnds(es: seq<Event>, at: nat, part: seq<Event>)
    requires From(es, at, part)
    ensures at + |part| <= |es|
  {
  }

  lemma TwoNodes(a: Node, b: Node)
    ensures FlattenAll([a, b]) == Flatten(a) + Flatten(b)
  {
    FlattenFirst([a, b]);
    OneNode(b);
    assert [a, b][1..] == [b];
  }

  lemma {:induction false} AllEventsShow(es: seq<Event>, at: nat, ts: seq<Tree>, ds: seq<TagDirective>)
    requires From(es, at, AllEvents(ts, ds))
    ensures AllShown(es, at, at + |AllEvents(ts, ds)|) == FlattenAll(NodesOf(ts, ds, at))
    decreases ts, 1
  {
    if ts != [] {
      hide AllShown, From, FlattenAll, Flatten, Events, NodeOf;
      var e, rest := Events(ts[0], ds), AllEvents(ts[1..], ds);
      FromSplit(es, at, e, rest);
      EventsShow(es, at, ts[0], ds);
      AllEventsShow(es, at + |e|, ts[1..], ds);
      ShownJoins(es, at, at + |e|, at + |e| + |rest|);
      var nodes := NodesOf(ts, ds, at);
      FlattenFirst(nodes);
      assert nodes[1..] == NodesOf(ts[1..], ds, at + |e|);
    }
  }

  lemma ShownCount(es: seq<Event>, i: nat, j: nat)
    requires i <= j <= |es|
    ensures |AllShown(es, i, j)| == j - i
    decreases j
  {
    if i < j {
      ShownCount(es, i, j - 1);
    }
  }

  /** Two trees shown from the same event on are the same tree and end together. */
  lemma SameTree(es: seq<Event>, i: nat, j: nat, k: nat, a: Node, b: Node)
    requires i <= j <= k <= |es|
    requires (AllShown(es, i, j) == Flatten(a) && AllShown(es, i, k) == Flatten(b))
    ensures a == b && j == k
  {
    ShownJoins(es, i, j, k);
    ShownCount(es, j, k);
    var more := AllShown(es, j, k);
    hide *;
    assert Flatten(b) + [] == Flatten(a) + more;
    Separates(b, a, [], more);
  }

  lemma WholeIsFrom(es: seq<Event>)
    ensures From(es, 0, es)
  {
    assert es[0..0 + |es|] == es;
  }

  lemma FirstEvents(docs: seq<Written>, part: seq<Event>)
    requires docs != [] && part == Events(docs[0].root, InForce(docs[0].tags))
    ensures var d := docs[0];
            StreamEvents(docs) == [StreamStart, DocumentStart(d.version, d.tags, false)]
                               + (part + ([DocumentEnd(d.ends == 0)] + AllDocumentEvents(docs[1..]) + [StreamEnd]))
  {
    hide Events, InForce;
  }

  lemma {:induction false} FirstDocument(docs: seq<Written>)
    requires docs != []
    ensures var es, part := StreamEvents(docs), Events(docs[0].root, InForce(docs[0].tags));
            |es| > 1 && es[1].DocumentStart? && From(es, 2, part)
  {
    hide InForce, Events, From;
    var d := docs[0];
    var part := Events(d.root, InForce(d.tags));
    var before := [StreamStart, DocumentStart(d.version, d.tags, false)];
    var after := [DocumentEnd(d.ends == 0)] + AllDocumentEvents(docs[1..]) + [StreamEnd];
    FirstEvents(docs, part);
    hide *;
    WholeIsFrom(StreamEvents(docs));
    FromSplit(StreamEvents(docs), 0, before, part + after);
    FromSplit(StreamEvents(docs), 2, part, after);
  }

  /** What is built of the events of a written stream is the tree that its first document stands for. */
  lemma TreeOfStream(docs: seq<Written>, d: Document, end: nat)
    requires docs != [] && Built(StreamEvents(docs), d, end) && d.at == 1
    ensures d.root == NodeOf(docs[0].root, InForce(docs[0].tags), 2)
  {
    hide Flatten, AllShown, StreamEvents, InForce, NodeOf, Events, Paired;
    var es, ds := StreamEvents(docs), InForce(docs[0].tags);
    var n := |Events(docs[0].root, ds)|;
    FirstDocument(docs);
    FromEnds(es, 2, Events(docs[0].root, ds));
    EventsShow(es, 2, docs[0].root, ds);
    if end - 1 <= 2 + n {
      SameTree(es, 2, end - 1, 2 + n, d.root, NodeOf(docs[0].root, ds, 2));
    } else {
      SameTree(es, 2, 2 + n, end - 1, NodeOf(docs[0].root, ds, 2), d.root);
    }
  }

  /** Parses and builds a written stream: it never fails, and gives back the tree that was written. */
  method Load(docs: seq<Written>) returns (ok: bool, d: Option<Document>)
    requires DocumentsFit(docs, true)
    ensures ok
    ensures d.None? <==> docs == []
    ensures docs != [] ==> d.Some? && d.value.root == NodeOf(docs[0].root, InForce(docs[0].tags), 2)
  {
    ParseOfStream(docs);
    if docs != [] {
      FirstDocument(docs);
    }
    assert docs == [] ==> StreamEvents(docs) == [StreamStart, StreamEnd];
    hide *;
    var events;
    events, ok := YamlParser.ParseAll(StreamTokens(docs));
    assert events == StreamEvents(docs) && ok;
    ok, d := BuildFirst(events);
    if d.Some? {
      var end :| Built(events, d.value, end);
      StartsDocument(events, d.value, end);
      if docs != [] {
        TreeOfStream(docs, d.value, end);
      }
    }
  }

  lemma StartsDocument(es: seq<Event>, d: Document, end: nat)
    requires Built(es, d, end) && d.at == 1
    ensures |es| > 1 && es[1].DocumentStart?
  {
  }
}
