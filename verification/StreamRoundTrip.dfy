/** Whole streams: documents with directives, written as the grammar has it, are parsed to their events, and the
  builder makes the first one's tree of them. */
module StreamRoundTrip {
  import opened YamlChars
  import opened YamlEvents
  import opened ParserSteps
  import opened ParserSoundness
  import opened ParserRuns
  import opened TokenGrammar
  import opened ParserRoundTrip

  /** A document as it is written, with any number of end markers; only the first may be implicit. */
  datatype Written = Written(explicit: bool, version: bool, tags: seq<TagDirective>, root: Tree, ends: nat)

  function TagTokens(tags: seq<TagDirective>): seq<Token> {
    if tags == [] then [] else [TagDirectiveToken(tags[0])] + TagTokens(tags[1..])
  }

  function StartTokens(d: Written): seq<Token> {
    if d.explicit then
      (if d.version then [VersionDirectiveToken(1, 1)] else []) + (TagTokens(d.tags) + [DocumentStartToken])
    else []
  }

  function EndTokens(n: nat): seq<Token> {
    if n == 0 then [] else [DocumentEndToken] + EndTokens(n - 1)
  }

  function DocumentTokens(d: Written): seq<Token> {
    StartTokens(d) + (Tokens(d.root) + EndTokens(d.ends))
  }

  /** The directives in force, with the two that need no declaration. */
  function InForce(tags: seq<TagDirective>): seq<TagDirective> {
    WithDefault(WithDefault(tags, DEFAULT_DIRECTIVES[0]), DEFAULT_DIRECTIVES[1])
  }

  function DocumentEvents(d: Written): seq<Event> {
    [DocumentStart(d.version, d.tags, false)] + (Events(d.root, InForce(d.tags)) + [DocumentEnd(d.ends == 0)])
  }

  /** No handle is declared twice, after those of `seen`. */
  predicate Distinct(seen: seq<TagDirective>, tags: seq<TagDirective>)
    decreases tags
  {
    tags == [] || (PrefixOf(seen, tags[0].handle).None? && Distinct(seen + [tags[0]], tags[1..]))
  }

  predicate DocumentFits(d: Written, first: bool) {
    && Distinct([], d.tags)
    && (d.root.Omitted? || Fits(d.root, InForce(d.tags), true, false))
    && (!d.explicit ==> first && !d.version && d.tags == [] && !d.root.Omitted?)
  }

  /** Between documents. */
  predicate Outside(p: Parse, first: bool) {
    && p.head <= |p.tokens| && p.state == (if first then AtImplicitDocumentStart else AtDocumentStart)
    && p.states == [] && p.marks == [] && p.directives == [] && !p.streamEnd
  }

  /** The tokens that may follow a document that has not been ended. */
  predicate StartsNext(t: Token) {
    IsDirective(t) || t == DocumentStartToken || t == StreamEndToken
  }

  lemma {:induction false} TagsRead(p: Parse, seen: seq<TagDirective>, version: bool, tags: seq<TagDirective>,
                                    rest: seq<Token>)
    requires !p.streamEnd && p.directives == seen && Distinct(seen, tags)
    requires Next(p, TagTokens(tags) + rest) && rest != [] && !IsDirective(rest[0])
    ensures ProcessDirectives(p, version, seen)
         == Directives(Forward(p, |TagTokens(tags)|).(directives := InForce(seen + tags)), version, seen + tags)
    ensures Next(Forward(p, |TagTokens(tags)|), rest)
    decreases |tags|
  {
    TagsSplit(seen, tags);
    if tags == [] {
      assert TagTokens(tags) + rest == rest;
      hide *;
      NoTagsRead(p, seen, version, rest);
    } else {
      var now, more := seen + [tags[0]], tags[1..];
      var q := Forward(p, 1).(directives := now);
      var k := |TagTokens(more)|;
      hide *;
      TagRead(p, seen, version, tags, rest, q);
      TagsRead(q, now, version, more, rest);
      ForwardJoins(p, q, k);
      NextSame(Forward(q, k), Forward(p, 1 + k), rest);
    }
  }

  lemma TagsSplit(seen: seq<TagDirective>, tags: seq<TagDirective>)
    ensures tags == [] ==> TagTokens(tags) == [] && seen + tags == seen
    ensures tags != [] && Distinct(seen, tags) ==>
              && PrefixOf(seen, tags[0].handle).None? && Distinct(seen + [tags[0]], tags[1..])
              && seen + [tags[0]] + tags[1..] == seen + tags && |TagTokens(tags)| == 1 + |TagTokens(tags[1..])|
  {
    if tags != [] {
      assert seen + [tags[0]] + tags[1..] == seen + tags;
    }
  }

  lemma ForwardJoins(p: Parse, q: Parse, k: nat)
    requires q == Forward(p, 1).(directives := q.directives)
    ensures Forward(q, k).tokens == Forward(p, 1 + k).tokens && Forward(q, k).head == Forward(p, 1 + k).head
    ensures forall ds: seq<TagDirective> ::
              Forward(q, k).(directives := ds) == Forward(p, 1 + k).(directives := ds)
  {
  }

  lemma NoTagsRead(p: Parse, seen: seq<TagDirective>, version: bool, rest: seq<Token>)
    requires !p.streamEnd && p.directives == seen && Next(p, rest) && rest != [] && !IsDirective(rest[0])
    ensures ProcessDirectives(p, version, seen)
         == Directives(Forward(p, 0).(directives := InForce(seen)), version, seen)
    ensures Next(Forward(p, 0), rest)
  {
    NextHead(p, rest);
    hide PrefixOf;
  }

  lemma TagRead(p: Parse, seen: seq<TagDirective>, version: bool, tags: seq<TagDirective>, rest: seq<Token>, q: Parse)
    requires !p.streamEnd && p.directives == seen && tags != [] && PrefixOf(seen, tags[0].handle).None?
    requires Next(p, TagTokens(tags) + rest) && q == Forward(p, 1).(directives := seen + [tags[0]])
    ensures ProcessDirectives(p, version, seen) == ProcessDirectives(q, version, seen + [tags[0]])
    ensures Next(q, TagTokens(tags[1..]) + rest)
  {
    hide InForce, Next, PrefixOf;
    var more := TagTokens(tags[1..]) + rest;
    assert TagTokens(tags) + rest == [TagDirectiveToken(tags[0])] + more;
    NextToken(p, TagDirectiveToken(tags[0]), more);
    NextSame(Forward(p, 1), q, more);
  }

  lemma StartSplit(d: Written, rest: seq<Token>)
    requires d.explicit
    ensures var more := TagTokens(d.tags) + ([DocumentStartToken] + rest);
            StartTokens(d) + rest == if d.version then [VersionDirectiveToken(1, 1)] + more else more
    ensures |StartTokens(d)| == (if d.version then 1 else 0) + |TagTokens(d.tags)| + 1
  {
    hide TagTokens;
    var t := TagTokens(d.tags);
    if d.version {
      JoinsAgree(VersionDirectiveToken(1, 1), t, [DocumentStartToken], rest);
    } else {
      assert StartTokens(d) == t + [DocumentStartToken];
    }
  }

  lemma VersionRead(p: Parse, more: seq<Token>, q: Parse)
    requires !p.streamEnd && p.directives == [] && Next(p, [VersionDirectiveToken(1, 1)] + more)
    requires q == Forward(p, 1).(directives := [])
    ensures ProcessDirectives(p, false, []) == ProcessDirectives(q, true, [])
    ensures !q.streamEnd && Next(q, more)
  {
    hide Next, PrefixOf, WithDefault;
    NextToken(p, VersionDirectiveToken(1, 1), more);
  }

  lemma DirectivesRead(p: Parse, d: Written, rest: seq<Token>)
    requires !p.streamEnd && p.directives == [] && Distinct([], d.tags) && d.explicit
    requires Next(p, StartTokens(d) + rest)
    ensures var k := |StartTokens(d)| - 1;
            && k >= 0 && Next(Forward(p, k), [DocumentStartToken] + rest)
            && ProcessDirectives(p, false, [])
            == Directives(Forward(p, k).(directives := InForce(d.tags)), d.version, d.tags)
  {
    assert !IsDirective(DocumentStartToken);
    hide *;
    var tail, k := [DocumentStartToken] + rest, |TagTokens(d.tags)|;
    StartSplit(d, rest);
    assert [] + d.tags == d.tags;
    if d.version {
      var q := Forward(p, 1).(directives := []);
      VersionRead(p, TagTokens(d.tags) + tail, q);
      TagsRead(q, [], true, d.tags, tail);
      ForwardJoins(p, q, k);
      NextSame(Forward(q, k), Forward(p, 1 + k), tail);
    } else {
      TagsRead(p, [], false, d.tags, tail);
    }
  }

  /** A document's start, and where the parser is after it. */
  lemma StartGoes(p: Parse, d: Written, first: bool, rest: seq<Token>, q: Parse)
    requires Outside(p, first) && DocumentFits(d, first)
    requires Next(p, StartTokens(d) + rest) && rest != [] && (d.explicit || Begins(rest[0]))
    requires q == Forward(p, |StartTokens(d)|).(directives := InForce(d.tags), states := [AtDocumentEnd],
                                                state := if d.explicit then AtDocumentContent else AtBlockNode)
    ensures StepOf(p) == Made(DocumentStart(d.version, d.tags, false), q) && Next(q, rest)
  {
    DocumentFitsIs(d, first);
    OutsideIs(p, first);
    hide *;
    NextSplit(p, StartTokens(d), rest);
    NextSame(Forward(p, |StartTokens(d)|), q, rest);
    if d.explicit {
      ExplicitStarts(p, d, first, rest, q);
    } else {
      ImplicitStarts(p, d, rest, q);
    }
  }

  lemma DocumentFitsIs(d: Written, first: bool)
    requires DocumentFits(d, first)
    ensures Distinct([], d.tags) && (!d.explicit ==> first && !d.version && d.tags == [])
  {
    hide Fits, InForce, Distinct;
  }

  lemma OutsideIs(p: Parse, first: bool)
    requires Outside(p, first)
    ensures !p.streamEnd && p.states == [] && p.marks == [] && p.directives == []
    ensures p.state == (if first then AtImplicitDocumentStart else AtDocumentStart)
    ensures Forward(p, 0) == p
  {
  }

  lemma ExplicitStarts(p: Parse, d: Written, first: bool, rest: seq<Token>, q: Parse)
    requires Outside(p, first) && Distinct([], d.tags) && d.explicit && Next(p, StartTokens(d) + rest)
    requires q == Forward(p, |StartTokens(d)|).(directives := InForce(d.tags), states := [AtDocumentEnd],
                                                state := AtDocumentContent)
    ensures StepOf(p) == Made(DocumentStart(d.version, d.tags, false), q)
  {
    OutsideIs(p, first);
    FirstOfStart(d, rest);
    hide Next, InForce, Distinct, StartTokens, ProcessDirectives, PrefixOf;
    NextHead(p, StartTokens(d) + rest);
    DirectivesRead(p, d, rest);
    StartTokensSome(d);
    var r := Forward(p, |StartTokens(d)| - 1).(directives := InForce(d.tags));
    NextSame(Forward(p, |StartTokens(d)| - 1), r, [DocumentStartToken] + rest);
    NextToken(r, DocumentStartToken, rest);
    assert p.states + [AtDocumentEnd] == [AtDocumentEnd];
  }

  lemma StartTokensSome(d: Written)
    requires d.explicit
    ensures |StartTokens(d)| >= 1
  {
  }

  lemma ImplicitStarts(p: Parse, d: Written, rest: seq<Token>, q: Parse)
    requires Outside(p, true) && !d.explicit && !d.version && d.tags == [] && Next(p, StartTokens(d) + rest)
    requires rest != [] && Begins(rest[0])
    requires q == Forward(p, |StartTokens(d)|).(directives := InForce(d.tags), states := [AtDocumentEnd],
                                                state := AtBlockNode)
    ensures StepOf(p) == Made(DocumentStart(d.version, d.tags, false), q)
  {
    assert StartTokens(d) + rest == rest && |StartTokens(d)| == 0;
    OutsideIs(p, true);
    hide Next, InForce, StartTokens, ProcessDirectives;
    NextHead(p, rest);
    NoDirectives(p);
    assert p.states + [AtDocumentEnd] == [AtDocumentEnd];
  }

  lemma FirstOfStart(d: Written, rest: seq<Token>)
    requires d.explicit
    ensures var t := StartTokens(d) + rest; t != [] && (IsDirective(t[0]) || t[0] == DocumentStartToken)
  {
  }

  lemma NoDirectives(p: Parse)
    requires p.More() && !IsDirective(p.Peek()) && p.directives == []
    ensures ProcessDirectives(p, false, []) == Directives(p.(directives := InForce([])), false, [])
  {
  }

  lemma ContentRuns(q: Parse, d: Written, first: bool, after: seq<Token>, r: Parse)
    requires q.states == [AtDocumentEnd] && q.marks == [] && !q.streamEnd && q.directives == InForce(d.tags)
    requires q.state == (if d.explicit then AtDocumentContent else AtBlockNode) && DocumentFits(d, first)
    requires Next(q, Tokens(d.root) + after) && after != [] && EndsDocument(after[0])
    requires r == Forward(q, |Tokens(d.root)|).(state := AtDocumentEnd, states := [])
    ensures Runs(q, Events(d.root, InForce(d.tags)), r)
  {
    var ds := InForce(d.tags);
    DocumentState(q);
    assert d.root.Omitted? || Fits(d.root, ds, true, false);
    if d.root.Omitted? {
      OmittedRuns(q, ds, after, r);
    } else {
      hide *;
      ClosedBy(q, Tokens(d.root), after, false);
      RootRuns(q, d.root, ds, r);
    }
  }

  lemma DocumentState(q: Parse)
    requires q.states == [AtDocumentEnd] && q.marks == [] && !q.streamEnd && q.head <= |q.tokens|
    requires q.state == AtDocumentContent || q.state == AtBlockNode
    ensures Ready(q) && Valid(q)
  {
    OneState();
  }

  lemma OmittedRuns(q: Parse, ds: seq<TagDirective>, after: seq<Token>, r: Parse)
    requires Valid(q) && q.state == AtDocumentContent && Next(q, Tokens(Omitted) + after) && after != []
    requires EndsDocument(after[0]) && r == Forward(q, |Tokens(Omitted)|).(state := AtDocumentEnd, states := [])
    ensures Runs(q, Events(Omitted, ds), r)
  {
    assert Tokens(Omitted) + after == after;
    NextHead(q, after);
    GoesOnce(EMPTY_SCALAR, r);
    RunsNow(q, [EMPTY_SCALAR], r);
  }

  lemma RootRuns(q: Parse, root: Tree, ds: seq<TagDirective>, r: Parse)
    requires Ready(q) && Valid(q) && q.states == [AtDocumentEnd] && q.directives == ds
    requires q.state == AtDocumentContent || q.state == AtBlockNode
    requires Fits(root, ds, true, false) && Next(q, Tokens(root)) && Closed(q, |Tokens(root)|, false)
    requires r == Forward(q, |Tokens(root)|).(state := AtDocumentEnd, states := [])
    ensures Runs(q, Events(root, ds), r)
  {
    hide *;
    RootEnds(q, |Tokens(root)|, r);
    FirstToken(root, ds, true, false);
    NextHead(q, Tokens(root));
    assert q.states != [];
    RootStep(q);
    NodeGoes(q, root, ds, true, false);
    EventsSome(root, ds);
    RunsNow(q, Events(root, ds), r);
  }

  lemma RootEnds(q: Parse, k: nat, r: Parse)
    requires q.states == [AtDocumentEnd] && r == Forward(q, k).(state := AtDocumentEnd, states := [])
    ensures Back(q, k) == r
  {
  }

  /** A root that begins as a node is parsed as one. */
  lemma RootStep(q: Parse)
    requires Valid(q) && q.states != [] && (q.state == AtDocumentContent || q.state == AtBlockNode)
    requires q.More() && Begins(q.Peek())
    ensures StepOf(q) == ParseNode(q, true, false)
  {
    hide ParseNode;
  }

  /** One end marker is part of the document; the others are left. */
  function EndsLeft(n: nat): nat {
    if n == 0 then 0 else n - 1
  }

  lemma EndTokensSplit(n: nat, rest: seq<Token>)
    ensures var after := EndTokens(EndsLeft(n)) + rest;
            EndTokens(n) + rest == if n == 0 then after else [DocumentEndToken] + after
    ensures n == 0 ==> EndTokens(n) + rest == rest
  {
  }

  lemma EndStep(p: Parse, n: nat, rest: seq<Token>, q: Parse)
    requires p.state == AtDocumentEnd && p.states == [] && p.marks == [] && !p.streamEnd
    requires Next(p, EndTokens(n) + rest) && rest != [] && StartsNext(rest[0])
    requires q == Forward(p, n - EndsLeft(n)).(directives := [], state := AtDocumentStart)
    ensures StepOf(p) == Made(DocumentEnd(n == 0), q) && Next(q, EndTokens(EndsLeft(n)) + rest)
  {
    hide Next, EndTokens, MarkCount;
    var after := EndTokens(EndsLeft(n)) + rest;
    EndTokensSplit(n, rest);
    NextHead(p, if n == 0 then rest else [DocumentEndToken] + after);
    if n > 0 {
      NextToken(p, DocumentEndToken, after);
    }
    NextSame(Forward(p, n - EndsLeft(n)), q, after);
    OutsideStates(p);
  }

  lemma OutsideStates(p: Parse)
    requires p.state == AtDocumentEnd && p.states == [] && p.marks == [] && !p.streamEnd && p.head <= |p.tokens|
    ensures Valid(p)
  {
  }

  lemma EndRuns(p: Parse, n: nat, rest: seq<Token>, q: Parse)
    requires p.state == AtDocumentEnd && p.states == [] && p.marks == [] && !p.streamEnd
    requires Next(p, EndTokens(n) + rest) && rest != [] && StartsNext(rest[0])
    requires q == Forward(p, n - EndsLeft(n)).(directives := [], state := AtDocumentStart)
    ensures Runs(p, [DocumentEnd(n == 0)], q) && Next(q, EndTokens(EndsLeft(n)) + rest)
  {
    hide *;
    EndStep(p, n, rest, q);
    GoesOnce(DocumentEnd(n == 0), q);
    RunsNow(p, [DocumentEnd(n == 0)], q);
  }

  lemma DocumentRuns(p: Parse, d: Written, first: bool, rest: seq<Token>, q: Parse)
    requires Outside(p, first) && DocumentFits(d, first)
    requires Next(p, DocumentTokens(d) + rest) && rest != [] && StartsNext(rest[0])
    requires q == Forward(p, |StartTokens(d)| + |Tokens(d.root)| + d.ends - EndsLeft(d.ends)).(state := AtDocumentStart)
    ensures Runs(p, DocumentEvents(d), q) && Outside(q, false) && Next(q, EndTokens(EndsLeft(d.ends)) + rest)
  {
    hide *;
    var ds := InForce(d.tags);
    var inner := EndTokens(d.ends) + rest;
    var content := Tokens(d.root) + inner;
    var a := Started(p, d);
    var b := Finished(p, d);
    OutsideAgain(p, first, q);
    DocumentPlaces(p, d, rest, q);
    DocumentBegins(d, first, inner);
    EndsBegin(d.ends, rest);
    StartGoes(p, d, first, content, a);
    ContentRuns(a, d, first, inner, b);
    NextSplit(a, Tokens(d.root), inner);
    NextSame(Forward(a, |Tokens(d.root)|), b, inner);
    EndRuns(b, d.ends, rest, q);
    NextIsWithin(q, EndTokens(EndsLeft(d.ends)) + rest);
    DocumentJoins(p, d, a, b, q);
  }

  /** After a document's start, and after its root. */
  function Started(p: Parse, d: Written): Parse {
    Forward(p, |StartTokens(d)|).(directives := InForce(d.tags), states := [AtDocumentEnd],
                                  state := if d.explicit then AtDocumentContent else AtBlockNode)
  }

  function Finished(p: Parse, d: Written): Parse {
    Forward(Started(p, d), |Tokens(d.root)|).(state := AtDocumentEnd, states := [])
  }

  lemma DocumentPlaces(p: Parse, d: Written, rest: seq<Token>, q: Parse)
    requires p.directives == [] && p.states == [] && p.marks == [] && !p.streamEnd
    requires q == Forward(p, |StartTokens(d)| + |Tokens(d.root)| + d.ends - EndsLeft(d.ends)).(state := AtDocumentStart)
    ensures var a, b := Started(p, d), Finished(p, d);
            && a == Forward(p, |StartTokens(d)|).(directives := InForce(d.tags), states := [AtDocumentEnd],
                                                  state := if d.explicit then AtDocumentContent else AtBlockNode)
            && a.states == [AtDocumentEnd] && a.marks == [] && !a.streamEnd && a.directives == InForce(d.tags)
            && a.state == (if d.explicit then AtDocumentContent else AtBlockNode)
            && b == Forward(a, |Tokens(d.root)|).(state := AtDocumentEnd, states := [])
            && b.state == AtDocumentEnd && b.states == [] && b.marks == [] && !b.streamEnd
            && b.tokens == a.tokens && b.head == a.head + |Tokens(d.root)|
            && Forward(a, |Tokens(d.root)|).tokens == b.tokens && Forward(a, |Tokens(d.root)|).head == b.head
            && q == Forward(b, d.ends - EndsLeft(d.ends)).(directives := [], state := AtDocumentStart)
            && q == p.(head := q.head, state := AtDocumentStart)
    ensures DocumentTokens(d) + rest == StartTokens(d) + (Tokens(d.root) + (EndTokens(d.ends) + rest))
  {
    hide InForce, StartTokens, Tokens, EndTokens;
  }

  lemma DocumentJoins(p: Parse, d: Written, a: Parse, b: Parse, q: Parse)
    requires StepOf(p) == Made(DocumentStart(d.version, d.tags, false), a)
    requires Runs(a, Events(d.root, InForce(d.tags)), b) && Runs(b, [DocumentEnd(d.ends == 0)], q)
    ensures Runs(p, DocumentEvents(d), q)
  {
    DocumentEventsAre(d);
    hide *;
    var es, end := Events(d.root, InForce(d.tags)), [DocumentEnd(d.ends == 0)];
    RunsThen(a, es, b, end, q);
    GoesOn(DocumentStart(d.version, d.tags, false), a, es + end, q);
    RunsNow(p, DocumentEvents(d), q);
  }

  lemma NextIsWithin(p: Parse, ts: seq<Token>)
    requires Next(p, ts)
    ensures p.head <= |p.tokens|
  {
  }

  lemma OutsideAgain(p: Parse, first: bool, q: Parse)
    requires Outside(p, first)
    ensures p.directives == [] && p.states == [] && p.marks == [] && !p.streamEnd
    ensures q == p.(head := q.head, state := AtDocumentStart) && q.head <= |q.tokens| ==> Outside(q, false)
  {
  }

  lemma DocumentEventsAre(d: Written)
    ensures var es := Events(d.root, InForce(d.tags)) + [DocumentEnd(d.ends == 0)];
            DocumentEvents(d) == [DocumentStart(d.version, d.tags, false)] + es && DocumentEvents(d) != []
  {
    hide Events, InForce;
  }

  lemma DocumentBegins(d: Written, first: bool, inner: seq<Token>)
    requires DocumentFits(d, first)
    ensures !d.explicit ==>
              Tokens(d.root) + inner != [] && Begins((Tokens(d.root) + inner)[0])
  {
    if !d.explicit {
      FirstToken(d.root, InForce(d.tags), true, false);
    }
    hide Fits, Tokens, InForce, Distinct;
  }

  lemma EndsBegin(n: nat, rest: seq<Token>)
    requires rest != [] && StartsNext(rest[0])
    ensures var inner := EndTokens(n) + rest; inner != [] && EndsDocument(inner[0])
  {
  }

  /** What is left of the end markers is skipped before the next document. */
  lemma {:induction false} EndsSkipped(p: Parse, n: nat, rest: seq<Token>)
    requires Next(p, EndTokens(n) + rest) && rest != [] && rest[0] != DocumentEndToken && !p.streamEnd
    ensures SkipDocumentEnds(p) == Forward(p, n) && Next(Forward(p, n), rest)
    decreases n
  {
    hide Next;
    if n == 0 {
      assert EndTokens(n) + rest == rest;
      NextHead(p, rest);
      NextSame(p, Forward(p, 0), rest);
    } else {
      assert EndTokens(n) + rest == [DocumentEndToken] + (EndTokens(n - 1) + rest);
      NextToken(p, DocumentEndToken, EndTokens(n - 1) + rest);
      EndsSkipped(Forward(p, 1), n - 1, rest);
      NextSame(Forward(Forward(p, 1), n - 1), Forward(p, n), rest);
    }
  }

  lemma StepSkipsEnds(p: Parse, n: nat, rest: seq<Token>)
    requires Outside(p, false) && Next(p, EndTokens(n) + rest) && rest != [] && rest[0] != DocumentEndToken
    ensures Outside(Forward(p, n), false) && Next(Forward(p, n), rest) && StepOf(p) == StepOf(Forward(p, n))
  {
    hide Next, ParseDocument;
    EndsSkipped(p, n, rest);
    NextIsWithin(Forward(p, n), rest);
    assert EndTokens(0) + rest == rest;
    NextSame(Forward(p, n), Forward(Forward(p, n), 0), rest);
    EndsSkipped(Forward(p, n), 0, rest);
  }

  function AllDocuments(docs: seq<Written>): seq<Token> {
    if docs == [] then [] else DocumentTokens(docs[0]) + AllDocuments(docs[1..])
  }

  function AllDocumentEvents(docs: seq<Written>): seq<Event> {
    if docs == [] then [] else DocumentEvents(docs[0]) + AllDocumentEvents(docs[1..])
  }

  predicate DocumentsFit(docs: seq<Written>, first: bool) {
    docs == [] || (DocumentFits(docs[0], first) && DocumentsFit(docs[1..], false))
  }

  function StreamTokens(docs: seq<Written>): seq<Token> {
    [StreamStartToken] + (AllDocuments(docs) + [StreamEndToken])
  }

  function StreamEvents(docs: seq<Written>): seq<Event> {
    [StreamStart] + (AllDocumentEvents(docs) + [StreamEnd])
  }

  lemma NextDocument(docs: seq<Written>)
    requires DocumentsFit(docs, false)
    ensures var t := AllDocuments(docs) + [StreamEndToken]; t != [] && StartsNext(t[0]) && t[0] != DocumentEndToken
  {
    if docs != [] {
      assert docs[0].explicit;
      FirstOfStart(docs[0], []);
      assert DocumentTokens(docs[0]) == StartTokens(docs[0]) + (Tokens(docs[0].root) + EndTokens(docs[0].ends));
    }
  }

  lemma StreamEndRuns(p: Parse, first: bool, q: Parse)
    requires Outside(p, first) && Next(p, [StreamEndToken]) && q == Forward(p, 1).(state := AtEnd, streamEnd := true)
    ensures Runs(p, [StreamEnd], q)
  {
    NextHead(p, [StreamEndToken]);
    GoesOnce(StreamEnd, q);
    RunsNow(p, [StreamEnd], q);
  }

  /** The documents from here on, `n` end markers of the one before being left. */
  lemma {:induction false} DocumentsRun(p: Parse, n: nat, docs: seq<Written>, first: bool) returns (q: Parse)
    requires Outside(p, first) && DocumentsFit(docs, first) && (first ==> n == 0)
    requires Next(p, EndTokens(n) + (AllDocuments(docs) + [StreamEndToken]))
    ensures Runs(p, AllDocumentEvents(docs) + [StreamEnd], q) && q.state == AtEnd
    decreases |docs|, 1
  {
    var all := AllDocuments(docs) + [StreamEndToken];
    if first {
      assert EndTokens(n) + all == all;
      q := DocumentsStart(p, docs, first);
    } else {
      NextDocument(docs);
      hide *;
      StepSkipsEnds(p, n, all);
      q := DocumentsStart(Forward(p, n), docs, first);
      EventsGoOn(docs);
      SameRun(p, Forward(p, n), AllDocumentEvents(docs) + [StreamEnd], q);
    }
  }

  lemma EventsGoOn(docs: seq<Written>)
    ensures AllDocumentEvents(docs) + [StreamEnd] != []
  {
  }

  lemma SameRun(p: Parse, p': Parse, es: seq<Event>, q: Parse)
    requires StepOf(p) == StepOf(p') && es != [] && Runs(p', es, q)
    ensures Runs(p, es, q)
  {
    hide StepOf;
  }

  lemma NoDocuments(p: Parse, first: bool, q: Parse)
    requires Outside(p, first) && Next(p, AllDocuments([]) + [StreamEndToken])
    requires q == Forward(p, 1).(state := AtEnd, streamEnd := true)
    ensures Runs(p, AllDocumentEvents([]) + [StreamEnd], q)
  {
    assert AllDocuments([]) + [StreamEndToken] == [StreamEndToken];
    assert AllDocumentEvents([]) + [StreamEnd] == [StreamEnd];
    hide *;
    StreamEndRuns(p, first, q);
  }

  lemma {:induction false} DocumentsStart(p: Parse, docs: seq<Written>, first: bool) returns (q: Parse)
    requires Outside(p, first) && DocumentsFit(docs, first) && Next(p, AllDocuments(docs) + [StreamEndToken])
    ensures Runs(p, AllDocumentEvents(docs) + [StreamEnd], q) && q.state == AtEnd
    decreases |docs|, 0
  {
    hide *;
    if docs == [] {
      q := Forward(p, 1).(state := AtEnd, streamEnd := true);
      NoDocuments(p, first, q);
    } else {
      var d, rest := docs[0], AllDocuments(docs[1..]) + [StreamEndToken];
      var tail := AllDocumentEvents(docs[1..]) + [StreamEnd];
      EndsLeftBound(d.ends);
      var r := Forward(p, |StartTokens(d)| + |Tokens(d.root)| + d.ends - EndsLeft(d.ends)).(state := AtDocumentStart);
      FirstOfAll(docs, first);
      NextDocument(docs[1..]);
      DocumentRuns(p, d, first, rest, r);
      q := DocumentsRun(r, EndsLeft(d.ends), docs[1..], false);
      RunsThen(p, DocumentEvents(d), r, tail, q);
    }
  }

  lemma EndsLeftBound(n: nat)
    ensures EndsLeft(n) <= n
  {
  }

  lemma FirstOfAll(docs: seq<Written>, first: bool)
    requires docs != [] && DocumentsFit(docs, first)
    ensures var d, rest := docs[0], AllDocuments(docs[1..]) + [StreamEndToken];
            && AllDocuments(docs) + [StreamEndToken] == DocumentTokens(d) + rest
            && AllDocumentEvents(docs) + [StreamEnd]
               == DocumentEvents(d) + (AllDocumentEvents(docs[1..]) + [StreamEnd])
            && DocumentFits(d, first) && DocumentsFit(docs[1..], false)
  {
    hide DocumentTokens, DocumentEvents, DocumentFits;
  }

  lemma ParsedOnce(p: Parse, e: Event, q: Parse)
    requires Valid(p) && StepOf(p) == Made(e, q)
    ensures Valid(q) && Parsed(p) == Run([e] + Parsed(q).events, Parsed(q).ok)
  {
    StepKeeps(p);
    StepLeaves(p);
  }

  /** A run of the parser, as one that goes on. */
  lemma {:induction false} RunsParsed(p: Parse, es: seq<Event>, q: Parse)
    requires Valid(p) && Runs(p, es, q)
    ensures Valid(q) && Parsed(p) == After(es, q)
    decreases |es|
  {
    hide StepOf, Valid, Parsed;
    if es == [] {
      assert [] + Parsed(p).events == Parsed(p).events;
    } else {
      var r := StepOf(p).next;
      ParsedOnce(p, es[0], r);
      RunsParsed(r, es[1..], q);
      assert es == [es[0]] + es[1..];
      assert es + Parsed(q).events == [es[0]] + (es[1..] + Parsed(q).events);
    }
  }

  /** Every stream that the grammar has, written in any way that it has, is parsed to exactly its events. */
  lemma ParseOfStream(docs: seq<Written>)
    requires DocumentsFit(docs, true)
    ensures Valid(Start(StreamTokens(docs)))
    ensures Parsed(Start(StreamTokens(docs))) == Run(StreamEvents(docs), true)
  {
    hide *;
    var p := Start(StreamTokens(docs));
    var a := Forward(p, 1).(state := AtImplicitDocumentStart);
    var es := AllDocumentEvents(docs) + [StreamEnd];
    StreamParts(docs);
    StreamStarts(p, AllDocuments(docs) + [StreamEndToken], a);
    var q := DocumentsRun(a, 0, docs, true);
    GoesOn(StreamStart, a, es, q);
    RunsNow(p, [StreamStart] + es, q);
    RunsParsed(p, [StreamStart] + es, q);
    AllParsed(StreamEvents(docs), q);
  }

  lemma StreamParts(docs: seq<Written>)
    ensures var rest := AllDocuments(docs) + [StreamEndToken];
            StreamTokens(docs) == [StreamStartToken] + rest && EndTokens(0) + rest == rest
    ensures StreamEvents(docs) == [StreamStart] + (AllDocumentEvents(docs) + [StreamEnd])
  {
  }

  lemma AllParsed(es: seq<Event>, q: Parse)
    requires Valid(q) && q.state == AtEnd
    ensures After(es, q) == Run(es, true)
  {
    assert es + [] == es;
  }

  lemma StreamStarts(p: Parse, rest: seq<Token>, a: Parse)
    requires p == Start([StreamStartToken] + rest) && a == Forward(p, 1).(state := AtImplicitDocumentStart)
    ensures Valid(p) && StepOf(p) == Made(StreamStart, a) && Next(a, rest) && Outside(a, true)
  {
    assert Next(p, [StreamStartToken] + rest);
    NextToken(p, StreamStartToken, rest);
    NextSame(Forward(p, 1), a, rest);
  }
}
