/** A text on which the scanner reaches its own "should not happen" (`yaml_parser_save_simple_key`). */
module ScannerPanic {
  import opened ScannerKeys
  import opened ScannerInvariants

  // The text " a: [" / "]c": the "]" of a flow sequence begins a line left of the level of "a", and "c"
  // follows at that level.

  const LEX_A := Lexeme(Scalar, Mark(1, 0, 1), Mark(2, 0, 2), false, true)
  const LEX_COLON := Lexeme(Value, Mark(2, 0, 2), Mark(3, 0, 3), false, true)
  const LEX_OPEN := Lexeme(FlowSequenceStart, Mark(4, 0, 4), Mark(5, 0, 5), false, true)
  const LEX_CLOSE := Lexeme(FlowSequenceEnd, Mark(6, 1, 0), Mark(7, 1, 1), true, true)
  const LEX_C := Lexeme(Scalar, Mark(7, 1, 1), Mark(8, 1, 2), false, true)

  const STREAM := [Token(StreamStart, START)]
  const PAIR := [Token(BlockMappingStart, LEX_A.mark), Token(Key, LEX_A.mark), Token(Scalar, LEX_A.mark),
    Token(Value, LEX_COLON.mark)]
  const OPEN := [Token(FlowSequenceStart, LEX_OPEN.mark)]
  const CLOSE := [Token(FlowSequenceEnd, LEX_CLOSE.mark)]
  const USED := SimpleKey(false, false, 1, LEX_A.mark)

  /** The scanner before "a", before "[", before "]" and before "c", everything before dequeued. */
  const BEFORE_A := Scan(STREAM, [], [NO_KEY], 0, -1, [], true, true, START)
  const BEFORE_OPEN := Scan(STREAM + PAIR, [], [USED], 0, 1, [-1], false, true, LEX_COLON.end)
  const BEFORE_CLOSE := Scan(STREAM + PAIR + OPEN, [], [USED, NO_KEY], 1, 1, [-1], true, true, LEX_OPEN.end)
  const BEFORE_C := Scan(STREAM + PAIR + OPEN + CLOSE, [], [USED], 0, 1, [-1], false, true, LEX_CLOSE.end)

  lemma {:induction false} RunJoins(z: Scan, run: seq<Action>, more: seq<Action>)
    requires Run(z, run).Ok?
    ensures Run(z, run + more) == Run(Run(z, run).z, more)
    decreases |run|
  {
    if run == [] {
      assert run + more == more;
    } else {
      assert (run + more)[1..] == run[1..] + more;
      RunJoins(Step(z, run[0]).z, run[1..], more);
    }
  }

  lemma {:induction false} TakeAll(z: Scan, n: nat) returns (run: seq<Action>)
    requires n == |z.queue| && forall i | 0 <= i < |z.keys| :: !z.keys[i].possible
    ensures Run(z, run) == Ok(z.(log := z.log + z.queue, queue := []))
    decreases n
  {
    if n == 0 {
      run := [];
      assert z.log + z.queue == z.log;
    } else {
      var rest := TakeAll(Dequeue(z), n - 1);
      run := [Take] + rest;
      assert run[1..] == rest;
      assert z.log + [z.queue[0]] + z.queue[1..] == z.log + z.queue;
    }
  }

  /** One fetch and the dequeues after it. */
  lemma FetchAndTake(z0: Scan, run0: seq<Action>, lex: Lexeme, z: Scan) returns (run: seq<Action>)
    requires Run(Initial(), run0) == Ok(z0) && !HeadIsReady(z0) && FetchNext(z0, lex) == Ok(z)
    requires forall i | 0 <= i < |z.keys| :: !z.keys[i].possible
    ensures Run(Initial(), run) == Ok(z.(log := z.log + z.queue, queue := []))
  {
    var takes := TakeAll(z, |z.queue|);
    run := run0 + [Fetch(lex)] + takes;
    assert Run(z0, [Fetch(lex)]) == Ok(z);
    RunJoins(Initial(), run0, [Fetch(lex)]);
    RunJoins(Initial(), run0 + [Fetch(lex)], takes);
  }

  lemma ScansA() returns (run: seq<Action>)
    ensures Run(Initial(), run) == Ok(Scan(STREAM, [Token(Scalar, LEX_A.mark)], [SimpleKey(true, false, 1, LEX_A.mark)],
                                           0, -1, [], false, true, LEX_A.end))
  {
    var z1 := BEFORE_A.(log := [], queue := STREAM);
    assert FetchNext(Initial(), LEX_A) == Ok(z1);
    var run1 := FetchAndTake(Initial(), [], LEX_A, z1);
    var z2 := BEFORE_A.(mark := LEX_A.mark);
    assert z2.flow == 0 && z2.indent == -1 && z2.allowed && z2.mark == LEX_A.mark;
    assert DropStale(z2, 1) == Ok(z2);
    assert UnrollIndent(z2, 1) == Ok(z2);
    assert SaveKey(z2) == Ok(z2.(keys := [SimpleKey(true, false, 1, LEX_A.mark)]));
    assert [] + STREAM == STREAM;
    run := run1 + [Fetch(LEX_A)];
    RunJoins(Initial(), run1, [Fetch(LEX_A)]);
    assert Run(BEFORE_A, [Fetch(LEX_A)]) == FetchNext(BEFORE_A, LEX_A);
  }

  /** Before ":" the key and the mapping that it starts are put before "a". */
  lemma InsertsKey(z1: Scan, z2: Scan)
    requires z1 == Scan(STREAM, [Token(Scalar, LEX_A.mark)], [SimpleKey(true, false, 1, LEX_A.mark)], 0, -1, [],
                        false, true, LEX_COLON.mark)
    requires z2 == z1.(queue := PAIR[..3], keys := [USED], indents := [-1], indent := 1)
    ensures InsertKey(z1) == Ok(z2)
  {
    var t := z1.(queue := PAIR[1..3]);
    assert Insert(z1, 0, Token(Key, LEX_A.mark)) == Ok(t);
    assert Insert(t, 0, Token(BlockMappingStart, LEX_A.mark)) == Ok(z1.(queue := PAIR[..3]));
    assert t.(indents := [-1], indent := 1).indents == t.indents + [-1];
  }

  lemma ScansColon() returns (run: seq<Action>)
    ensures Run(Initial(), run) == Ok(BEFORE_OPEN)
  {
    var run1 := ScansA();
    var z := Run(Initial(), run1).z;
    var z1 := z.(mark := LEX_COLON.mark);
    assert z.keys[0].possible && z.keys[0].number == |z.log|;
    assert z1.flow == 0 && z1.indent == -1 && z1.keys == [SimpleKey(true, false, 1, LEX_A.mark)];
    assert DropStale(z1, 1) == Ok(z1);
    assert UnrollIndent(z1, 2) == Ok(z1);
    var z2 := z1.(queue := PAIR[..3], keys := [USED], indents := [-1], indent := 1);
    InsertsKey(z1, z2);
    var z3 := z2.(queue := PAIR, mark := LEX_COLON.end);
    assert PAIR[..3] + [Token(Value, LEX_COLON.mark)] == PAIR;
    assert FetchNext(z, LEX_COLON) == Ok(z3);
    run := FetchAndTake(z, run1, LEX_COLON, z3);
  }

  lemma ScansOpen() returns (run: seq<Action>)
    ensures Run(Initial(), run) == Ok(BEFORE_CLOSE)
  {
    var run1 := ScansColon();
    var z1 := BEFORE_OPEN.(mark := LEX_OPEN.mark);
    assert z1.flow == 0 && z1.indent == 1 && !z1.allowed && z1.mark.column == 4;
    assert DropStale(z1, 1) == Ok(z1);
    assert UnrollIndent(z1, 4) == Ok(z1);
    assert SaveKey(z1) == Ok(z1);
    assert [USED] + [NO_KEY] == [USED, NO_KEY] && [] + OPEN == OPEN;
    run := FetchAndTake(BEFORE_OPEN, run1, LEX_OPEN, BEFORE_CLOSE.(log := STREAM + PAIR, queue := OPEN));
  }

  lemma ScansClose() returns (run: seq<Action>)
    ensures Run(Initial(), run) == Ok(BEFORE_C)
  {
    var run1 := ScansOpen();
    var z1 := BEFORE_CLOSE.(mark := LEX_CLOSE.mark);
    assert z1.flow == 1 && !z1.keys[0].possible && !z1.keys[1].possible;
    assert DropStale(z1, 1) == Ok(z1);
    assert DropStale(z1, 2) == Ok(z1);
    assert UnrollIndent(z1, 0) == Ok(z1);
    assert [USED, NO_KEY][1 := NO_KEY] == [USED, NO_KEY];
    assert RemoveKey(z1) == Ok(z1);
    assert [USED, NO_KEY][..1] == [USED] && [] + CLOSE == CLOSE;
    run := FetchAndTake(BEFORE_CLOSE, run1, LEX_CLOSE, BEFORE_C.(log := STREAM + PAIR + OPEN, queue := CLOSE));
  }

  /** The scanner does get there: on that text it panics when it comes to "c". */
  lemma ShouldNotHappenHappens() returns (run: seq<Action>)
    ensures Run(Initial(), run) == Ok(BEFORE_C) && !HeadIsReady(BEFORE_C)
    ensures ShouldNotHappen(BEFORE_C, LEX_C) && FetchNext(BEFORE_C, LEX_C).Panic?
  {
    run := ScansClose();
    RunKeepsInv(Initial(), run);
    assert (BEFORE_C.indents + [BEFORE_C.indent])[1] == 1;
    FetchKeepsInv(BEFORE_C, LEX_C);
  }
}
