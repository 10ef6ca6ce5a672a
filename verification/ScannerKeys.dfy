/** Simple keys and indentation (scannerc.go): which tokens the scanner puts into its queue, and where.

  What the scanner makes of the characters is taken as given: a `Lexeme` is what it recognises next, with
  the marks it has there.  The queue is the sequence that `TokenQueue` is proved to be. */
module ScannerKeys {
  datatype Mark = Mark(index: nat, line: nat, column: nat)

  datatype Kind =
    | StreamStart | StreamEnd | Directive | DocumentStart | DocumentEnd
    | BlockSequenceStart | BlockMappingStart | BlockEnd
    | FlowSequenceStart | FlowSequenceEnd | FlowMappingStart | FlowMappingEnd
    | BlockEntry | FlowEntry | Key | Value
    | Alias | Anchor | Tag | Scalar | BlockScalar

  datatype Token = Token(kind: Kind, start: Mark)

  datatype SimpleKey = SimpleKey(possible: bool, required: bool, number: int, mark: Mark)

  /** The next thing in the text: its kind, the mark it starts and ends at, whether a line break was skipped
      before it, and whether scanning it succeeds. */
  datatype Lexeme = Lexeme(kind: Kind, mark: Mark, end: Mark, newline: bool, good: bool)

  datatype Scan = Scan(
    log: seq<Token>,          // the tokens dequeued so far
    queue: seq<Token>,
    keys: seq<SimpleKey>,     // one for each flow level
    flow: nat,
    indent: int,
    indents: seq<int>,
    allowed: bool,            // simple_key_allowed
    started: bool,
    mark: Mark)

  /** A scanner error, or an index out of range or an explicit panic. */
  datatype Result = Ok(z: Scan) | Error | Panic {
    predicate IsFailure() {
      !Ok?
    }

    function PropagateFailure(): Result {
      this
    }

    function Extract(): Scan
      requires Ok?
    {
      z
    }
  }

  const NO_KEY := SimpleKey(false, false, 0, Mark(0, 0, 0))

  /** `yaml_insert_token` with a token of the parser's own. */
  function Insert(z: Scan, pos: int, t: Token): Result {
    if pos < 0 then Ok(z.(queue := z.queue + [t]))
    else if pos > |z.queue| then Panic
    else Ok(z.(queue := z.queue[..pos] + [t] + z.queue[pos..]))
  }

  function Append(z: Scan, kind: Kind, start: Mark): Scan {
    z.(queue := z.queue + [Token(kind, start)])
  }

  predicate Stale(k: SimpleKey, mark: Mark) {
    k.possible && (k.mark.line < mark.line || k.mark.index + 1024 < mark.index)
  }

  /** `yaml_parser_stale_simple_keys`, the first `n` keys. */
  function DropStale(z: Scan, n: nat): Result
    requires n <= |z.keys|
    ensures var r := DropStale(z, n); r.Ok? ==> |r.z.keys| == |z.keys|
  {
    if n == 0 then Ok(z)
    else
      var z1 :- DropStale(z, n - 1);
      var k := z1.keys[n - 1];
      if !Stale(k, z1.mark) then Ok(z1)
      else if k.required then Error
      else Ok(z1.(keys := z1.keys[n - 1 := k.(possible := false)]))
  }

  /** `yaml_parser_remove_simple_key`. */
  function RemoveKey(z: Scan): Result {
    if z.keys == [] then Panic
    else
      var i := |z.keys| - 1;
      if z.keys[i].possible && z.keys[i].required then Error
      else Ok(z.(keys := z.keys[i := z.keys[i].(possible := false)]))
  }

  /** `yaml_parser_save_simple_key`, its "should not happen" included. */
  function SaveKey(z: Scan): Result {
    var required := z.flow == 0 && z.indent == z.mark.column;
    if required && !z.allowed then Panic
    else if !z.allowed then Ok(z)
    else
      var z1 :- RemoveKey(z);
      if z1.keys == [] then Panic
      else Ok(z1.(keys := z1.keys[|z1.keys| - 1 := SimpleKey(true, required, |z1.log| + |z1.queue|, z1.mark)]))
  }

  /** `yaml_parser_roll_indent`. */
  function RollIndent(z: Scan, column: int, number: int, kind: Kind, mark: Mark): Result {
    if z.flow > 0 || z.indent >= column then Ok(z)
    else
      var pos := if number > -1 then number - |z.log| else number;
      Insert(z.(indents := z.indents + [z.indent], indent := column), pos, Token(kind, mark))
  }

  /** `yaml_parser_unroll_indent`, its loop. */
  function UnrollIndent(z: Scan, column: int): Result
    decreases |z.indents|
  {
    if z.flow > 0 || z.indent <= column then Ok(z)
    else if z.indents == [] then Panic
    else
      var n := |z.indents| - 1;
      UnrollIndent(Append(z, BlockEnd, z.mark).(indent := z.indents[n], indents := z.indents[..n]), column)
  }

  /** Ends a fetch: the token is put and the scanner stands after it. */
  function Finish(z: Scan, lex: Lexeme): Result {
    if !lex.good then Error else Ok(Append(z, lex.kind, z.mark).(mark := lex.end))
  }

  function FetchStreamStart(z: Scan): Result {
    Ok(Append(z.(indent := -1, keys := z.keys + [NO_KEY], allowed := true, started := true), StreamStart, z.mark))
  }

  function FetchStreamEnd(z: Scan): Result {
    var mark := if z.mark.column == 0 then z.mark else Mark(z.mark.index, z.mark.line + 1, 0);
    var z1 :- UnrollIndent(z.(mark := mark), -1);
    var z2 :- RemoveKey(z1);
    Ok(Append(z2.(allowed := false), StreamEnd, z2.mark))
  }

  /** A directive or a document indicator. */
  function FetchDocument(z: Scan, lex: Lexeme): Result {
    var z1 :- UnrollIndent(z, -1);
    var z2 :- RemoveKey(z1);
    Finish(z2.(allowed := false), lex)
  }

  function FetchFlowStart(z: Scan, lex: Lexeme): Result {
    var z1 :- SaveKey(z);
    Finish(z1.(keys := z1.keys + [NO_KEY], flow := z1.flow + 1, allowed := true), lex)
  }

  function FetchFlowEnd(z: Scan, lex: Lexeme): Result {
    var z1 :- RemoveKey(z);
    var z2 := if z1.flow > 0 && z1.keys != [] then z1.(flow := z1.flow - 1, keys := z1.keys[..|z1.keys| - 1]) else z1;
    Finish(z2.(allowed := false), lex)
  }

  function FetchFlowEntry(z: Scan, lex: Lexeme): Result {
    var z1 :- RemoveKey(z);
    Finish(z1.(allowed := true), lex)
  }

  function FetchBlockEntry(z: Scan, lex: Lexeme): Result {
    if z.flow == 0 && !z.allowed then Error
    else
      var z1 :- if z.flow == 0 then RollIndent(z, z.mark.column, -1, BlockSequenceStart, z.mark) else Ok(z);
      var z2 :- RemoveKey(z1);
      Finish(z2.(allowed := true), lex)
  }

  function FetchKey(z: Scan, lex: Lexeme): Result {
    if z.flow == 0 && !z.allowed then Error
    else
      var z1 :- if z.flow == 0 then RollIndent(z, z.mark.column, -1, BlockMappingStart, z.mark) else Ok(z);
      var z2 :- RemoveKey(z1);
      Finish(z2.(allowed := z2.flow == 0), lex)
  }

  /** The part of `yaml_parser_fetch_value` for a simple key: KEY, and BLOCK-MAPPING-START before it. */
  function InsertKey(z: Scan): Result {
    if z.keys == [] then Panic
    else
      var n := |z.keys| - 1;
      var k := z.keys[n];
      var z1 :- Insert(z, k.number - |z.log|, Token(Key, k.mark));
      var z2 :- RollIndent(z1, k.mark.column, k.number, BlockMappingStart, k.mark);
      if |z2.keys| <= n then Panic
      else Ok(z2.(keys := z2.keys[n := z2.keys[n].(possible := false)], allowed := false))
  }

  function FetchValue(z: Scan, lex: Lexeme): Result {
    if z.keys == [] then Panic
    else if z.keys[|z.keys| - 1].possible then
      var z1 :- InsertKey(z);
      Finish(z1, lex)
    else if z.flow == 0 && !z.allowed then Error
    else
      var z1 :- if z.flow == 0 then RollIndent(z, z.mark.column, -1, BlockMappingStart, z.mark) else Ok(z);
      Finish(z1.(allowed := z1.flow == 0), lex)
  }

  /** An alias, an anchor, a tag, or a flow or plain scalar, any of which may be a simple key. */
  function FetchContent(z: Scan, lex: Lexeme): Result {
    var z1 :- SaveKey(z);
    Finish(z1.(allowed := false), lex)
  }

  function FetchBlockScalar(z: Scan, lex: Lexeme): Result {
    var z1 :- RemoveKey(z);
    Finish(z1.(allowed := true), lex.(kind := Scalar))
  }

  /** The fetchers by what comes next. */
  function Dispatch(z: Scan, lex: Lexeme): Result {
    match lex.kind
    case StreamEnd => FetchStreamEnd(z)
    case Directive => FetchDocument(z, lex)
    case DocumentStart => FetchDocument(z, lex)
    case DocumentEnd => FetchDocument(z, lex)
    case FlowSequenceStart => FetchFlowStart(z, lex)
    case FlowMappingStart => FetchFlowStart(z, lex)
    case FlowSequenceEnd => FetchFlowEnd(z, lex)
    case FlowMappingEnd => FetchFlowEnd(z, lex)
    case FlowEntry => FetchFlowEntry(z, lex)
    case BlockEntry => FetchBlockEntry(z, lex)
    case Key => FetchKey(z, lex)
    case Value => FetchValue(z, lex)
    case Alias => FetchContent(z, lex)
    case Anchor => FetchContent(z, lex)
    case Tag => FetchContent(z, lex)
    case Scalar => FetchContent(z, lex)
    case BlockScalar => FetchBlockScalar(z, lex)
    case _ => Error
  }

  /** `yaml_parser_fetch_next_token`. */
  function FetchNext(z: Scan, lex: Lexeme): Result {
    if !z.started then FetchStreamStart(z)
    else
      var z1 := z.(mark := lex.mark, allowed := z.allowed || (lex.newline && z.flow == 0));
      var z2 :- DropStale(z1, |z1.keys|);
      var z3 :- UnrollIndent(z2, lex.mark.column);
      Dispatch(z3, lex)
  }

  /** Whether a possible key may still need a token before the head of the queue. */
  predicate HeadIsKey(z: Scan) {
    exists i | 0 <= i < |z.keys| :: z.keys[i].possible && z.keys[i].number == |z.log|
  }

  /** Whether `yaml_parser_fetch_more_tokens` stops, stale keys having been dropped. */
  predicate HeadIsReady(z: Scan) {
    z.queue != [] && !HeadIsKey(z)
  }

  /** Takes the token at the head of the queue. */
  function Dequeue(z: Scan): Scan
    requires z.queue != []
  {
    z.(log := z.log + [z.queue[0]], queue := z.queue[1..])
  }

  datatype Status = Good | Failed | Panicked

  /** A method ended as `spec` says, leaving the state it says when it succeeds. */
  ghost predicate Ends(status: Status, value: Scan, spec: Result) {
    match spec
    case Ok(z) => status == Good && value == z
    case Error => status == Failed
    case Panic => status == Panicked
  }

  /** The part of `yaml_parser_t` that is about tokens, keys and levels. */
  class Scanner {
    ghost var log: seq<Token>
    var parsed: nat
    var queue: seq<Token>
    var keys: seq<SimpleKey>
    var flow: nat
    var indent: int
    var indents: seq<int>
    var allowed: bool
    var started: bool
    var mark: Mark

    constructor ()
      ensures Valid() && Value() == Scan([], [], [], 0, 0, [], false, false, Mark(0, 0, 0))
    {
      log, parsed, queue, keys, flow, indent, indents := [], 0, [], [], 0, 0, [];
      allowed, started, mark := false, false, Mark(0, 0, 0);
    }

    ghost predicate Valid()
      reads this
    {
      parsed == |log|
    }

    ghost function Value(): Scan
      reads this
    {
      Scan(log, queue, keys, flow, indent, indents, allowed, started, mark)
    }

    method InsertToken(pos: int, t: Token) returns (r: Status)
      requires Valid()
      modifies this`queue
      ensures Valid() && Ends(r, Value(), Insert(old(Value()), pos, t))
    {
      if pos > |queue| {
        return Panicked;
      }
      queue := if pos < 0 then queue + [t] else queue[..pos] + [t] + queue[pos..];
      r := Good;
    }

    method StaleSimpleKeys() returns (r: Status)
      requires Valid()
      modifies this`keys
      ensures Valid() && Ends(r, Value(), DropStale(old(Value()), |old(keys)|))
    {
      for i := 0 to |keys|
        invariant |keys| == |old(keys)|
        invariant DropStale(old(Value()), i) == Ok(Value())
      {
        if Stale(keys[i], mark) {
          if keys[i].required {
            ErrorStays(old(Value()), i + 1, |keys|);
            return Failed;
          }
          keys := keys[i := keys[i].(possible := false)];
        }
      }
      r := Good;
    }

    method RemoveSimpleKey() returns (r: Status)
      requires Valid()
      modifies this`keys
      ensures Valid() && Ends(r, Value(), RemoveKey(old(Value())))
    {
      if keys == [] {
        return Panicked;
      }
      var i := |keys| - 1;
      if keys[i].possible && keys[i].required {
        return Failed;
      }
      keys := keys[i := keys[i].(possible := false)];
      r := Good;
    }

    method SaveSimpleKey() returns (r: Status)
      requires Valid()
      modifies this`keys
      ensures Valid() && Ends(r, Value(), SaveKey(old(Value())))
    {
      var required := flow == 0 && indent == mark.column;
      if required && !allowed {
        return Panicked;
      }
      if !allowed {
        return Good;
      }
      var key := SimpleKey(true, required, parsed + |queue|, mark);
      r := RemoveSimpleKey();
      if r == Good {
        keys := keys[|keys| - 1 := key];
      }
    }

    method RollIndentTo(column: int, number: int, kind: Kind, start: Mark) returns (r: Status)
      requires Valid()
      modifies this`queue, this`indent, this`indents
      ensures Valid() && Ends(r, Value(), RollIndent(old(Value()), column, number, kind, start))
    {
      if flow > 0 || indent >= column {
        return Good;
      }
      indents := indents + [indent];
      indent := column;
      r := InsertToken(if number > -1 then number - parsed else number, Token(kind, start));
    }

    method UnrollIndentTo(column: int) returns (r: Status)
      requires Valid()
      modifies this`queue, this`indent, this`indents
      ensures Valid() && Ends(r, Value(), UnrollIndent(old(Value()), column))
    {
      if flow > 0 {
        return Good;
      }
      while indent > column
        invariant Valid() && flow == 0
        invariant UnrollIndent(Value(), column) == UnrollIndent(old(Value()), column)
        decreases |indents|, indent > column
      {
        if indents == [] {
          return Panicked;
        }
        queue := queue + [Token(BlockEnd, mark)];
        indent := indents[|indents| - 1];
        indents := indents[..|indents| - 1];
      }
      r := Good;
    }

    method FinishFetch(lex: Lexeme) returns (r: Status)
      requires Valid()
      modifies this`queue, this`mark
      ensures Valid() && Ends(r, Value(), Finish(old(Value()), lex))
    {
      if !lex.good {
        return Failed;
      }
      queue := queue + [Token(lex.kind, mark)];
      mark := lex.end;
      r := Good;
    }

    method FetchTheStreamEnd() returns (r: Status)
      requires Valid()
      modifies this
      ensures Valid() && Ends(r, Value(), FetchStreamEnd(old(Value())))
    {
      if mark.column != 0 {
        mark := Mark(mark.index, mark.line + 1, 0);
      }
      r := UnrollIndentTo(-1);
      if r == Good {
        r := RemoveSimpleKey();
        if r == Good {
          allowed := false;
          queue := queue + [Token(StreamEnd, mark)];
        }
      }
    }

    method FetchDocumentToken(lex: Lexeme) returns (r: Status)
      requires Valid()
      modifies this
      ensures Valid() && Ends(r, Value(), FetchDocument(old(Value()), lex))
    {
      r := UnrollIndentTo(-1);
      if r == Good {
        r := RemoveSimpleKey();
        if r == Good {
          allowed := false;
          r := FinishFetch(lex);
        }
      }
    }

    method FetchFlowCollectionStart(lex: Lexeme) returns (r: Status)
      requires Valid()
      modifies this
      ensures Valid() && Ends(r, Value(), FetchFlowStart(old(Value()), lex))
    {
      r := SaveSimpleKey();
      if r == Good {
        keys, flow := keys + [NO_KEY], flow + 1;
        allowed := true;
        r := FinishFetch(lex);
      }
    }

    method FetchFlowCollectionEnd(lex: Lexeme) returns (r: Status)
      requires Valid()
      modifies this
      ensures Valid() && Ends(r, Value(), FetchFlowEnd(old(Value()), lex))
    {
      r := RemoveSimpleKey();
      if r == Good {
        if flow > 0 && keys != [] {
          keys, flow := keys[..|keys| - 1], flow - 1;
        }
        allowed := false;
        r := FinishFetch(lex);
      }
    }

    /** ',' and block scalars: no key survives them and one may follow. */
    method FetchSeparator(lex: Lexeme) returns (r: Status)
      requires Valid()
      modifies this
      ensures Valid() && Ends(r, Value(), FetchFlowEntry(old(Value()), lex))
    {
      r := RemoveSimpleKey();
      if r == Good {
        allowed := true;
        r := FinishFetch(lex);
      }
    }

    /** '-' and '?'. */
    method FetchBlockIndicator(lex: Lexeme) returns (r: Status)
      requires Valid() && (lex.kind == BlockEntry || lex.kind == Key)
      modifies this
      ensures Valid()
      ensures Ends(r, Value(),
                if lex.kind == Key then FetchKey(old(Value()), lex) else FetchBlockEntry(old(Value()), lex))
    {
      if flow == 0 {
        if !allowed {
          return Failed;
        }
        r := RollIndentTo(mark.column, -1, if lex.kind == Key then BlockMappingStart else BlockSequenceStart, mark);
        if r != Good {
          return;
        }
      }
      r := RemoveSimpleKey();
      if r == Good {
        allowed := lex.kind == BlockEntry || flow == 0;
        r := FinishFetch(lex);
      }
    }

    method InsertSimpleKey() returns (r: Status)
      requires Valid()
      modifies this
      ensures Valid() && Ends(r, Value(), InsertKey(old(Value())))
    {
      if keys == [] {
        return Panicked;
      }
      var n := |keys| - 1;
      r := InsertToken(keys[n].number - parsed, Token(Key, keys[n].mark));
      if r == Good {
        r := RollIndentTo(keys[n].mark.column, keys[n].number, BlockMappingStart, keys[n].mark);
        if r == Good {
          keys := keys[n := keys[n].(possible := false)];
          allowed := false;
        }
      }
    }

    method FetchValueToken(lex: Lexeme) returns (r: Status)
      requires Valid()
      modifies this
      ensures Valid() && Ends(r, Value(), FetchValue(old(Value()), lex))
    {
      if keys == [] {
        return Panicked;
      }
      if keys[|keys| - 1].possible {
        r := InsertSimpleKey();
      } else {
        r := Good;
        if flow == 0 {
          if !allowed {
            return Failed;
          }
          r := RollIndentTo(mark.column, -1, BlockMappingStart, mark);
        }
        allowed := flow == 0;
      }
      if r == Good {
        r := FinishFetch(lex);
      }
    }

    method FetchContentToken(lex: Lexeme) returns (r: Status)
      requires Valid()
      modifies this
      ensures Valid() && Ends(r, Value(), FetchContent(old(Value()), lex))
    {
      r := SaveSimpleKey();
      if r == Good {
        allowed := false;
        r := FinishFetch(lex);
      }
    }

    method DispatchToken(lex: Lexeme) returns (r: Status)
      requires Valid()
      modifies this
      ensures Valid() && Ends(r, Value(), Dispatch(old(Value()), lex))
    {
      match lex.kind {
        case StreamEnd => r := FetchTheStreamEnd();
        case Directive | DocumentStart | DocumentEnd => r := FetchDocumentToken(lex);
        case FlowSequenceStart | FlowMappingStart => r := FetchFlowCollectionStart(lex);
        case FlowSequenceEnd | FlowMappingEnd => r := FetchFlowCollectionEnd(lex);
        case FlowEntry => r := FetchSeparator(lex);
        case BlockScalar => r := FetchSeparator(lex.(kind := Scalar));
        case BlockEntry | Key => r := FetchBlockIndicator(lex);
        case Value => r := FetchValueToken(lex);
        case Alias | Anchor | Tag | Scalar => r := FetchContentToken(lex);
        case _ => r := Failed;
      }
    }

    method FetchNextToken(lex: Lexeme) returns (r: Status)
      requires Valid()
      modifies this
      ensures Valid() && Ends(r, Value(), FetchNext(old(Value()), lex))
    {
      if !started {
        indent, keys, allowed, started := -1, keys + [NO_KEY], true, true;
        queue := queue + [Token(StreamStart, mark)];
        return Good;
      }
      mark, allowed := lex.mark, allowed || (lex.newline && flow == 0);
      r := StaleSimpleKeys();
      if r != Good {
        return;
      }
      r := UnrollIndentTo(lex.mark.column);
      if r != Good {
        return;
      }
      r := DispatchToken(lex);
    }

    method TakeToken() returns (t: Token)
      requires Valid() && queue != []
      modifies this
      ensures Valid() && t == old(queue)[0] && Value() == Dequeue(old(Value()))
    {
      t := queue[0];
      log := log + [t];
      queue, parsed := queue[1..], parsed + 1;
    }
  }

  lemma ErrorStays(z: Scan, n: nat, m: nat)
    requires n <= m <= |z.keys| && DropStale(z, n) == Error
    ensures DropStale(z, m) == Error
  {
    if n < m {
      ErrorStays(z, n, m - 1);
    }
  }
}
