/** What every state of the scanner keeps: where simple keys point, how the indentation levels lie, and how
  many block collections are open. */
module ScannerInvariants {
  import opened ScannerKeys

  /** Collections a token opens, less those it closes. */
  function Weight(kind: Kind): int {
    match kind
    case BlockSequenceStart => 1
    case BlockMappingStart => 1
    case BlockEnd => -1
    case _ => 0
  }

  function Balance(s: seq<Token>): int {
    if s == [] then 0 else Balance(s[..|s| - 1]) + Weight(s[|s| - 1].kind)
  }

  /** The token a possible key points at is in the queue, and starts where the key does. */
  ghost predicate KeyOk(z: Scan, k: SimpleKey) {
    k.possible ==>
      && |z.log| <= k.number < |z.log| + |z.queue|
      && z.queue[k.number - |z.log|].start == k.mark
  }

  /** The token a key points at may also be the one about to be put. */
  ghost predicate KeyPending(z: Scan, k: SimpleKey) {
    KeyOk(z, k) || (k.number == |z.log| + |z.queue| && k.mark == z.mark)
  }

  ghost predicate Increasing(keys: seq<SimpleKey>) {
    forall i, j | 0 <= i < j < |keys| && keys[i].possible && keys[j].possible :: keys[i].number < keys[j].number
  }

  ghost predicate KeysInv(z: Scan) {
    Increasing(z.keys) && forall i | 0 <= i < |z.keys| :: KeyOk(z, z.keys[i])
  }

  ghost predicate KeysPending(z: Scan) {
    Increasing(z.keys) && forall i | 0 <= i < |z.keys| :: KeyPending(z, z.keys[i])
  }

  /** The levels, with the current one on top, go up from -1. */
  ghost predicate Levels(s: seq<int>) {
    s != [] && s[0] == -1 && forall i, j | 0 <= i < j < |s| :: s[i] < s[j]
  }

  ghost predicate IndentInv(z: Scan) {
    Levels(z.indents + [z.indent]) && Balance(z.log + z.queue) == |z.indents|
  }

  /** A started scanner within a fetch. */
  ghost predicate MidInv(z: Scan) {
    z.started && |z.keys| == z.flow + 1 && IndentInv(z)
  }

  ghost predicate Inv(z: Scan) {
    if z.started then MidInv(z) && KeysInv(z)
    else z.log == z.queue == [] && z.keys == [] && z.flow == 0 && z.indents == []
  }

  lemma {:induction false} BalanceOfJoin(a: seq<Token>, b: seq<Token>)
    ensures Balance(a + b) == Balance(a) + Balance(b)
  {
    if b == [] {
      assert a + b == a;
    } else {
      assert (a + b)[..|a + b| - 1] == a + b[..|b| - 1];
      BalanceOfJoin(a, b[..|b| - 1]);
    }
  }

  lemma BalanceOfInsert(a: seq<Token>, t: Token, b: seq<Token>)
    ensures Balance(a + [t] + b) == Balance(a + b) + Weight(t.kind)
  {
    BalanceOfJoin(a + [t], b);
    BalanceOfJoin(a, [t]);
    BalanceOfJoin(a, b);
    assert Balance([t]) == Balance([]) + Weight(t.kind);
  }

  lemma AppendBalance(z: Scan, kind: Kind, mark: Mark)
    ensures var z' := Append(z, kind, mark); Balance(z'.log + z'.queue) == Balance(z.log + z.queue) + Weight(kind)
  {
    BalanceOfInsert(z.log + z.queue, Token(kind, mark), []);
    assert z.log + (z.queue + [Token(kind, mark)]) == z.log + z.queue + [Token(kind, mark)] + [];
    assert z.log + z.queue + [] == z.log + z.queue;
  }

  lemma InsertBalance(z: Scan, pos: int, t: Token)
    requires Insert(z, pos, t).Ok?
    ensures var z' := Insert(z, pos, t).z; Balance(z'.log + z'.queue) == Balance(z.log + z.queue) + Weight(t.kind)
  {
    if pos < 0 {
      AppendBalance(z, t.kind, t.start);
    } else {
      BalanceOfInsert(z.log + z.queue[..pos], t, z.queue[pos..]);
      assert z.log + (z.queue[..pos] + [t] + z.queue[pos..]) == z.log + z.queue[..pos] + [t] + z.queue[pos..];
      assert z.log + z.queue[..pos] + z.queue[pos..] == z.log + z.queue;
    }
  }

  // What each part of a fetch keeps

  lemma AppendKeepsKeys(z: Scan, kind: Kind, mark: Mark)
    requires KeysInv(z)
    ensures KeysInv(Append(z, kind, mark))
  {
    forall i | 0 <= i < |z.keys| ensures KeyOk(Append(z, kind, mark), z.keys[i]) {
      assert KeyOk(z, z.keys[i]);
    }
  }

  /** A required key has gone stale. */
  predicate KeyExpired(z: Scan, mark: Mark) {
    exists i | 0 <= i < |z.keys| :: z.keys[i].required && Stale(z.keys[i], mark)
  }

  lemma KeyDropped(z: Scan, i: nat)
    requires MidInv(z) && KeysInv(z) && i < |z.keys|
    ensures var z' := z.(keys := z.keys[i := z.keys[i].(possible := false)]); MidInv(z') && KeysInv(z')
  {
    var z' := z.(keys := z.keys[i := z.keys[i].(possible := false)]);
    forall j | 0 <= j < |z'.keys| ensures KeyOk(z', z'.keys[j]) {
      assert KeyOk(z, z.keys[j]);
    }
  }

  /** What is left of the keys once the first `n` were looked at. */
  ghost predicate StaleDropped(z: Scan, n: nat, r: Result)
    requires n <= |z.keys|
  {
    && !r.Panic?
    && (r.Ok? <==> forall i | 0 <= i < n :: !(z.keys[i].required && Stale(z.keys[i], z.mark)))
    && (r.Ok? ==> r.z == z.(keys := r.z.keys) && |r.z.keys| == |z.keys|
                  && forall i | n <= i < |z.keys| :: r.z.keys[i] == z.keys[i])
  }

  lemma DropStaleStep(z: Scan, n: nat)
    requires 0 < n <= |z.keys| && StaleDropped(z, n - 1, DropStale(z, n - 1))
    ensures StaleDropped(z, n, DropStale(z, n))
  {
  }

  lemma {:induction false} DropStaleKeeps(z: Scan, n: nat)
    requires MidInv(z) && KeysInv(z) && n <= |z.keys|
    ensures StaleDropped(z, n, DropStale(z, n))
    ensures DropStale(z, n).Ok? ==> MidInv(DropStale(z, n).z) && KeysInv(DropStale(z, n).z)
  {
    if n > 0 {
      var r := DropStale(z, n - 1);
      assert DropStale(z, n).Ok? ==>
          r.Ok? && DropStale(z, n).z in {r.z, r.z.(keys := r.z.keys[n - 1 := r.z.keys[n - 1].(possible := false)])};
      hide *;
      DropStaleKeeps(z, n - 1);
      DropStaleStep(z, n);
      if r.Ok? {
        KeyDropped(r.z, n - 1);
      }
    }
  }

  lemma RemoveKeyKeeps(z: Scan)
    requires MidInv(z) && KeysInv(z)
    ensures !RemoveKey(z).Panic?
    ensures RemoveKey(z).Ok? ==>
      var z' := RemoveKey(z).z;
      MidInv(z') && KeysInv(z') && z' == z.(keys := z'.keys) && !z'.keys[|z'.keys| - 1].possible
  {
    forall i | 0 <= i < |z.keys| ensures KeyOk(z, z.keys[i]) {
    }
  }

  lemma SaveKeyKeeps(z: Scan)
    requires MidInv(z) && KeysInv(z)
    ensures SaveKey(z).Panic? <==> z.flow == 0 && z.indent == z.mark.column && !z.allowed
    ensures SaveKey(z).Ok? ==> var z' := SaveKey(z).z; MidInv(z') && KeysPending(z') && z' == z.(keys := z'.keys)
  {
    RemoveKeyKeeps(z);
    forall i | 0 <= i < |z.keys| ensures KeyOk(z, z.keys[i]) {
    }
  }

  lemma FinishKeeps(z: Scan, lex: Lexeme)
    requires MidInv(z) && KeysPending(z) && Weight(lex.kind) == 0
    ensures !Finish(z, lex).Panic?
    ensures Finish(z, lex).Ok? ==> Inv(Finish(z, lex).z)
  {
    if lex.good {
      var z' := Finish(z, lex).z;
      AppendBalance(z, lex.kind, z.mark);
      forall i | 0 <= i < |z.keys| ensures KeyOk(z', z.keys[i]) {
        assert KeyPending(z, z.keys[i]);
      }
    }
  }

  lemma Pending(z: Scan)
    requires KeysInv(z)
    ensures KeysPending(z)
  {
    forall i | 0 <= i < |z.keys| ensures KeyPending(z, z.keys[i]) {
      assert KeyOk(z, z.keys[i]);
    }
  }

  /** A level above the top one. */
  lemma PushLevel(s: seq<int>, top: int, column: int)
    requires Levels(s + [top]) && top < column
    ensures Levels(s + [top] + [column])
  {
    assert (s + [top])[|s|] == top;
    forall i | 0 <= i < |s| ensures s[i] < column {
      assert (s + [top])[i] < (s + [top])[|s|];
    }
  }

  /** Appending the start of a block collection at the current column. */
  lemma RollIndentKeeps(z: Scan, kind: Kind)
    requires MidInv(z) && KeysInv(z) && Weight(kind) == 1
    ensures var r := RollIndent(z, z.mark.column, -1, kind, z.mark);
            r.Ok? && MidInv(r.z) && KeysInv(r.z) && r.z.keys == z.keys && r.z.mark == z.mark && r.z.flow == z.flow
  {
    if z.flow == 0 && z.indent < z.mark.column {
      var z1 := z.(indents := z.indents + [z.indent], indent := z.mark.column);
      PushLevel(z.indents, z.indent, z.mark.column);
      InsertBalance(z1, -1, Token(kind, z.mark));
      AppendKeepsKeys(z1, kind, z.mark);
    }
  }

  /** Unrolling never pops an empty stack; in block context it ends at the first level that is not past the
      column, and puts a BLOCK-END for each level left. */
  lemma {:induction false} UnrollIndentKeeps(z: Scan, column: int)
    requires MidInv(z) && KeysInv(z) && -1 <= column
    ensures var r := UnrollIndent(z, column);
            && r.Ok? && MidInv(r.z) && KeysInv(r.z)
            && r.z.keys == z.keys && r.z.mark == z.mark && r.z.flow == z.flow && r.z.allowed == z.allowed
            && r.z.indents + [r.z.indent] <= z.indents + [z.indent]
            && (z.flow == 0 ==> r.z.indent <= column)
            && (z.flow == 0 && column in z.indents + [z.indent] ==> r.z.indent == column)
    decreases |z.indents|
  {
    if z.flow == 0 && z.indent > column {
      var n := |z.indents| - 1;
      var s := z.indents + [z.indent];
      assert s[|z.indents|] == z.indent;
      var z1 := Append(z, BlockEnd, z.mark).(indent := z.indents[n], indents := z.indents[..n]);
      assert z1.indents + [z1.indent] == z.indents == s[..n + 1];
      AppendBalance(z, BlockEnd, z.mark);
      AppendKeepsKeys(z, BlockEnd, z.mark);
      assert KeysInv(z1) by {
        forall i | 0 <= i < |z.keys| ensures KeyOk(z1, z.keys[i]) {
          assert KeyOk(Append(z, BlockEnd, z.mark), z.keys[i]);
        }
      }
      UnrollIndentKeeps(z1, column);
    } else if column in z.indents + [z.indent] && z.flow == 0 {
      LevelIsTop(z, column);
    }
  }

  lemma LevelIsTop(z: Scan, column: int)
    requires Levels(z.indents + [z.indent]) && z.indent <= column && column in z.indents + [z.indent]
    ensures z.indent == column
  {
    var s := z.indents + [z.indent];
    var i :| 0 <= i < |s| && s[i] == column;
    assert s[|s| - 1] == z.indent;
  }

  /** The state after KEY was put for the top key. */
  function AfterKey(z: Scan): Scan
    requires z.keys != [] && 0 <= z.keys[|z.keys| - 1].number - |z.log| <= |z.queue|
  {
    var k := z.keys[|z.keys| - 1];
    var p := k.number - |z.log|;
    z.(queue := z.queue[..p] + [Token(Key, k.mark)] + z.queue[p..])
  }

  /** Whether a simple key opens a block mapping. */
  predicate OpensMapping(z: Scan, k: SimpleKey) {
    z.flow == 0 && z.indent < k.mark.column
  }

  /** When ':' follows a simple key, KEY, and BLOCK-MAPPING-START before it where a mapping is opened, land
      just before the token the key starts with, among the tokens still queued; nothing else moves. */
  lemma KeyLandsBeforeItsToken(z: Scan)
    requires MidInv(z) && KeysInv(z) && z.keys[|z.keys| - 1].possible
    ensures InsertKey(z).Ok?
    ensures var k, z' := z.keys[|z.keys| - 1], InsertKey(z).z;
            var p := k.number - |z.log|;
            && 0 <= p < |z.queue| && z.queue[p].start == k.mark
            && z'.log == z.log
            && z'.queue == z.queue[..p] + (if OpensMapping(z, k) then [Token(BlockMappingStart, k.mark)] else [])
                           + [Token(Key, k.mark)] + z.queue[p..]
            && z'.keys == z.keys[|z.keys| - 1 := k.(possible := false)]
            && z'.flow == z.flow && z'.mark == z.mark && z'.started
  {
    var k := z.keys[|z.keys| - 1];
    assert KeyOk(z, k);
    var p := k.number - |z.log|;
    var z1 := AfterKey(z);
    assert z1.queue[..p] == z.queue[..p];
    assert z1.queue[p..] == [Token(Key, k.mark)] + z.queue[p..];
  }

  lemma InsertKeyKeeps(z: Scan)
    requires MidInv(z) && KeysInv(z) && z.keys[|z.keys| - 1].possible
    ensures InsertKey(z).Ok? && MidInv(InsertKey(z).z) && KeysInv(InsertKey(z).z)
  {
    KeyLandsBeforeItsToken(z);
    var n := |z.keys| - 1;
    var k, z' := z.keys[n], InsertKey(z).z;
    var p := k.number - |z.log|;
    forall i | 0 <= i < |z'.keys| ensures KeyOk(z', z'.keys[i]) {
      assert KeyOk(z, z.keys[i]);
    }
    InsertKeyLevels(z);
  }

  lemma InsertKeyLevels(z: Scan)
    requires MidInv(z) && KeysInv(z) && z.keys[|z.keys| - 1].possible
    ensures InsertKey(z).Ok? && IndentInv(InsertKey(z).z)
  {
    KeyLandsBeforeItsToken(z);
    var k := z.keys[|z.keys| - 1];
    var z1 := AfterKey(z);
    InsertBalance(z, k.number - |z.log|, Token(Key, k.mark));
    if OpensMapping(z, k) {
      PushLevel(z.indents, z.indent, k.mark.column);
      var z2 := z1.(indents := z1.indents + [z1.indent], indent := k.mark.column);
      InsertBalance(z2, k.number - |z.log|, Token(BlockMappingStart, k.mark));
    }
  }

  // Whole fetches

  predicate SavesKey(kind: Kind) {
    kind.FlowSequenceStart? || kind.FlowMappingStart? || kind.Alias? || kind.Anchor? || kind.Tag? || kind.Scalar?
  }

  /** Only the bottom level is as low as -1; no block collection is open there. */
  lemma BottomLevel(z: Scan)
    requires MidInv(z) && z.indent <= -1
    ensures z.indents == [] && Balance(z.log + z.queue) == 0
  {
    assert (z.indents + [z.indent])[|z.indents|] == z.indent;
  }

  /** Where the scanner stands, and whether a key may start there, are not part of what it keeps. */
  lemma MovedKeeps(z: Scan, z': Scan)
    requires MidInv(z) && KeysInv(z) && z' == z.(mark := z'.mark, allowed := z'.allowed)
    ensures MidInv(z') && KeysInv(z')
  {
    forall i | 0 <= i < |z.keys| ensures KeyOk(z', z.keys[i]) {
      assert KeyOk(z, z.keys[i]);
    }
  }

  lemma AppendKeeps(z: Scan, kind: Kind, mark: Mark)
    requires MidInv(z) && KeysInv(z) && Weight(kind) == 0
    ensures var z' := Append(z, kind, mark); MidInv(z') && KeysInv(z') && Inv(z') && z'.indent == z.indent
  {
    AppendBalance(z, kind, mark);
    AppendKeepsKeys(z, kind, mark);
  }

  lemma StreamEndKeeps(z: Scan)
    requires MidInv(z) && KeysInv(z)
    ensures !FetchStreamEnd(z).Panic?
    ensures FetchStreamEnd(z).Ok? ==>
      var z' := FetchStreamEnd(z).z;
      Inv(z') && (z.flow == 0 ==> z'.indents == [] && Balance(z'.log + z'.queue) == 0)
  {
    var c := z.(mark := if z.mark.column == 0 then z.mark else Mark(z.mark.index, z.mark.line + 1, 0));
    var r1 := UnrollIndent(c, -1);
    var r2 := if r1.Ok? then RemoveKey(r1.z) else r1;
    assert Weight(StreamEnd) == 0;
    assert FetchStreamEnd(z) == if r2.Ok? then Ok(Append(r2.z.(allowed := false), StreamEnd, r2.z.mark)) else r2;
    hide *;
    MovedKeeps(z, c);
    UnrollIndentKeeps(c, -1);
    RemoveKeyKeeps(r1.z);
    if r2.Ok? {
      var z2 := r2.z.(allowed := false);
      MovedKeeps(r2.z, z2);
      AppendKeeps(z2, StreamEnd, z2.mark);
      if z.flow == 0 {
        BottomLevel(Append(z2, StreamEnd, z2.mark));
      }
    }
  }

  lemma FlowStartKeeps(z: Scan, lex: Lexeme)
    requires MidInv(z) && KeysInv(z) && Weight(lex.kind) == 0
    ensures FetchFlowStart(z, lex).Panic? <==> z.flow == 0 && z.indent == z.mark.column && !z.allowed
    ensures FetchFlowStart(z, lex).Ok? ==> Inv(FetchFlowStart(z, lex).z)
  {
    SaveKeyKeeps(z);
    if SaveKey(z).Ok? {
      var z1 := SaveKey(z).z;
      var z2 := z1.(keys := z1.keys + [NO_KEY], flow := z1.flow + 1, allowed := true);
      assert KeysPending(z2) by {
        forall i | 0 <= i < |z2.keys| ensures KeyPending(z2, z2.keys[i]) {
          assert i < |z1.keys| ==> KeyPending(z1, z1.keys[i]);
        }
      }
      FinishKeeps(z2, lex);
    }
  }

  lemma ContentKeeps(z: Scan, lex: Lexeme)
    requires MidInv(z) && KeysInv(z) && Weight(lex.kind) == 0
    ensures FetchContent(z, lex).Panic? <==> z.flow == 0 && z.indent == z.mark.column && !z.allowed
    ensures FetchContent(z, lex).Ok? ==> Inv(FetchContent(z, lex).z)
  {
    SaveKeyKeeps(z);
    if SaveKey(z).Ok? {
      var z2 := SaveKey(z).z.(allowed := false);
      assert KeysPending(z2) by {
        forall i | 0 <= i < |z2.keys| ensures KeyPending(z2, z2.keys[i]) {
          assert KeyPending(SaveKey(z).z, z2.keys[i]);
        }
      }
      FinishKeeps(z2, lex);
    }
  }

  /** Removing the key of the level and then ending the fetch, whatever becomes of `allowed` and the level. */
  lemma RemoveThenFinish(z: Scan, lex: Lexeme, z2: Scan)
    requires MidInv(z) && KeysInv(z) && Weight(lex.kind) == 0 && RemoveKey(z).Ok?
    requires z2 == RemoveKey(z).z.(allowed := z2.allowed, flow := z2.flow, keys := z2.keys)
    requires z2.keys <= RemoveKey(z).z.keys && |z2.keys| == z2.flow + 1
    ensures !Finish(z2, lex).Panic? && (Finish(z2, lex).Ok? ==> Inv(Finish(z2, lex).z))
  {
    RemoveKeyKeeps(z);
    var z1 := RemoveKey(z).z;
    forall i | 0 <= i < |z2.keys| ensures KeyOk(z2, z2.keys[i]) {
      assert KeyOk(z1, z1.keys[i]);
    }
    Pending(z2);
    FinishKeeps(z2, lex);
  }

  lemma DocumentKeeps(z: Scan, lex: Lexeme)
    requires MidInv(z) && KeysInv(z) && Weight(lex.kind) == 0
    ensures !FetchDocument(z, lex).Panic?
    ensures FetchDocument(z, lex).Ok? ==> Inv(FetchDocument(z, lex).z)
  {
    UnrollIndentKeeps(z, -1);
    var z1 := UnrollIndent(z, -1).z;
    RemoveKeyKeeps(z1);
    if RemoveKey(z1).Ok? {
      RemoveThenFinish(z1, lex, RemoveKey(z1).z.(allowed := false));
    }
  }

  lemma FlowEndKeeps(z: Scan, lex: Lexeme)
    requires MidInv(z) && KeysInv(z) && Weight(lex.kind) == 0
    ensures !FetchFlowEnd(z, lex).Panic?
    ensures FetchFlowEnd(z, lex).Ok? ==> Inv(FetchFlowEnd(z, lex).z)
  {
    RemoveKeyKeeps(z);
    if RemoveKey(z).Ok? {
      var z1 := RemoveKey(z).z;
      var z2 := if z1.flow > 0 then z1.(flow := z1.flow - 1, keys := z1.keys[..|z1.keys| - 1]) else z1;
      RemoveThenFinish(z, lex, z2.(allowed := false));
    }
  }

  lemma EntryKeeps(z: Scan, lex: Lexeme)
    requires MidInv(z) && KeysInv(z) && Weight(lex.kind) == 0
    ensures !FetchFlowEntry(z, lex).Panic? && !FetchBlockScalar(z, lex).Panic?
    ensures FetchFlowEntry(z, lex).Ok? ==> Inv(FetchFlowEntry(z, lex).z)
    ensures FetchBlockScalar(z, lex).Ok? ==> Inv(FetchBlockScalar(z, lex).z)
  {
    RemoveKeyKeeps(z);
    if RemoveKey(z).Ok? {
      RemoveThenFinish(z, lex, RemoveKey(z).z.(allowed := true));
      RemoveThenFinish(z, lex.(kind := Scalar), RemoveKey(z).z.(allowed := true));
    }
  }

  lemma BlockEntryKeeps(z: Scan, lex: Lexeme)
    requires MidInv(z) && KeysInv(z) && Weight(lex.kind) == 0
    ensures !FetchBlockEntry(z, lex).Panic?
    ensures FetchBlockEntry(z, lex).Ok? ==> Inv(FetchBlockEntry(z, lex).z)
  {
    RollIndentKeeps(z, BlockSequenceStart);
    var z1 := if z.flow == 0 then RollIndent(z, z.mark.column, -1, BlockSequenceStart, z.mark).z else z;
    RemoveKeyKeeps(z1);
    if RemoveKey(z1).Ok? {
      RemoveThenFinish(z1, lex, RemoveKey(z1).z.(allowed := true));
    }
  }

  lemma KeyKeeps(z: Scan, lex: Lexeme)
    requires MidInv(z) && KeysInv(z) && Weight(lex.kind) == 0
    ensures !FetchKey(z, lex).Panic?
    ensures FetchKey(z, lex).Ok? ==> Inv(FetchKey(z, lex).z)
  {
    RollIndentKeeps(z, BlockMappingStart);
    var z1 := if z.flow == 0 then RollIndent(z, z.mark.column, -1, BlockMappingStart, z.mark).z else z;
    RemoveKeyKeeps(z1);
    if RemoveKey(z1).Ok? {
      RemoveThenFinish(z1, lex, RemoveKey(z1).z.(allowed := RemoveKey(z1).z.flow == 0));
    }
  }

  lemma ValueKeeps(z: Scan, lex: Lexeme)
    requires MidInv(z) && KeysInv(z) && Weight(lex.kind) == 0
    ensures !FetchValue(z, lex).Panic?
    ensures FetchValue(z, lex).Ok? ==> Inv(FetchValue(z, lex).z)
  {
    if z.keys[|z.keys| - 1].possible {
      InsertKeyKeeps(z);
      Pending(InsertKey(z).z);
      FinishKeeps(InsertKey(z).z, lex);
    } else {
      RollIndentKeeps(z, BlockMappingStart);
      var z1 := if z.flow == 0 then RollIndent(z, z.mark.column, -1, BlockMappingStart, z.mark).z else z;
      var z2 := z1.(allowed := z1.flow == 0);
      forall i | 0 <= i < |z2.keys| ensures KeyPending(z2, z2.keys[i]) {
        assert KeyOk(z1, z1.keys[i]);
      }
      FinishKeeps(z2, lex);
    }
  }

  lemma StreamStartKeeps(z: Scan)
    requires Inv(z) && !z.started
    ensures FetchStreamStart(z).Ok? && Inv(FetchStreamStart(z).z)
  {
    var z' := FetchStreamStart(z).z;
    AppendBalance(z.(indent := -1, keys := z.keys + [NO_KEY], allowed := true, started := true), StreamStart, z.mark);
    assert Balance([]) == 0 && z.log + z.queue == [];
  }

  /** The state a lexeme is dispatched in. */
  function Prepared(z: Scan, lex: Lexeme): Result {
    var z1 := z.(mark := lex.mark, allowed := z.allowed || (lex.newline && z.flow == 0));
    var z2 :- DropStale(z1, |z1.keys|);
    UnrollIndent(z2, lex.mark.column)
  }

  lemma PreparedKeeps(z: Scan, lex: Lexeme)
    requires Inv(z) && z.started
    ensures !Prepared(z, lex).Panic? && (Prepared(z, lex).Ok? <==> !KeyExpired(z, lex.mark))
    ensures Prepared(z, lex).Ok? ==>
      var z' := Prepared(z, lex).z;
      && MidInv(z') && KeysInv(z') && z'.mark == lex.mark && z'.flow == z.flow
      && z'.allowed == (z.allowed || (lex.newline && z.flow == 0))
      && (z.flow == 0 ==> (z'.indent == lex.mark.column <==> lex.mark.column in z.indents + [z.indent]))
  {
    var z1 := z.(mark := lex.mark, allowed := z.allowed || (lex.newline && z.flow == 0));
    forall i | 0 <= i < |z1.keys| ensures KeyOk(z1, z1.keys[i]) {
      assert KeyOk(z, z.keys[i]);
    }
    DropStaleKeeps(z1, |z1.keys|);
    if DropStale(z1, |z1.keys|).Ok? {
      var z2 := DropStale(z1, |z1.keys|).z;
      UnrollIndentKeeps(z2, lex.mark.column);
      var z' := UnrollIndent(z2, lex.mark.column).z;
      assert (z'.indents + [z'.indent])[|z'.indents|] == z'.indent;
      assert z'.indent in z2.indents + [z2.indent] by {
        assert (z2.indents + [z2.indent])[|z'.indents|] == z'.indent;
      }
    }
  }

  /** The scanner's "should not happen": a token that may be a simple key comes, in block context, at the
      column of an open level, where a simple key is required, though none is allowed. */
  predicate ShouldNotHappen(z: Scan, lex: Lexeme) {
    && z.started && SavesKey(lex.kind) && !KeyExpired(z, lex.mark)
    && z.flow == 0 && !z.allowed && !lex.newline && lex.mark.column in z.indents + [z.indent]
  }

  /** Every fetch keeps the invariant, and panics exactly there: no stack underflows and no insertion
      misses the queue. */
  lemma FetchKeepsInv(z: Scan, lex: Lexeme)
    requires Inv(z)
    ensures FetchNext(z, lex).Ok? ==> Inv(FetchNext(z, lex).z)
    ensures FetchNext(z, lex).Panic? <==> ShouldNotHappen(z, lex)
  {
    if !z.started {
      StreamStartKeeps(z);
    } else {
      PreparedKeeps(z, lex);
      if Prepared(z, lex).Ok? {
        DispatchKeeps(Prepared(z, lex).z, lex);
        assert FetchNext(z, lex) == Dispatch(Prepared(z, lex).z, lex);
      }
    }
  }

  lemma DispatchKeeps(z: Scan, lex: Lexeme)
    requires MidInv(z) && KeysInv(z)
    ensures Dispatch(z, lex).Ok? ==> Inv(Dispatch(z, lex).z)
    ensures Dispatch(z, lex).Panic? <==> SavesKey(lex.kind) && z.flow == 0 && z.indent == z.mark.column && !z.allowed
  {
    match lex.kind
    case StreamEnd => StreamEndKeeps(z);
    case Directive => DocumentKeeps(z, lex);
    case DocumentStart => DocumentKeeps(z, lex);
    case DocumentEnd => DocumentKeeps(z, lex);
    case FlowSequenceStart => FlowStartKeeps(z, lex);
    case FlowMappingStart => FlowStartKeeps(z, lex);
    case FlowSequenceEnd => FlowEndKeeps(z, lex);
    case FlowMappingEnd => FlowEndKeeps(z, lex);
    case FlowEntry => EntryKeeps(z, lex);
    case BlockEntry => BlockEntryKeeps(z, lex);
    case Key => KeyKeeps(z, lex);
    case Value => ValueKeeps(z, lex);
    case Alias => ContentKeeps(z, lex);
    case Anchor => ContentKeeps(z, lex);
    case Tag => ContentKeeps(z, lex);
    case Scalar => ContentKeeps(z, lex);
    case BlockScalar => EntryKeeps(z, lex);
    case _ =>
  }

  /** A token is dequeued only when no possible key points at it, so no key is left behind. */
  lemma DequeueKeepsInv(z: Scan)
    requires Inv(z) && HeadIsReady(z)
    ensures Inv(Dequeue(z))
  {
    var z' := Dequeue(z);
    assert z'.log + z'.queue == z.log + z.queue;
    forall i | 0 <= i < |z.keys| ensures KeyOk(z', z.keys[i]) {
      assert KeyOk(z, z.keys[i]);
    }
  }

  // Runs

  /** A fetch happens only while the head of the queue is not ready; stale keys are looked for at any time. */
  datatype Action = Fetch(lex: Lexeme) | Refresh | Take

  function Step(z: Scan, a: Action): Result {
    match a
    case Fetch(lex) => if HeadIsReady(z) then Ok(z) else FetchNext(z, lex)
    case Refresh => DropStale(z, |z.keys|)
    case Take => if HeadIsReady(z) then Ok(Dequeue(z)) else Ok(z)
  }

  function Run(z: Scan, run: seq<Action>): Result
    decreases |run|
  {
    if run == [] then Ok(z)
    else
      var z1 :- Step(z, run[0]);
      Run(z1, run[1..])
  }

  const START := Mark(0, 0, 0)

  function Initial(): Scan {
    Scan([], [], [], 0, 0, [], false, false, START)
  }

  lemma StepKeepsInv(z: Scan, a: Action)
    requires Inv(z)
    ensures Step(z, a).Ok? ==> Inv(Step(z, a).z)
  {
    match a
    case Fetch(lex) => FetchKeepsInv(z, lex);
    case Refresh =>
      if z.started {
        DropStaleKeeps(z, |z.keys|);
      }
    case Take =>
      if HeadIsReady(z) {
        DequeueKeepsInv(z);
      }
  }

  lemma {:induction false} RunKeepsInv(z: Scan, run: seq<Action>)
    requires Inv(z)
    ensures Run(z, run).Ok? ==> Inv(Run(z, run).z)
    decreases |run|
  {
    if run != [] {
      StepKeepsInv(z, run[0]);
      if Step(z, run[0]).Ok? {
        RunKeepsInv(Step(z, run[0]).z, run[1..]);
      }
    }
  }

  /** In every reachable state each possible key points at a token still queued, at the mark the key was
      saved with, and keys further up the flow levels point further back; the levels go up from -1, and as
      many block collections are open as there are levels above it. */
  lemma Reachable(run: seq<Action>)
    requires Run(Initial(), run).Ok? && Run(Initial(), run).z.started
    ensures var z := Run(Initial(), run).z;
            && |z.keys| == z.flow + 1
            && (forall i | 0 <= i < |z.keys| && z.keys[i].possible ::
                  && |z.log| <= z.keys[i].number < |z.log| + |z.queue|
                  && z.queue[z.keys[i].number - |z.log|].start == z.keys[i].mark)
            && (forall i, j | 0 <= i < j < |z.keys| && z.keys[i].possible && z.keys[j].possible ::
                  z.keys[i].number < z.keys[j].number)
            && Levels(z.indents + [z.indent])
            && Balance(z.log + z.queue) == |z.indents|
  {
    RunKeepsInv(Initial(), run);
    var z := Run(Initial(), run).z;
    forall i | 0 <= i < |z.keys| ensures KeyOk(z, z.keys[i]) {
    }
  }

  /** In block context STREAM-END comes after a BLOCK-END for every block collection ever opened. */
  lemma StreamEndIsBalanced(run: seq<Action>, lex: Lexeme)
    requires Run(Initial(), run).Ok? && Run(Initial(), run).z.started && Run(Initial(), run).z.flow == 0
    requires lex.kind == StreamEnd && FetchNext(Run(Initial(), run).z, lex).Ok?
    ensures var z' := FetchNext(Run(Initial(), run).z, lex).z;
            && z'.queue != [] && z'.queue[|z'.queue| - 1].kind == StreamEnd
            && z'.indents == [] && Balance(z'.log + z'.queue) == 0
  {
    RunKeepsInv(Initial(), run);
    var z := Run(Initial(), run).z;
    PreparedKeeps(z, lex);
    StreamEndKeeps(Prepared(z, lex).z);
  }
}
