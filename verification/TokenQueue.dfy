/** The scanner's token queue (`yaml_insert_token`): a window of an array that is moved to the front when
  the array is full, and otherwise grows as `append` does. */
module TokenQueue {
  class TokenQueue<T(0)> {
    var tokens: array<T>
    var length: nat
    var head: nat
    ghost var Contents: seq<T>

    ghost predicate Valid()
      reads this, tokens
    {
      head <= length <= tokens.Length && Contents == tokens[head..length]
    }

    constructor ()
      ensures Valid() && Contents == [] && fresh(tokens)
    {
      tokens := new T[0];
      length, head, Contents := 0, 0, [];
    }

    /** Drops what was dequeued from the front of the array. */
    method Compact()
      requires Valid()
      modifies this, tokens
      ensures Valid() && Contents == old(Contents) && tokens == old(tokens)
      ensures head == 0 && length == old(length - head)
    {
      var i := 0;
      while i < length - head
        invariant 0 <= i <= length - head && head == old(head) && length == old(length)
        invariant tokens == old(tokens) && Contents == old(Contents)
        invariant forall k | 0 <= k < i :: tokens[k] == Contents[k]
        invariant forall k | i <= k < length - head :: tokens[head + k] == Contents[k]
      {
        tokens[i] := tokens[head + i];
        i := i + 1;
      }
      length, head := length - head, 0;
    }

    /** `append`: a full array is replaced by a larger one. */
    method Append(t: T)
      requires Valid()
      modifies this, tokens
      ensures Valid() && Contents == old(Contents) + [t]
      ensures tokens == old(tokens) || fresh(tokens)
    {
      if length == tokens.Length {
        var larger := new T[2 * length + 1];
        var i := 0;
        while i < length
          invariant 0 <= i <= length && length == old(length) && head == old(head)
          invariant tokens == old(tokens) && Contents == old(Contents) && tokens[..] == old(tokens[..])
          invariant forall k | 0 <= k < i :: larger[k] == tokens[k]
        {
          larger[i] := tokens[i];
          i := i + 1;
        }
        tokens := larger;
      }
      tokens[length] := t;
      length := length + 1;
      Contents := Contents + [t];
    }

    /** `yaml_insert_token`: puts `t` at the end, or before the token at position `pos` of the queue. */
    method Insert(pos: int, t: T)
      requires Valid() && pos <= |Contents|
      modifies this, tokens
      ensures Valid() && (tokens == old(tokens) || fresh(tokens))
      ensures Contents == if pos < 0 then old(Contents) + [t] else old(Contents)[..pos] + [t] + old(Contents)[pos..]
    {
      if head > 0 && length == tokens.Length {
        Compact();
      }
      Append(t);
      if pos < 0 {
        return;
      }
      assert Contents[..pos] == old(Contents)[..pos];
      assert Contents[pos..|Contents| - 1] == old(Contents)[pos..];
      ShiftIn(pos, t);
    }

    /** Moves the tokens from `at` up to the last one before `end` one place up. */
    method ShiftUp(at: nat, end: nat)
      requires at < end <= tokens.Length
      modifies tokens
      ensures tokens[..at] == old(tokens[..at]) && tokens[at + 1..end] == old(tokens[at..end - 1])
    {
      var i := end - 1;
      while i > at
        invariant at <= i < end
        invariant forall k | 0 <= k <= i :: tokens[k] == old(tokens[k])
        invariant forall k | i < k < end :: tokens[k] == old(tokens[k - 1])
      {
        tokens[i] := tokens[i - 1];
        i := i - 1;
      }
    }

    /** Makes room at `pos` by moving the tokens from there on over the last one, and puts `t` there. */
    method ShiftIn(pos: nat, t: T)
      requires Valid() && pos < |Contents|
      modifies this`Contents, tokens
      ensures Valid()
      ensures Contents == old(Contents)[..pos] + [t] + old(Contents)[pos..|old(Contents)| - 1]
    {
      var at := head + pos;
      ghost var before, after := tokens[head..at], tokens[at..length - 1];
      assert Contents[..pos] == before && Contents[pos..|Contents| - 1] == after;
      ShiftUp(at, length);
      tokens[at] := t;
      assert tokens[head..at] == before && tokens[at + 1..length] == after;
      assert tokens[head..length] == tokens[head..at] + [tokens[at]] + tokens[at + 1..length];
      Contents := before + [t] + after;
    }

    method Dequeue() returns (t: T)
      requires Valid() && Contents != []
      modifies this
      ensures Valid() && t == old(Contents)[0] && Contents == old(Contents)[1..] && tokens == old(tokens)
    {
      t := tokens[head];
      head := head + 1;
      Contents := Contents[1..];
    }
  }
}
