/** `readBoundedText`: the end of a stream, in bounded memory. */
module BoundedText {
  import opened JsonlCursor

  function LastBytes(data: Bytes, limit: nat): Bytes {
    if |data| <= limit then data else data[|data| - limit..]
  }

  lemma LastOfLast(a: Bytes, b: Bytes, limit: nat)
    ensures LastBytes(LastBytes(a, limit) + b, limit) == LastBytes(a + b, limit)
  {
  }

  lemma NothingYet(limit: nat)
    ensures Flatten([]) == [] && LastBytes([], limit) == []
  {
  }

  /** What one chunk leaves: its own end if it is long enough, otherwise as much of what was kept as still fits. */
  lemma OneChunk(data: Bytes, value: Bytes, limit: nat)
    ensures |value| >= limit ==> LastBytes(data + value, limit) == value[|value| - limit..]
    ensures |value| < limit ==>
              var retained := LastBytes(data, limit);
              var keep := if |retained| < limit - |value| then |retained| else limit - |value|;
              LastBytes(data + value, limit) == retained[|retained| - keep..] + value
  {
    LastOfLast(data, value, limit);
  }

  /** However the stream is chunked, exactly its last `limit` bytes remain, and never more are held. */
  method ReadBoundedText(chunks: seq<Bytes>, limit: nat) returns (retained: Bytes)
    ensures retained == LastBytes(Flatten(chunks), limit) && |retained| <= limit
  {
    hide Flatten, LastBytes;
    NothingYet(limit);
    retained := [];
    assert chunks[..0] == [];
    for k := 0 to |chunks|
      invariant retained == LastBytes(Flatten(chunks[..k]), limit) && |retained| <= limit
    {
      var value := chunks[k];
      assert chunks[..k + 1] == chunks[..k] + [value];
      FlattenOneMore(chunks[..k], value);
      OneChunk(Flatten(chunks[..k]), value, limit);
      if |value| >= limit {
        retained := value[|value| - limit..];
        continue;
      }
      var room := limit - |value|;
      var keep := if |retained| < room then |retained| else room;
      retained := retained[|retained| - keep..] + value;
    }
    assert chunks[..|chunks|] == chunks;
  }
}
