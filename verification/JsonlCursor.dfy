/** `jsonlLines`: records with byte offsets out of a byte stream that arrives in arbitrary chunks. */
module JsonlCursor {
  import opened Outcomes
  import opened Basics

  type Byte = b: int | 0 <= b < 256
  type Bytes = seq<Byte>

  const LF: Byte := 10
  const CR: Byte := 13

  /** A yielded line; `offset` is the stream position after its newline, or after the previous record for a tail. */
  datatype Line = Line(text: Bytes, offset: nat, lineNumber: nat, terminated: bool, last: bool)

  // ----- The reference: complete records and an unterminated tail -----

  datatype Cut = Cut(records: seq<Bytes>, tail: Bytes)

  function CutBytes(data: Bytes): Cut {
    if |data| == 0 then Cut([], [])
    else
      var before := CutBytes(data[..|data| - 1]);
      if data[|data| - 1] == LF then Cut(before.records + [before.tail], [])
      else Cut(before.records, before.tail + [data[|data| - 1]])
  }

  function Joined(records: seq<Bytes>): Bytes {
    if |records| == 0 then [] else Joined(records[..|records| - 1]) + records[|records| - 1] + [LF]
  }

  predicate OneLine(text: Bytes) {
    forall i :: 0 <= i < |text| ==> text[i] != LF
  }

  lemma JoinedOneMore(records: seq<Bytes>, r: Bytes)
    ensures Joined(records + [r]) == Joined(records) + r + [LF]
  {
    assert (records + [r])[..|records|] == records;
  }

  lemma CutOneMore(data: Bytes, b: Byte)
    ensures var c := CutBytes(data);
            CutBytes(data + [b]) == if b == LF then Cut(c.records + [c.tail], []) else Cut(c.records, c.tail + [b])
  {
    assert (data + [b])[..|data|] == data;
  }

  lemma {:induction false} CutJoinsBack(data: Bytes)
    ensures Joined(CutBytes(data).records) + CutBytes(data).tail == data
    decreases |data|
  {
    if |data| > 0 {
      hide CutBytes, Joined;
      var init, x := data[..|data| - 1], data[|data| - 1];
      var before := CutBytes(init);
      CutJoinsBack(init);
      assert data == init + [x];
      CutOneMore(init, x);
      JoinedOneMore(before.records, before.tail);
      ConcatAssociates(Joined(before.records), before.tail, [x]);
    }
  }

  lemma {:induction false} CutIntoLines(data: Bytes)
    ensures OneLine(CutBytes(data).tail)
    ensures forall i :: 0 <= i < |CutBytes(data).records| ==> OneLine(CutBytes(data).records[i])
    decreases |data|
  {
    if |data| > 0 {
      CutIntoLines(data[..|data| - 1]);
    }
  }

  /** The cut loses nothing, and no piece holds a newline. */
  lemma CutRoundTrip(data: Bytes)
    ensures var c := CutBytes(data);
            && Joined(c.records) + c.tail == data
            && OneLine(c.tail) && forall i :: 0 <= i < |c.records| ==> OneLine(c.records[i])
  {
    hide CutBytes, Joined, OneLine;
    CutJoinsBack(data);
    CutIntoLines(data);
  }

  lemma {:induction false} CutGrowsTail(data: Bytes, piece: Bytes)
    requires OneLine(piece)
    ensures CutBytes(data + piece) == Cut(CutBytes(data).records, CutBytes(data).tail + piece)
    decreases |piece|
  {
    if |piece| == 0 {
      assert data + piece == data;
    } else {
      hide CutBytes;
      var init, x := piece[..|piece| - 1], piece[|piece| - 1];
      CutGrowsTail(data, init);
      CutOneMore(data + init, x);
      assert piece == init + [x];
      ConcatAssociates(data, init, [x]);
      ConcatAssociates(CutBytes(data).tail, init, [x]);
    }
  }

  lemma CutTailAgain(data: Bytes)
    ensures CutBytes(CutBytes(data).tail) == Cut([], CutBytes(data).tail)
  {
    var tail := CutBytes(data).tail;
    assert OneLine(tail) by { CutRoundTrip(data); }
    CutGrowsTail([], tail);
    assert [] + tail == tail;
  }

  /** Text after the last newline is cut together with what follows it; complete records are never cut again. */
  lemma {:induction false} CutConcat(a: Bytes, b: Bytes)
    ensures var ca := CutBytes(a);
            var rest := CutBytes(ca.tail + b);
            CutBytes(a + b) == Cut(ca.records + rest.records, rest.tail)
    decreases |b|
  {
    var ca := CutBytes(a);
    hide CutBytes;
    if |b| == 0 {
      assert a + b == a && ca.tail + b == ca.tail;
      CutTailAgain(a);
    } else {
      var init, x := b[..|b| - 1], b[|b| - 1];
      CutConcat(a, init);
      assert b == init + [x];
      ConcatAssociates(a, init, [x]);
      ConcatAssociates(ca.tail, init, [x]);
      CutOneMore(a + init, x);
      CutOneMore(ca.tail + init, x);
    }
  }

  function Size(records: seq<Bytes>): nat {
    |Joined(records)|
  }

  /** `replace(/\r$/, '')` on the bytes: UTF-8 decoding keeps a final carriage return a final carriage return. */
  function StripCr(text: Bytes): Bytes {
    if |text| > 0 && text[|text| - 1] == CR then text[..|text| - 1] else text
  }

  /** A record keeps everything but one carriage return at its end. */
  lemma StripCrMeans(text: Bytes)
    ensures StripCr(text + [CR]) == text
    ensures (|text| > 0 ==> text[|text| - 1] != CR) ==> StripCr(text) == text
  {
    assert (text + [CR])[..|text|] == text;
  }

  /** The lines of complete records that something follows. */
  function RecordLines(records: seq<Bytes>, offset: nat, lineNumber: nat): (lines: seq<Line>)
    ensures |lines| == |records|
  {
    if |records| == 0 then []
    else
      var n := |records| - 1;
      RecordLines(records[..n], offset, lineNumber)
      + [Line(StripCr(records[n]), offset + Size(records), lineNumber + n + 1, true, false)]
  }

  function MarkLast(lines: seq<Line>): seq<Line> {
    if |lines| == 0 then [] else lines[..|lines| - 1] + [lines[|lines| - 1].(last := true)]
  }

  /** Every line of a stream that starts at the given position. A carriage return is stripped only before a newline. */
  function LinesOf(c: Cut, offset: nat, lineNumber: nat): seq<Line> {
    var complete := RecordLines(c.records, offset, lineNumber);
    if |c.tail| > 0 then
      complete + [Line(c.tail, offset + Size(c.records), lineNumber + |c.records| + 1, false, true)]
    else MarkLast(complete)
  }

  lemma {:induction false} JoinedConcat(a: seq<Bytes>, b: seq<Bytes>)
    ensures Joined(a + b) == Joined(a) + Joined(b)
    decreases |b|
  {
    if |b| == 0 {
      assert a + b == a;
    } else {
      var init, r := b[..|b| - 1], b[|b| - 1];
      JoinedConcat(a, init);
      assert b == init + [r] && a + b == (a + init) + [r];
      JoinedOneMore(init, r);
      JoinedOneMore(a + init, r);
    }
  }

  lemma RecordLinesOneMore(records: seq<Bytes>, r: Bytes, offset: nat, lineNumber: nat)
    ensures RecordLines(records + [r], offset, lineNumber)
            == RecordLines(records, offset, lineNumber)
               + [Line(StripCr(r), offset + Size(records + [r]), lineNumber + |records| + 1, true, false)]
  {
    assert (records + [r])[..|records|] == records;
  }

  lemma RecordLinesStep(a: seq<Bytes>, b: seq<Bytes>, r: Bytes, offset: nat, lineNumber: nat)
    requires RecordLines(a + b, offset, lineNumber)
             == RecordLines(a, offset, lineNumber) + RecordLines(b, offset + Size(a), lineNumber + |a|)
    ensures RecordLines(a + (b + [r]), offset, lineNumber)
            == RecordLines(a, offset, lineNumber) + RecordLines(b + [r], offset + Size(a), lineNumber + |a|)
  {
    hide RecordLines, Joined, StripCr;
    assert a + (b + [r]) == (a + b) + [r];
    JoinedConcat(a, b + [r]);
    RecordLinesOneMore(a + b, r, offset, lineNumber);
    RecordLinesOneMore(b, r, offset + Size(a), lineNumber + |a|);
  }

  lemma NoRecordLines(offset: nat, lineNumber: nat)
    ensures RecordLines([], offset, lineNumber) == []
  {
  }

  lemma {:induction false} RecordLinesConcat(a: seq<Bytes>, b: seq<Bytes>, offset: nat, lineNumber: nat)
    ensures RecordLines(a + b, offset, lineNumber)
            == RecordLines(a, offset, lineNumber) + RecordLines(b, offset + Size(a), lineNumber + |a|)
    decreases |b|
  {
    hide RecordLines, Joined, StripCr;
    if |b| == 0 {
      assert b == [] && a + b == a;
      NoRecordLines(offset + Size(a), lineNumber + |a|);
    } else {
      var init := b[..|b| - 1];
      RecordLinesConcat(a, init, offset, lineNumber);
      RecordLinesStep(a, init, b[|b| - 1], offset, lineNumber);
      assert b == init + [b[|b| - 1]];
    }
  }

  lemma MarkLastConcat(x: seq<Line>, y: seq<Line>)
    requires |y| > 0
    ensures MarkLast(x + y) == x + MarkLast(y)
  {
    assert (x + y)[..|x + y| - 1] == x + y[..|y| - 1];
  }

  /** The lines of a grown stream are the old complete records, none of them last, then the lines read from there on. */
  lemma LinesOfGrown(a: Bytes, b: Bytes, offset: nat, lineNumber: nat)
    requires |CutBytes(a).tail + b| > 0
    ensures var ca := CutBytes(a);
            LinesOf(CutBytes(a + b), offset, lineNumber)
            == RecordLines(ca.records, offset, lineNumber)
               + LinesOf(CutBytes(ca.tail + b), offset + Size(ca.records), lineNumber + |ca.records|)
  {
    hide CutBytes, RecordLines, LinesOf, StripCr;
    var ca := CutBytes(a);
    var rest := CutBytes(ca.tail + b);
    CutConcat(a, b);
    CutNonempty(ca.tail + b);
    LinesOfConcat(ca.records, rest, offset, lineNumber);
  }

  lemma CutNonempty(data: Bytes)
    requires |data| > 0
    ensures |CutBytes(data).records| > 0 || |CutBytes(data).tail| > 0
  {
  }

  lemma LinesOfConcat(records: seq<Bytes>, rest: Cut, offset: nat, lineNumber: nat)
    requires |rest.records| > 0 || |rest.tail| > 0
    ensures LinesOf(Cut(records + rest.records, rest.tail), offset, lineNumber)
            == RecordLines(records, offset, lineNumber) + LinesOf(rest, offset + Size(records), lineNumber + |records|)
  {
    hide RecordLines, Joined, StripCr;
    var x := RecordLines(records, offset, lineNumber);
    var y := RecordLines(rest.records, offset + Size(records), lineNumber + |records|);
    assert RecordLines(records + rest.records, offset, lineNumber) == x + y by {
      RecordLinesConcat(records, rest.records, offset, lineNumber);
    }
    assert Size(records + rest.records) == Size(records) + Size(rest.records) by {
      JoinedConcat(records, rest.records);
    }
    if |rest.tail| == 0 {
      MarkLastConcat(x, y);
    } else {
      var tail := Line(rest.tail, offset + Size(records) + Size(rest.records),
                       lineNumber + |records| + |rest.records| + 1, false, true);
      assert (x + y) + [tail] == x + (y + [tail]);
    }
  }

  // ----- The chunked reader -----

  function Flatten(parts: seq<Bytes>): Bytes {
    if |parts| == 0 then [] else Flatten(parts[..|parts| - 1]) + parts[|parts| - 1]
  }

  lemma NoParts()
    ensures Flatten([]) == []
  {
  }

  lemma FlattenOneMore(parts: seq<Bytes>, part: Bytes)
    ensures Flatten(parts + [part]) == Flatten(parts) + part
  {
    assert (parts + [part])[..|parts|] == parts;
  }

  /** `buffer.indexOf(10, start)` */
  method IndexOfNewline(buffer: Bytes, start: nat) returns (at: int)
    requires start <= |buffer|
    ensures at == -1 ==> OneLine(buffer[start..])
    ensures at != -1 ==> start <= at < |buffer| && buffer[at] == LF && OneLine(buffer[start..at])
  {
    for i := start to |buffer|
      invariant OneLine(buffer[start..i])
    {
      if buffer[i] == LF { return i; }
      assert buffer[start..i + 1] == buffer[start..i] + [buffer[i]];
    }
    assert buffer[start..] == buffer[start..|buffer|];
    at := -1;
  }

  function Pending(p: Option<Line>): seq<Line> {
    match p
    case None => []
    case Some(line) => [line]
  }

  /** The reader's variables: position, pieces of the unfinished line, the line held back, and the lines yielded. */
  datatype Reader = Reader(offset: nat, lineNumber: nat, parts: seq<Bytes>, pending: Option<Line>, yielded: seq<Line>)

  /** What the variables mean once `seen` was consumed from a stream starting at (offset, lineNumber). */
  ghost predicate Consumed(seen: Bytes, offset: nat, lineNumber: nat, r: Reader) {
    var c := CutBytes(seen);
    && r.offset == offset + Size(c.records) && r.lineNumber == lineNumber + |c.records|
    && Flatten(r.parts) == c.tail && (|r.parts| == 0 <==> |c.tail| == 0)
    && r.yielded + Pending(r.pending) == RecordLines(c.records, offset, lineNumber)
    && (r.pending.None? <==> |c.records| == 0)
  }

  lemma ConsumedLine(seen: Bytes, offset: nat, lineNumber: nat, r: Reader, piece: Bytes, line: Bytes)
    requires Consumed(seen, offset, lineNumber, r) && OneLine(piece) && line == Flatten(r.parts) + piece
    ensures var end := r.offset + |line| + 1;
            Consumed(seen + piece + [LF], offset, lineNumber,
                     Reader(end, r.lineNumber + 1, [], Some(Line(StripCr(line), end, r.lineNumber + 1, true, false)),
                            r.yielded + Pending(r.pending)))
  {
    var c := CutBytes(seen);
    CutGrowsTail(seen, piece);
    CutOneMore(seen + piece, LF);
    JoinedOneMore(c.records, line);
    RecordLinesOneMore(c.records, line, offset, lineNumber);
  }

  lemma ConsumedPart(seen: Bytes, offset: nat, lineNumber: nat, r: Reader, piece: Bytes)
    requires Consumed(seen, offset, lineNumber, r) && OneLine(piece) && |piece| > 0
    ensures Consumed(seen + piece, offset, lineNumber, r.(parts := r.parts + [piece]))
  {
    CutGrowsTail(seen, piece);
    FlattenOneMore(r.parts, piece);
  }

  /** The loop body for one newline: the previous line is yielded and the new one held back. */
  method ReadLine(ghost seen: Bytes, ghost offset: nat, ghost lineNumber: nat, piece: Bytes, r: Reader) returns (r': Reader)
    requires Consumed(seen, offset, lineNumber, r) && OneLine(piece)
    ensures Consumed(seen + piece + [LF], offset, lineNumber, r')
  {
    hide CutBytes, Joined, RecordLines, Consumed, Flatten, OneLine;
    FlattenOneMore(r.parts, piece);
    NoParts();
    assert r.parts == [] ==> [] + piece == piece;
    var line := if |r.parts| > 0 then Flatten(r.parts + [piece]) else piece;
    assert line == Flatten(r.parts) + piece;
    ConsumedLine(seen, offset, lineNumber, r, piece, line);
    var end := r.offset + |line| + 1;
    var yielded := r.yielded + Pending(r.pending);
    var next := r.lineNumber + 1;
    r' := Reader(end, next, [], Some(Line(StripCr(line), end, next, true, false)), yielded);
  }

  lemma SeenThrough(seen: Bytes, buffer: Bytes, start: nat, newline: nat)
    requires start <= newline < |buffer| && buffer[newline] == LF
    ensures seen + buffer[..start] + buffer[start..newline] + [LF] == seen + buffer[..newline + 1]
  {
    assert buffer[..newline + 1] == buffer[..start] + buffer[start..newline] + [LF];
  }

  lemma SeenAll(seen: Bytes, buffer: Bytes, start: nat)
    requires start <= |buffer|
    ensures seen + buffer[..start] + buffer[start..] == seen + buffer
    ensures start == |buffer| ==> seen + buffer[..start] == seen + buffer
    ensures start == 0 ==> seen + buffer[..start] == seen
  {
    assert buffer[..start] + buffer[start..] == buffer;
  }

  /** One chunk of the stream: all lines it completes, then what is left of it. */
  method ReadChunk(ghost seen: Bytes, ghost offset: nat, ghost lineNumber: nat, buffer: Bytes, r0: Reader) returns (r: Reader)
    requires Consumed(seen, offset, lineNumber, r0)
    ensures Consumed(seen + buffer, offset, lineNumber, r)
  {
    r := r0;
    var start := 0;
    var newline := IndexOfNewline(buffer, start);
    SeenAll(seen, buffer, 0);
    while newline != -1
      invariant 0 <= start <= |buffer|
      invariant newline == -1 ==> OneLine(buffer[start..])
      invariant newline != -1 ==> start <= newline < |buffer| && buffer[newline] == LF && OneLine(buffer[start..newline])
      invariant Consumed(seen + buffer[..start], offset, lineNumber, r)
      decreases |buffer| - start
    {
      r := ReadLine(seen + buffer[..start], offset, lineNumber, buffer[start..newline], r);
      SeenThrough(seen, buffer, start, newline);
      start := newline + 1;
      newline := IndexOfNewline(buffer, start);
    }
    SeenAll(seen, buffer, start);
    if start < |buffer| {
      ConsumedPart(seen + buffer[..start], offset, lineNumber, r, buffer[start..]);
      r := r.(parts := r.parts + [buffer[start..]]);
    }
  }

  /** The lines do not depend on how the stream was chunked. */
  method JsonlLines(chunks: seq<Bytes>, offset: nat, lineNumber: nat) returns (lines: seq<Line>)
    ensures lines == LinesOf(CutBytes(Flatten(chunks)), offset, lineNumber)
  {
    var r := Reader(offset, lineNumber, [], None, []);
    for k := 0 to |chunks|
      invariant Consumed(Flatten(chunks[..k]), offset, lineNumber, r)
    {
      assert chunks[..k + 1] == chunks[..k] + [chunks[k]];
      FlattenOneMore(chunks[..k], chunks[k]);
      r := ReadChunk(Flatten(chunks[..k]), offset, lineNumber, chunks[k], r);
    }
    assert chunks[..|chunks|] == chunks;
    lines := Finish(Flatten(chunks), offset, lineNumber, r);
  }

  /** End of stream: an unterminated tail is the last line, otherwise the line held back is. */
  method Finish(ghost seen: Bytes, ghost offset: nat, ghost lineNumber: nat, r: Reader) returns (lines: seq<Line>)
    requires Consumed(seen, offset, lineNumber, r)
    ensures lines == LinesOf(CutBytes(seen), offset, lineNumber)
  {
    if |r.parts| > 0 {
      lines := r.yielded + Pending(r.pending) + [Line(Flatten(r.parts), r.offset, r.lineNumber + 1, false, true)];
    } else if r.pending.Some? {
      lines := r.yielded + [r.pending.value.(last := true)];
    } else {
      lines := r.yielded;
    }
  }
}
