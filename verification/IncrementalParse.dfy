/** What a checkpoint holds, how a parse splits at it after the file grew, and when a parse depends on the clock.
  * `ResumedParse` puts these together. */
module IncrementalParse {
  import opened Outcomes
  import opened JsonlCursor
  import opened CodexParser

  /** The content ends with a newline and its last record does not parse: tolerated now, an error once more follows. */
  predicate EndsMalformed(p: Parser, content: Bytes) {
    var c := CutBytes(content);
    |c.tail| == 0 && |c.records| > 0 && p.decode(StripCr(c.records[|c.records| - 1])).Malformed?
  }

  lemma {:induction false} PositionOfRecords(cp: Checkpoint, records: seq<Bytes>)
    ensures Position(cp, RecordLines(records, cp.offset, cp.lineNumber))
            == (cp.offset + Size(records), cp.lineNumber + |records|)
  {
  }

  /** The checkpoint of a scan stands after the last complete record. */
  lemma SavedPosition(p: Parser, cp: Checkpoint, data: Bytes)
    requires ScanFrom(p, cp, data).saved.Some?
    ensures var saved := ScanFrom(p, cp, data).saved.value;
            && saved.offset == cp.offset + Size(CutBytes(data).records)
            && saved.lineNumber == cp.lineNumber + |CutBytes(data).records|
  {
    var c := CutBytes(data);
    var complete := RecordLines(c.records, cp.offset, cp.lineNumber);
    PositionOfRecords(cp, c.records);
    if |c.tail| > 0 {
      var lines := LinesOf(c, cp.offset, cp.lineNumber);
      assert lines[..|lines| - 1] == complete;
    }
  }

  lemma LastRecordLine(records: seq<Bytes>, offset: nat, lineNumber: nat)
    requires |records| > 0
    ensures var line := RecordLines(records, offset, lineNumber)[|records| - 1];
            && line.text == StripCr(records[|records| - 1]) && line.lineNumber == lineNumber + |records|
            && line.terminated && !line.last
  {
  }

  /** Treating the last line as last only matters when it is malformed. */
  lemma StrictAndTolerant(p: Parser, st: State, lines: seq<Line>)
    requires |lines| > 0 && !lines[|lines| - 1].last && ProcessLines(p, st, MarkLast(lines)).Ok?
    ensures var line := lines[|lines| - 1];
            ProcessLines(p, st, lines) == if p.decode(line.text).Malformed? then Err(line.lineNumber)
                                          else ProcessLines(p, st, MarkLast(lines))
  {
    assert MarkLast(lines)[..|lines| - 1] == lines[..|lines| - 1];
  }

  /** The state of a checkpoint: all complete records, none of them treated as last, unless the last one is malformed. */
  lemma SavedState(p: Parser, cp: Checkpoint, data: Bytes)
    requires ScanFrom(p, cp, data).saved.Some?
    ensures var c := CutBytes(data);
            var strict := ProcessLines(p, cp.state, RecordLines(c.records, cp.offset, cp.lineNumber));
            if EndsMalformed(p, data) then strict == Err(cp.lineNumber + |c.records|)
            else strict == Ok(ScanFrom(p, cp, data).saved.value.state)
  {
    hide CutBytes, RecordLines, ProcessLine, Position;
    var c := CutBytes(data);
    var complete := RecordLines(c.records, cp.offset, cp.lineNumber);
    if |c.tail| > 0 {
      var lines := LinesOf(c, cp.offset, cp.lineNumber);
      assert lines[..|lines| - 1] == complete;
    } else if |c.records| > 0 {
      LastRecordLine(c.records, cp.offset, cp.lineNumber);
      StrictAndTolerant(p, cp.state, complete);
    }
  }

  lemma {:induction false} ErrorNamesALine(p: Parser, st: State, lines: seq<Line>, start: nat)
    requires ProcessLines(p, st, lines).Err?
    requires forall i :: 0 <= i < |lines| ==> lines[i].lineNumber > start
    ensures ProcessLines(p, st, lines).error > start
    decreases |lines|
  {
    if ProcessLines(p, st, lines[..|lines| - 1]).Err? {
      ErrorNamesALine(p, st, lines[..|lines| - 1], start);
    }
  }

  lemma {:induction false} RecordLineNumbers(records: seq<Bytes>, offset: nat, lineNumber: nat)
    ensures forall i :: 0 <= i < |records| ==> RecordLines(records, offset, lineNumber)[i].lineNumber > lineNumber
  {
    if |records| > 0 {
      RecordLineNumbers(records[..|records| - 1], offset, lineNumber);
    }
  }

  lemma DropPrefix(a: Bytes, b: Bytes, c: Bytes, whole: Bytes)
    requires whole == a + b
    ensures |a| <= |whole| && (whole + c)[|a|..] == b + c
  {
  }

  lemma AfterRecords(old_: Bytes, growth: Bytes)
    ensures Size(CutBytes(old_).records) <= |old_|
    ensures (old_ + growth)[Size(CutBytes(old_).records)..] == CutBytes(old_).tail + growth
  {
    CutRoundTrip(old_);
    DropPrefix(Joined(CutBytes(old_).records), CutBytes(old_).tail, growth, old_);
  }

  lemma LinesNonempty(c: Cut, offset: nat, lineNumber: nat)
    requires |c.records| > 0 || |c.tail| > 0
    ensures |LinesOf(c, offset, lineNumber)| > 0
  {
  }

  /** The lines of the grown content: the old complete records, then what a resumed scan reads. */
  ghost predicate Grown(old_: Bytes, growth: Bytes, complete: seq<Line>, more: seq<Line>) {
    var c := CutBytes(old_);
    && complete == RecordLines(c.records, 0, 0)
    && more == LinesOf(CutBytes(c.tail + growth), Size(c.records), |c.records|)
  }

  lemma GrownScan(p: Parser, old_: Bytes, growth: Bytes, complete: seq<Line>, more: seq<Line>)
    requires |growth| > 0 && Grown(old_, growth, complete, more)
    ensures |more| > 0
    ensures FullScan(p, old_ + growth) == ScanLines(p, START, complete + more)
  {
    hide CutBytes, RecordLines, LinesOf, ScanLines;
    LinesOfGrown(old_, growth, 0, 0);
    CutNonempty(CutBytes(old_).tail + growth);
    LinesNonempty(CutBytes(CutBytes(old_).tail + growth), Size(CutBytes(old_).records), |CutBytes(old_).records|);
  }

  lemma ResumedScan(p: Parser, old_: Bytes, growth: Bytes, cp: Checkpoint, complete: seq<Line>, more: seq<Line>)
    requires FullScan(p, old_).saved == Some(cp) && Grown(old_, growth, complete, more)
    ensures ScanFrom(p, cp, CutBytes(old_).tail + growth) == ScanLines(p, cp, more)
    ensures Position(START, complete) == (cp.offset, cp.lineNumber)
    ensures ProcessLines(p, None, complete) == if EndsMalformed(p, old_) then Err(cp.lineNumber) else Ok(cp.state)
  {
    SavedPosition(p, START, old_);
    SavedState(p, START, old_);
    PositionOfRecords(START, CutBytes(old_).records);
  }

  lemma ResumeDiffers(p: Parser, old_: Bytes, growth: Bytes, cp: Checkpoint, complete: seq<Line>, more: seq<Line>)
    requires |growth| > 0 && FullScan(p, old_).saved == Some(cp) && EndsMalformed(p, old_)
    requires Grown(old_, growth, complete, more)
    ensures FullScan(p, old_ + growth) == Scan(Err(cp.lineNumber), None)
    ensures ScanFrom(p, cp, CutBytes(old_).tail + growth).result != Err(cp.lineNumber)
  {
    ResumedScan(p, old_, growth, cp, complete, more);
    GrownScan(p, old_, growth, complete, more);
    ProcessLinesConcat(p, None, complete, more);
    MoreErrorsComeLater(p, cp, CutBytes(CutBytes(old_).tail + growth));
  }

  lemma MoreErrorsComeLater(p: Parser, cp: Checkpoint, c: Cut)
    ensures ProcessLines(p, cp.state, LinesOf(c, cp.offset, cp.lineNumber)) != Err(cp.lineNumber)
  {
    var lines := LinesOf(c, cp.offset, cp.lineNumber);
    RecordLineNumbers(c.records, cp.offset, cp.lineNumber);
    if ProcessLines(p, cp.state, lines).Err? {
      ErrorNamesALine(p, cp.state, lines, cp.lineNumber);
    }
  }

  lemma ScanOfConcat(p: Parser, complete: seq<Line>, more: seq<Line>, cp: Checkpoint)
    requires |more| > 0 && ProcessLines(p, None, complete) == Ok(cp.state)
    requires Position(START, complete) == (cp.offset, cp.lineNumber)
    ensures ScanLines(p, START, complete + more) == ScanLines(p, cp, more)
  {
    var n := |more| - 1;
    ProcessLinesConcat(p, None, complete, more);
    ProcessLinesConcat(p, None, complete, more[..n]);
    PositionConcat(complete, more, cp);
    assert (complete + more)[..|complete| + n] == complete + more[..n];
  }

  lemma {:induction false} PositionConcat(complete: seq<Line>, more: seq<Line>, cp: Checkpoint)
    requires Position(START, complete) == (cp.offset, cp.lineNumber)
    ensures Position(START, complete + more) == Position(cp, more)
    decreases |more|
  {
    if |more| == 0 {
      assert complete + more == complete;
    } else {
      var n := |more| - 1;
      PositionConcat(complete, more[..n], cp);
      assert (complete + more)[..|complete| + n] == complete + more[..n];
    }
  }

  // ----- The clock -----

  /** The record makes the parse read the clock: it creates the accumulator without a date, or it is kept as a tool call
    * without a timestamp text. */
  predicate NeedsClock(st: State, d: Decoded) {
    d.Parsed? &&
    match d.entry
    case SessionMeta(at, Some(_)) => st.None? && at.ms.None?
    case ResponseItem(at, Some(FunctionCall(name, _, _))) =>
      st.Some? && st.value.includeToolCalls && name != "" && at.text.None?
    case _ => false
  }

  predicate ClockFree(p: Parser, st: State, lines: seq<Line>) {
    |lines| == 0 ||
    var init := lines[..|lines| - 1];
    ClockFree(p, st, init) &&
    (ProcessLines(p, st, init).Ok? ==> !NeedsClock(ProcessLines(p, st, init).value, p.decode(lines[|lines| - 1].text)))
  }

  /** Without a record that needs it, the clock does not matter. */
  lemma {:induction false} ClockFreeMeansSame(p: Parser, q: Parser, st: State, lines: seq<Line>)
    requires q == p.(clock := q.clock) && ClockFree(p, st, lines)
    ensures ProcessLines(q, st, lines) == ProcessLines(p, st, lines)
    ensures ClockFree(q, st, lines)
    decreases |lines|
  {
    if |lines| > 0 {
      ClockFreeMeansSame(p, q, st, lines[..|lines| - 1]);
    }
  }

  /** A bound on every timestamp that the lines carry and every clock value they could read. */
  function TimeBound(p: Parser, lines: seq<Line>): int {
    if |lines| == 0 then 0
    else
      var line := lines[|lines| - 1];
      var before := TimeBound(p, lines[..|lines| - 1]);
      var d := p.decode(line.text);
      var read := if p.clock(line.lineNumber) > before then p.clock(line.lineNumber) else before;
      if d.Parsed? && d.entry.at.ms.Some? && d.entry.at.ms.value > read then d.entry.at.ms.value else read
  }

  /** Two states that later records can no longer make equal. */
  ghost predicate Apart(a: State, b: State, k: int) {
    a.Some? && b.Some? && a.value.includeToolCalls == b.value.includeToolCalls
    && (a.value.lastActiveAt < k <= b.value.lastActiveAt
        || exists j :: 0 <= j < |a.value.toolCalls| && j < |b.value.toolCalls| && a.value.toolCalls[j] != b.value.toolCalls[j])
  }

  lemma ItemExtends(now: int, acc: Acc, at: Stamp, item: Item)
    ensures var after := AddItem(acc, now, at, item);
            && acc.toolCalls <= after.toolCalls
            && after.includeToolCalls == acc.includeToolCalls && after.lastActiveAt == acc.lastActiveAt
  {
  }

  /** Tool calls are only appended, and the last activity only moves forward to a carried timestamp. */
  lemma AccumulateExtends(p: Parser, now: int, acc: Acc, e: Entry)
    ensures var after := Accumulate(p, now, acc, e);
            && acc.toolCalls <= after.toolCalls
            && after.includeToolCalls == acc.includeToolCalls
            && (after.lastActiveAt == acc.lastActiveAt || (e.at.ms.Some? && acc.lastActiveAt < after.lastActiveAt == e.at.ms.value))
  {
    hide AddItem;
    if e.ResponseItem? && e.item.Some? {
      ItemExtends(now, Touch(acc, e.at), e.at, e.item.value);
    }
  }

  lemma ApartPersists(p: Parser, q: Parser, a: Acc, b: Acc, k: int, now: int, now': int, e: Entry)
    requires Apart(Some(a), Some(b), k)
    requires e.at.ms.Some? ==> e.at.ms.value < k
    ensures Apart(Some(Accumulate(p, now, a, e)), Some(Accumulate(q, now', b, e)), k)
  {
    AccumulateExtends(p, now, a, e);
    AccumulateExtends(q, now', b, e);
    CallsStayApart(a.toolCalls, b.toolCalls, Accumulate(p, now, a, e).toolCalls, Accumulate(q, now', b, e).toolCalls);
  }

  lemma CallsStayApart(a: seq<ToolCall>, b: seq<ToolCall>, a': seq<ToolCall>, b': seq<ToolCall>)
    requires a <= a' && b <= b'
    ensures (exists j :: 0 <= j < |a| && j < |b| && a[j] != b[j]) ==> exists j :: 0 <= j < |a'| && j < |b'| && a'[j] != b'[j]
  {
    if j :| 0 <= j < |a| && j < |b| && a[j] != b[j] {
      assert a'[j] != b'[j];
    }
  }

  function At(p: Parser, k: int): Parser { p.(clock := (_: nat) => k) }

  /** Lines that carry only earlier times keep two states apart. */
  lemma {:induction false} ApartLasts(p: Parser, q: Parser, r: Parser, a: State, b: State, lines: seq<Line>, k: int)
    requires p == r.(clock := p.clock) && q == r.(clock := q.clock) && k > TimeBound(r, lines)
    requires Apart(a, b, k) && ProcessLines(p, a, lines).Ok?
    ensures ProcessLines(q, b, lines).Ok?
    ensures Apart(ProcessLines(p, a, lines).value, ProcessLines(q, b, lines).value, k)
    decreases |lines|
  {
    if |lines| > 0 {
      var n := |lines| - 1;
      var d := p.decode(lines[n].text);
      ApartLasts(p, q, r, a, b, lines[..n], k);
      if d.Parsed? {
        ApartPersists(p, q, ProcessLines(p, a, lines[..n]).value.value, ProcessLines(q, b, lines[..n]).value.value, k,
                      p.clock(lines[n].lineNumber), q.clock(lines[n].lineNumber), d.entry);
      }
    }
  }

  /** A record that needs the clock leaves a state apart from the one read under any clock later than everything seen. */
  lemma {:induction false} DependsOnClock(p: Parser, st: State, lines: seq<Line>, k: int)
    requires !ClockFree(p, st, lines) && k > TimeBound(p, lines)
    requires ProcessLines(p, st, lines).Ok?
    ensures ProcessLines(At(p, k), st, lines).Ok?
    ensures Apart(ProcessLines(p, st, lines).value, ProcessLines(At(p, k), st, lines).value, k)
    decreases |lines|
  {
    var q := At(p, k);
    var n := |lines| - 1;
    var init := lines[..n];
    var d := p.decode(lines[n].text);
    var now := p.clock(lines[n].lineNumber);
    if !ClockFree(p, st, init) {
      DependsOnClock(p, st, init, k);
      if d.Parsed? {
        ApartPersists(p, q, ProcessLines(p, st, init).value.value, ProcessLines(q, st, init).value.value, k, now, k, d.entry);
      }
    } else {
      ClockFreeMeansSame(p, q, st, init);
      var before := ProcessLines(p, st, init).value;
      if before.Some? {
        var a := Accumulate(p, now, before.value, d.entry);
        var j := |before.value.toolCalls|;
        assert a.toolCalls[j].at == ReadFromClock(now);
      }
    }
  }

  /** Whether a parse fails, and at which line, depends neither on the clock nor on the state it starts from. */
  lemma {:induction false} FailureIgnoresClockAndState(p: Parser, q: Parser, s: State, t: State, lines: seq<Line>)
    requires q == p.(clock := q.clock)
    ensures ProcessLines(p, s, lines).Ok? <==> ProcessLines(q, t, lines).Ok?
    ensures ProcessLines(p, s, lines).Err? ==> ProcessLines(q, t, lines) == ProcessLines(p, s, lines)
    decreases |lines|
  {
    if |lines| > 0 {
      FailureIgnoresClockAndState(p, q, s, t, lines[..|lines| - 1]);
    }
  }

  /** A parse that succeeds gives the same value under every clock exactly when no record needs the clock: the first
    * complete `session_meta` is dated, and so is every tool call that is kept. */
  lemma ResultIgnoresClockIff(p: Parser, st: State, lines: seq<Line>)
    requires ProcessLines(p, st, lines).Ok?
    ensures ClockFree(p, st, lines) <==>
            forall k :: ProcessLines(At(p, k), st, lines) == ProcessLines(p, st, lines)
  {
    if ClockFree(p, st, lines) {
      forall k ensures ProcessLines(At(p, k), st, lines) == ProcessLines(p, st, lines) {
        ClockFreeMeansSame(p, At(p, k), st, lines);
      }
    } else {
      var k := TimeBound(p, lines) + 1;
      DependsOnClock(p, st, lines, k);
      assert ProcessLines(At(p, k), st, lines) != ProcessLines(p, st, lines);
    }
  }
}
