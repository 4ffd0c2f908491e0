/** Exactly when resuming a parse, at a later time, equals parsing the grown content from scratch. */
module ResumedParse {
  import opened Outcomes
  import opened JsonlCursor
  import opened CodexParser
  import opened IncrementalParse

  /** The same parser at another time. */
  ghost predicate SameParser(p: Parser, q: Parser) {
    q == p.(clock := q.clock)
  }

  /** No complete record of the content makes the parse read the clock: its first `session_meta` is dated, and so is every
    * tool call that is kept. */
  predicate RecordsDated(p: Parser, content: Bytes) {
    ClockFree(p, None, RecordLines(CutBytes(content).records, 0, 0))
  }

  /** When the parse of `old_`, resumed after `growth`, is as good as a fresh one: `old_` does not end in a malformed record,
    * and its records are dated, unless the grown content does not parse at all. */
  predicate Resumes(p: Parser, old_: Bytes, growth: Bytes) {
    !EndsMalformed(p, old_) && (RecordsDated(p, old_) || FullScan(p, old_ + growth).result.Err?)
  }

  lemma ResumedLines(q: Parser, old_: Bytes, growth: Bytes, cp: Checkpoint, complete: seq<Line>, more: seq<Line>)
    requires Grown(old_, growth, complete, more) && cp.offset == Size(CutBytes(old_).records) && cp.lineNumber == |CutBytes(old_).records|
    ensures ScanFrom(q, cp, CutBytes(old_).tail + growth) == ScanLines(q, cp, more)
  {
  }

  /** The parts of a growth: what the old scan of `p` left, and the lines before and after its checkpoint. */
  ghost predicate Parts(p: Parser, old_: Bytes, growth: Bytes, cp: Checkpoint, complete: seq<Line>, more: seq<Line>) {
    && |growth| > 0 && |more| > 0 && FullScan(p, old_).saved == Some(cp) && Grown(old_, growth, complete, more)
    && cp.offset == Size(CutBytes(old_).records) && cp.lineNumber == |CutBytes(old_).records|
    && Position(START, complete) == (cp.offset, cp.lineNumber)
    && ProcessLines(p, None, complete) == if EndsMalformed(p, old_) then Err(cp.lineNumber) else Ok(cp.state)
  }

  lemma PartsOf(p: Parser, old_: Bytes, growth: Bytes) returns (cp: Checkpoint, complete: seq<Line>, more: seq<Line>)
    requires |growth| > 0 && FullScan(p, old_).saved.Some?
    ensures Parts(p, old_, growth, cp, complete, more)
    ensures cp.offset <= |old_| && (old_ + growth)[cp.offset..] == CutBytes(old_).tail + growth
    ensures complete == RecordLines(CutBytes(old_).records, 0, 0)
  {
    hide FullScan, ProcessLines, Position;
    cp := FullScan(p, old_).saved.value;
    var c := CutBytes(old_);
    complete, more := RecordLines(c.records, 0, 0), LinesOf(CutBytes(c.tail + growth), Size(c.records), |c.records|);
    assert cp.offset == Size(c.records) && cp.lineNumber == |c.records| by { SavedPositionOf(p, old_); }
    AfterRecords(old_, growth);
    GrownScan(p, old_, growth, complete, more);
    ResumedScan(p, old_, growth, cp, complete, more);
  }

  lemma SavedPositionOf(p: Parser, old_: Bytes)
    requires FullScan(p, old_).saved.Some?
    ensures var cp := FullScan(p, old_).saved.value;
            cp.offset == Size(CutBytes(old_).records) && cp.lineNumber == |CutBytes(old_).records|
  {
    SavedPosition(p, START, old_);
  }

  /** Both scans, by any parser that differs in the clock only. */
  lemma BothScans(p: Parser, q: Parser, old_: Bytes, growth: Bytes, cp: Checkpoint, complete: seq<Line>, more: seq<Line>)
    requires Parts(p, old_, growth, cp, complete, more)
    ensures FullScan(q, old_ + growth) == ScanLines(q, START, complete + more)
    ensures ScanFrom(q, cp, CutBytes(old_).tail + growth) == ScanLines(q, cp, more)
  {
    hide FullScan, ScanFrom, ScanLines, ProcessLines, Position;
    GrownScan(q, old_, growth, complete, more);
    ResumedLines(q, old_, growth, cp, complete, more);
  }

  lemma AgreesWhenDated(p: Parser, q: Parser, old_: Bytes, growth: Bytes, cp: Checkpoint, complete: seq<Line>, more: seq<Line>)
    requires SameParser(p, q) && Parts(p, old_, growth, cp, complete, more)
    requires !EndsMalformed(p, old_) && ClockFree(p, None, complete)
    ensures ScanLines(q, cp, more) == ScanLines(q, START, complete + more)
  {
    ClockFreeMeansSame(p, q, None, complete);
    ScanOfConcat(q, complete, more, cp);
  }

  lemma AgreesWhenItFails(p: Parser, q: Parser, old_: Bytes, growth: Bytes, cp: Checkpoint, complete: seq<Line>, more: seq<Line>)
    requires SameParser(p, q) && Parts(p, old_, growth, cp, complete, more)
    requires !EndsMalformed(p, old_) && ProcessLines(p, None, complete + more).Err?
    ensures ScanLines(q, cp, more) == ScanLines(q, START, complete + more)
  {
    ProcessLinesConcat(p, None, complete, more);
    ProcessLinesConcat(q, None, complete, more);
    FailureIgnoresClockAndState(p, q, None, None, complete);
    var started := ProcessLines(q, None, complete).value;
    FailureIgnoresClockAndState(p, q, cp.state, cp.state, more);
    FailureIgnoresClockAndState(p, q, cp.state, started, more);
  }

  /** An undated record: resumed and fresh differ at every time later than all times seen. */
  lemma DiffersWhenUndated(p: Parser, old_: Bytes, growth: Bytes, cp: Checkpoint, complete: seq<Line>, more: seq<Line>)
    returns (q: Parser)
    requires Parts(p, old_, growth, cp, complete, more)
    requires !EndsMalformed(p, old_) && !ClockFree(p, None, complete) && ProcessLines(p, None, complete + more).Ok?
    ensures SameParser(p, q)
    ensures ScanLines(q, cp, more).result != ScanLines(q, START, complete + more).result
  {
    var bound := if TimeBound(p, complete) > TimeBound(p, more) then TimeBound(p, complete) else TimeBound(p, more);
    var k := bound + 1;
    q := At(p, k);
    DependsOnClock(p, None, complete, k);
    ProcessLinesConcat(p, None, complete, more);
    ProcessLinesConcat(q, None, complete, more);
    FailureIgnoresClockAndState(p, q, cp.state, cp.state, more);
    ApartLasts(q, q, p, cp.state, ProcessLines(q, None, complete).value, more, k);
  }

  lemma DiffersWhenMalformed(p: Parser, old_: Bytes, growth: Bytes, cp: Checkpoint, complete: seq<Line>, more: seq<Line>)
    requires Parts(p, old_, growth, cp, complete, more) && EndsMalformed(p, old_)
    ensures ScanLines(p, cp, more).result != ScanLines(p, START, complete + more).result
  {
    hide LinesOf, RecordLines, CutBytes;
    ResumeDiffers(p, old_, growth, cp, complete, more);
    BothScans(p, p, old_, growth, cp, complete, more);
  }

  /** After any growth, cut anywhere, the checkpoint that a scan of the old content left, resumed at any later time, gives
    * the result and the checkpoint of a fresh parse at that time, if and only if the old content does not end in a malformed
    * record and its complete records are dated (or the grown content fails to parse, the same way in both). */
  lemma ResumeEqualsFullParse(p: Parser, old_: Bytes, growth: Bytes)
    requires |growth| > 0 && FullScan(p, old_).saved.Some?
    ensures var cp := FullScan(p, old_).saved.value;
            && cp.offset <= |old_|
            && var rest := (old_ + growth)[cp.offset..];
               && ((forall q :: SameParser(p, q) ==> ScanFrom(q, cp, rest) == FullScan(q, old_ + growth)) <==> Resumes(p, old_, growth))
               && ((forall q :: SameParser(p, q) ==> ScanFrom(q, cp, rest).result == FullScan(q, old_ + growth).result)
                   <==> Resumes(p, old_, growth))
  {
    hide FullScan, ScanFrom, ScanLines, ClockFree, LinesOf, CutBytes, RecordLines, EndsMalformed;
    var cp, complete, more := PartsOf(p, old_, growth);
    var rest := (old_ + growth)[cp.offset..];
    BothScans(p, p, old_, growth, cp, complete, more);
    FailureOfGrown(p, complete + more);
    if Resumes(p, old_, growth) {
      forall q | SameParser(p, q) ensures ScanFrom(q, cp, rest) == FullScan(q, old_ + growth) {
        BothScans(p, q, old_, growth, cp, complete, more);
        if ClockFree(p, None, complete) {
          AgreesWhenDated(p, q, old_, growth, cp, complete, more);
        } else {
          AgreesWhenItFails(p, q, old_, growth, cp, complete, more);
        }
      }
    } else {
      var q := p;
      if EndsMalformed(p, old_) {
        DiffersWhenMalformed(p, old_, growth, cp, complete, more);
      } else {
        q := DiffersWhenUndated(p, old_, growth, cp, complete, more);
      }
      BothScans(p, q, old_, growth, cp, complete, more);
      assert SameParser(p, q) && ScanFrom(q, cp, rest).result != FullScan(q, old_ + growth).result;
    }
  }

  lemma FailureOfGrown(p: Parser, lines: seq<Line>)
    ensures ScanLines(p, START, lines).result == ProcessLines(p, None, lines)
  {
  }

  // ----- Whatever the growth -----

  /** One more byte that is no newline can only complete a tail, which is never an error. */
  lemma OneByteParses(p: Parser, old_: Bytes, b: Byte)
    requires FullScan(p, old_).saved.Some? && !EndsMalformed(p, old_) && b != LF
    ensures FullScan(p, old_ + [b]).result.Ok?
  {
    var cp, complete, more := PartsOf(p, old_, [b]);
    BothScans(p, p, old_, [b], cp, complete, more);
    var c := CutBytes(old_);
    CutTailAgain(old_);
    CutGrowsTail(c.tail, [b]);
    assert |more| == 1 && more[0].last;
    OneLastLine(p, cp.state, more);
    ProcessLinesConcat(p, None, complete, more);
  }

  lemma OneLastLine(p: Parser, st: State, lines: seq<Line>)
    requires |lines| == 1 && lines[0].last
    ensures ProcessLines(p, st, lines).Ok?
  {
    assert lines[..0] == [];
  }

  /** A checkpoint is good for every growth and every later time if and only if the old content does not end in a malformed
    * record and its complete records are dated. */
  lemma CheckpointIsGoodIff(p: Parser, old_: Bytes)
    requires FullScan(p, old_).saved.Some?
    ensures FullScan(p, old_).saved.value.offset <= |old_|
    ensures var cp := FullScan(p, old_).saved.value;
            (forall growth: Bytes, q :: |growth| > 0 && SameParser(p, q) ==>
               ScanFrom(q, cp, (old_ + growth)[cp.offset..]) == FullScan(q, old_ + growth))
            <==> !EndsMalformed(p, old_) && RecordsDated(p, old_)
  {
    hide FullScan, ScanFrom, ClockFree, CutBytes, RecordLines, EndsMalformed;
    var cp := FullScan(p, old_).saved.value;
    ResumeEqualsFullParse(p, old_, [0]);
    if !EndsMalformed(p, old_) && RecordsDated(p, old_) {
      forall growth: Bytes, q | |growth| > 0 && SameParser(p, q)
        ensures ScanFrom(q, cp, (old_ + growth)[cp.offset..]) == FullScan(q, old_ + growth)
      {
        ResumeEqualsFullParse(p, old_, growth);
      }
    } else {
      if !EndsMalformed(p, old_) { OneByteParses(p, old_, 0); }
      assert !Resumes(p, old_, [0]);
    }
  }
}
