/** The ledger facts that a cached scan collects: what each line feeds to them, and the copy kept in the cursor. */
module LedgerFacts {
  import opened Outcomes
  import opened JsonlCursor
  import opened CodexParser
  import opened TranscriptLog
  import opened TranscriptInvariants

  /** How lines become records of the fact log: the record and the working directory of a parsed line, the projects that
    * are excluded, and how deep a result may be forwarded. */
  datatype Lens = Lens(p: Parser, record: Bytes -> TranscriptLog.Record, cwd: Bytes -> Option<string>,
                           excluded: string -> bool, env: Env, depth: nat)

  /** A line that is blank, one without a usable record, or a record. */
  datatype Step = Ignored | Unreadable | Taken(record: TranscriptLog.Record)

  function StepOf(r: Lens, line: Line): Step {
    match r.p.decode(line.text)
    case Blank => Ignored
    case Parsed(_) => Taken(r.record(line.text))
    case _ => Unreadable
  }

  function StepsOf(r: Lens, lines: seq<Line>): (steps: seq<Step>)
    ensures |steps| == |lines|
    ensures forall i :: 0 <= i < |lines| ==> steps[i] == StepOf(r, lines[i])
  {
    seq(|lines|, i requires 0 <= i < |lines| => StepOf(r, lines[i]))
  }

  /** One step on the log; records dated before `since` are ignored. None when a result is forwarded too deep. */
  function Take(r: Lens, since: int, log: Log, step: Step): Option<Log> {
    match step
    case Ignored => Some(log)
    case Unreadable => Some(log.(unknownRecords := log.unknownRecords + 1))
    case Taken(record) => Add(r.env, since, log, record, r.depth)
  }

  function Feed(r: Lens, since: int, log: Log, steps: seq<Step>): Option<Log>
    decreases |steps|
  {
    if |steps| == 0 then Some(log)
    else
      var before := Feed(r, since, log, steps[..|steps| - 1]);
      if before.None? then None else Take(r, since, before.value, steps[|steps| - 1])
  }

  lemma {:induction false} FeedConcat(r: Lens, since: int, log: Log, a: seq<Step>, b: seq<Step>)
    ensures Feed(r, since, log, a + b)
            == var first := Feed(r, since, log, a);
               if first.None? then None else Feed(r, since, first.value, b)
    decreases |b|
  {
    hide Take;
    if |b| == 0 {
      assert a + b == a;
    } else {
      var n := |b| - 1;
      FeedConcat(r, since, log, a, b[..n]);
      assert (a + b)[..|a| + n] == a + b[..n];
    }
  }

  lemma {:induction false} FeedKeeps(r: Lens, since: int, log: Log, steps: seq<Step>)
    requires Inv(false, since, log) && Feed(r, since, log, steps).Some?
    ensures Inv(false, since, Feed(r, since, log, steps).value)
    decreases |steps|
  {
    hide Inv, Add;
    if |steps| > 0 {
      var n := |steps| - 1;
      FeedKeeps(r, since, log, steps[..n]);
      TakeKeeps(r, since, Feed(r, since, log, steps[..n]).value, steps[n]);
    }
  }

  lemma TakeKeeps(r: Lens, since: int, log: Log, step: Step)
    requires Inv(false, since, log) && Take(r, since, log, step).Some?
    ensures Inv(false, since, Take(r, since, log, step).value)
  {
    hide Add;
    if step.Taken? { AddKeeps(false, r.env, since, log, step.record, r.depth); }
  }

  lemma EmptyKeeps(since: int)
    ensures Inv(false, since, EMPTY)
  {
  }

  // ----- The callback of one scan -----

  /** The callback's `facts` and `scopeKnown`. Without facts nothing is observed. */
  datatype Ledger = Ledger(log: Option<Log>, scopeKnown: bool)

  function CwdOf(r: Lens, line: Line): Option<string> {
    if r.p.decode(line.text).Parsed? then r.cwd(line.text) else None
  }

  /** The first working directory decides whether the project is excluded; then no facts are collected at all. */
  function Observe(r: Lens, since: int, l: Ledger, line: Line): Option<Ledger> {
    if l.log.None? then Some(l)
    else
      var cwd := CwdOf(r, line);
      if !l.scopeKnown && cwd.Some? && r.excluded(cwd.value) then Some(Ledger(None, true))
      else
        var log := Take(r, since, l.log.value, StepOf(r, line));
        if log.None? then None else Some(Ledger(log, l.scopeKnown || cwd.Some?))
  }

  function ObserveAll(r: Lens, since: int, l: Ledger, lines: seq<Line>): Option<Ledger>
    decreases |lines|
  {
    if |lines| == 0 then Some(l)
    else
      var before := ObserveAll(r, since, l, lines[..|lines| - 1]);
      if before.None? then None else Observe(r, since, before.value, lines[|lines| - 1])
  }

  function FirstCwd(r: Lens, lines: seq<Line>): Option<string>
    decreases |lines|
  {
    if |lines| == 0 then None
    else
      var before := FirstCwd(r, lines[..|lines| - 1]);
      if before.Some? then before else CwdOf(r, lines[|lines| - 1])
  }

  /** The lines reveal, for the first time, that they belong to an excluded project. */
  predicate OutOfScope(r: Lens, scopeKnown: bool, lines: seq<Line>) {
    !scopeKnown && FirstCwd(r, lines).Some? && r.excluded(FirstCwd(r, lines).value)
  }

  /** What a scan collects: nothing for an excluded project, otherwise the log fed with every line. */
  lemma {:induction false} ObservedIs(r: Lens, since: int, l: Ledger, lines: seq<Line>)
    requires l.log.Some? && ObserveAll(r, since, l, lines).Some?
    ensures var end := ObserveAll(r, since, l, lines).value;
            if OutOfScope(r, l.scopeKnown, lines) then end == Ledger(None, true)
            else end == Ledger(Feed(r, since, l.log.value, StepsOf(r, lines)), l.scopeKnown || FirstCwd(r, lines).Some?)
                 && end.log.Some?
    decreases |lines|
  {
    hide Take, CwdOf;
    if |lines| > 0 {
      var n := |lines| - 1;
      ObservedIs(r, since, l, lines[..n]);
      assert StepsOf(r, lines)[..n] == StepsOf(r, lines[..n]);
    }
  }

  lemma {:induction false} NothingObserved(r: Lens, since: int, l: Ledger, lines: seq<Line>)
    requires l.log.None?
    ensures ObserveAll(r, since, l, lines) == Some(l)
    decreases |lines|
  {
    if |lines| > 0 { NothingObserved(r, since, l, lines[..|lines| - 1]); }
  }

  lemma {:induction false} FirstCwdConcat(r: Lens, a: seq<Line>, b: seq<Line>)
    ensures FirstCwd(r, a + b) == if FirstCwd(r, a).Some? then FirstCwd(r, a) else FirstCwd(r, b)
    decreases |b|
  {
    hide CwdOf;
    if |b| == 0 {
      assert a + b == a;
    } else {
      var n := |b| - 1;
      FirstCwdConcat(r, a, b[..n]);
      assert (a + b)[..|a| + n] == a + b[..n];
    }
  }

  lemma {:induction false} ObserveConcat(r: Lens, since: int, l: Ledger, a: seq<Line>, b: seq<Line>)
    ensures ObserveAll(r, since, l, a + b)
            == var first := ObserveAll(r, since, l, a);
               if first.None? then None else ObserveAll(r, since, first.value, b)
    decreases |b|
  {
    hide Observe;
    if |b| == 0 {
      assert a + b == a;
    } else {
      var n := |b| - 1;
      ObserveConcat(r, since, l, a, b[..n]);
      assert (a + b)[..|a| + n] == a + b[..n];
    }
  }

  /** Only the text of a line counts, not whether it is the last one. */
  lemma {:induction false} OnlyTextCounts(r: Lens, since: int, l: Ledger, a: seq<Line>, b: seq<Line>)
    requires |a| == |b| && forall i :: 0 <= i < |a| ==> a[i].text == b[i].text
    ensures ObserveAll(r, since, l, a) == ObserveAll(r, since, l, b)
    decreases |a|
  {
    if |a| > 0 { OnlyTextCounts(r, since, l, a[..|a| - 1], b[..|b| - 1]); }
  }

  /** What one line does to a ledger in scope: nothing if blank, one unknown record if it holds none, otherwise its record. */
  lemma LineMeans(r: Lens, since: int, log: Log, line: Line)
    ensures var after := Observe(r, since, Ledger(Some(log), true), line);
            match r.p.decode(line.text)
            case Blank => after == Some(Ledger(Some(log), true))
            case Malformed => after == Some(Ledger(Some(log.(unknownRecords := log.unknownRecords + 1)), true))
            case Falsy => after == Some(Ledger(Some(log.(unknownRecords := log.unknownRecords + 1)), true))
            case Parsed(_) => var added := Add(r.env, since, log, r.record(line.text), r.depth);
                              if added.None? then after.None? else after == Some(Ledger(added, true))
  {
    hide Add;
  }

  // ----- The cursor's copy -----

  datatype SavedLedger = SavedLedger(facts: Option<Snapshot>, scopeKnown: bool)

  function SaveLedger(l: Ledger): SavedLedger {
    SavedLedger(if l.log.Some? then Some(Save(l.log.value)) else None, l.scopeKnown)
  }

  function RestoreLedger(s: SavedLedger, since: int): Ledger {
    Ledger(if s.facts.Some? then Some(Restore(s.facts.value, since)) else None, s.scopeKnown)
  }

  /** The lines a checkpoint covers: all but an unterminated tail. */
  function Covered(lines: seq<Line>): seq<Line> {
    if |lines| > 0 && !lines[|lines| - 1].terminated then lines[..|lines| - 1] else lines
  }

  /** The copy handed to the cursor: taken before the unterminated tail is observed. */
  function LedgerAtCheckpoint(r: Lens, since: int, l: Ledger, lines: seq<Line>): Option<SavedLedger> {
    var covered := ObserveAll(r, since, l, Covered(lines));
    if covered.None? then None else Some(SaveLedger(covered.value))
  }

  /** The copy is that of the complete records, whichever of them was the last line of its scan. */
  lemma CheckpointCoversRecords(r: Lens, since: int, l: Ledger, content: Bytes)
    ensures LedgerAtCheckpoint(r, since, l, LinesOf(CutBytes(content), 0, 0))
            == var covered := ObserveAll(r, since, l, RecordLines(CutBytes(content).records, 0, 0));
               if covered.None? then None else Some(SaveLedger(covered.value))
  {
    hide CutBytes, Observe;
    var c := CutBytes(content);
    var complete, lines := RecordLines(c.records, 0, 0), LinesOf(c, 0, 0);
    if |c.tail| > 0 {
      assert Covered(lines) == complete;
    } else {
      forall i | 0 <= i < |complete| ensures complete[i].terminated {
        RecordLinesAre(c.records, 0, 0, i);
      }
      assert Covered(lines) == lines;
      OnlyTextCounts(r, since, l, lines, complete);
    }
  }
}
