/** The ledger facts that a resumed scan collects, against those of a scan from the start. */
module ResumedLedger {
  import opened Outcomes
  import opened JsonlCursor
  import opened TranscriptLog
  import opened LedgerFacts
  import opened RetentionWindow

  /** Whether a scan from the start collects facts: the ledger is on, the file changed within the retention window, and the
    * runtime is not excluded. A resumed scan collects exactly if the scan it continues did. */
  predicate Collects(enabled: bool, mtime: int, since: int, runtimeExcluded: bool) {
    enabled && mtime >= since && !runtimeExcluded
  }

  function StartLedger(collects: bool): Ledger {
    Ledger(if collects then Some(EMPTY) else None, false)
  }

  /** The lines of a grown file: complete records of the old content, and what a resumed scan reads. */
  function OldLines(old_: Bytes): seq<Line> {
    RecordLines(CutBytes(old_).records, 0, 0)
  }

  function NewLines(old_: Bytes, growth: Bytes): seq<Line> {
    var c := CutBytes(old_);
    LinesOf(CutBytes(c.tail + growth), Size(c.records), |c.records|)
  }

  function AllLines(content: Bytes): seq<Line> {
    LinesOf(CutBytes(content), 0, 0)
  }

  lemma StepsConcat(r: Lens, a: seq<Line>, b: seq<Line>)
    ensures StepsOf(r, a + b) == StepsOf(r, a) + StepsOf(r, b)
  {
  }

  /** The resumed side, by what the old records reveal of the project. */
  lemma ResumedSide(r: Lens, since: int, later: int, start: bool, a: seq<Line>, b: seq<Line>, resumed: Ledger)
    requires ObserveAll(r, since, StartLedger(start), a).Some?
    requires ObserveAll(r, later, RestoreLedger(SaveLedger(ObserveAll(r, since, StartLedger(start), a).value), later), b) == Some(resumed)
    ensures !start || OutOfScope(r, false, a + b) ==> resumed.log.None?
    ensures start && !OutOfScope(r, false, a + b) ==>
              var log := Feed(r, since, EMPTY, StepsOf(r, a));
              log.Some? && SaveLedger(ObserveAll(r, since, StartLedger(start), a).value).facts == Some(Save(log.value))
              && resumed.log == Feed(r, later, Restore(Save(log.value), later), StepsOf(r, b)) && resumed.log.Some?
  {
    hide Feed, Restore, StepsOf, ObserveAll, FirstCwd;
    FirstCwdConcat(r, a, b);
    var l := StartLedger(start);
    if !start {
      NothingObserved(r, since, l, a);
      NothingObserved(r, later, l, b);
    } else {
      ObservedIs(r, since, l, a);
      var middle := RestoreLedger(SaveLedger(ObserveAll(r, since, l, a).value), later);
      if middle.log.None? {
        NothingObserved(r, later, middle, b);
      } else {
        ObservedIs(r, later, middle, b);
      }
    }
  }

  lemma FullSide(r: Lens, later: int, start: bool, a: seq<Line>, b: seq<Line>)
    requires ObserveAll(r, later, StartLedger(start), a + b).Some?
    ensures var full := ObserveAll(r, later, StartLedger(start), a + b).value;
            && (!start || OutOfScope(r, false, a + b) ==> full.log.None?)
            && (start && !OutOfScope(r, false, a + b) ==>
                  full.log == Feed(r, later, EMPTY, StepsOf(r, a) + StepsOf(r, b)) && full.log.Some?)
  {
    hide Feed, StepsOf, ObserveAll, FirstCwd;
    StepsConcat(r, a, b);
    if start {
      ObservedIs(r, later, StartLedger(start), a + b);
    } else {
      NothingObserved(r, later, StartLedger(start), a + b);
    }
  }

  /** A scan from the start collects the facts of every line, unless nothing is collected at all: the ledger is off, the
    * runtime or the project is excluded, or the file was last changed before the retention bound. */
  lemma ScanCollects(r: Lens, since: int, enabled: bool, runtimeExcluded: bool, mtime: int, lines: seq<Line>)
    requires ObserveAll(r, since, StartLedger(Collects(enabled, mtime, since, runtimeExcluded)), lines).Some?
    ensures var end := ObserveAll(r, since, StartLedger(Collects(enabled, mtime, since, runtimeExcluded)), lines).value;
            if !enabled || runtimeExcluded || mtime < since || OutOfScope(r, false, lines) then end.log.None?
            else end.log.Some? && end.log == Feed(r, since, EMPTY, StepsOf(r, lines))
  {
    hide Feed, StepsOf, ObserveAll, FirstCwd;
    var l := StartLedger(Collects(enabled, mtime, since, runtimeExcluded));
    if l.log.Some? { ObservedIs(r, since, l, lines); } else { NothingObserved(r, since, l, lines); }
  }

  /** The facts that a usable cursor leads to, at a later time and after any growth, are those of a scan from the start if
    * and only if the file belongs to an excluded project, or both scans collect facts from the start or neither does, and in
    * the first case no complete record of the old content expired in between. */
  lemma ResumedFactsIff(r: Lens, since: int, later: int, sameDay: bool, enabled: bool, runtimeExcluded: bool, mtime: int,
                        mtimeNow: int, old_: Bytes, growth: Bytes, resumed: Ledger, full: Ledger)
    requires since <= later && |growth| > 0
    requires var saved := LedgerAtCheckpoint(r, since, StartLedger(Collects(enabled, mtime, since, runtimeExcluded)), AllLines(old_));
             && saved.Some?
             && (saved.value.facts.Some? ==> Usable(saved.value.facts.value, later, sameDay))
             && ObserveAll(r, later, RestoreLedger(saved.value, later), NewLines(old_, growth)) == Some(resumed)
    requires ObserveAll(r, later, StartLedger(Collects(enabled, mtimeNow, later, runtimeExcluded)), AllLines(old_ + growth)) == Some(full)
    ensures var before, now := Collects(enabled, mtime, since, runtimeExcluded), Collects(enabled, mtimeNow, later, runtimeExcluded);
            resumed.log == full.log
            <==> OutOfScope(r, false, AllLines(old_ + growth))
                 || (before == now && (before ==> NoneExpired(since, later, StepsOf(r, OldLines(old_)))))
  {
    hide Feed, Restore, StepsOf, ObserveAll, OutOfScope, CutBytes, RecordLines, LinesOf, NoneExpired, Collects;
    var before, now := Collects(enabled, mtime, since, runtimeExcluded), Collects(enabled, mtimeNow, later, runtimeExcluded);
    var a, b := OldLines(old_), NewLines(old_, growth);
    CheckpointCoversRecords(r, since, StartLedger(before), old_);
    LinesOfGrown(old_, growth, 0, 0);
    assert AllLines(old_ + growth) == a + b;
    ResumedSide(r, since, later, before, a, b, resumed);
    FullSide(r, later, now, a, b);
    if !OutOfScope(r, false, a + b) && before && now {
      ResumedLogIff(r, since, later, StepsOf(r, a), StepsOf(r, b));
    }
  }
}
