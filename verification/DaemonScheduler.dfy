/** `startScheduler`: begin, invalidate, scan fully, then complete or fail, with every failure branch. */
module DaemonScheduler {
  import opened Outcomes
  import opened ReconciliationGate
  import opened RecoveryLaunch
  import opened GateProtocol

  /** What happens around the gate during one start: whether the set-up before it succeeds (migrations, memory service, hook
    * server), what the gate's probes see, whether the claims can be cleared, and whether the full scan succeeds. */
  datatype Fate = Fate(setUp: bool, self: Probe, owner: Probe, claimsClear: bool, scanSucceeds: bool)

  datatype StartError = SetUpFailed | GateRefused(error: GateError) | ClaimsFailed | ScanFailed

  /** The row and the outcome of one start. Other processes leave the row of a living owner alone (StartSurvivesOthers), so
    * nothing happens to it during the scan. */
  function StartOutcome(row: Option<Row>, pid: int, token: Token, f: Fate): (Option<Row>, Result<(), StartError>) {
    if !f.setUp then (row, Err(SetUpFailed))
    else
      var begun := Begin(row, pid, token, f.self, f.owner);
      if begun.Err? then (row, Err(GateRefused(begun.error)))
      else if !f.claimsClear then (Fail(Some(begun.value), token), Err(ClaimsFailed))
      else if !f.scanSucceeds then (Some(begun.value.(phase := Failed)), Err(ScanFailed))
      else (Some(Ready), Ok(()))
  }

  /** What one process knows of its scheduler: the flag, the armed timers, the hook server and the database. */
  datatype Flags = Flags(isRunning: bool, scanInterval: bool, retentionInterval: bool, hookServer: bool, databaseOpen: bool)

  const IDLE := Flags(false, false, false, false, false)

  function AfterStart(s: Flags, retentionDays: int, row: Option<Row>, pid: int, token: Token, f: Fate): Flags {
    if s.isRunning then s
    else if !f.setUp then s.(isRunning := true, databaseOpen := true)
    else if StartOutcome(row, pid, token, f).1.Err? then s.(hookServer := false, databaseOpen := false)
    else Flags(true, true, s.retentionInterval || retentionDays > 0, true, true)
  }

  function AfterStop(s: Flags): Flags {
    if s.isRunning then IDLE else s
  }

  class Daemon {
    const gate: SharedRow
    const retentionDays: int
    var isRunning: bool
    var scanInterval: bool        // armed
    var retentionInterval: bool   // armed
    var hookServer: bool
    var databaseOpen: bool

    constructor (gate: SharedRow, retentionDays: int)
      ensures this.gate == gate && this.retentionDays == retentionDays && !isRunning && !scanInterval && !retentionInterval
      ensures !hookServer && !databaseOpen
    {
      this.gate, this.retentionDays := gate, retentionDays;
      isRunning, scanInterval, retentionInterval, hookServer, databaseOpen := false, false, false, false, false;
    }

    function View(): Flags
      reads this
    {
      Flags(isRunning, scanInterval, retentionInterval, hookServer, databaseOpen)
    }

    /** `startScheduler`. A set-up that fails is outside the `try`: the daemon then counts as running, although nothing
      * runs, until it is stopped. */
    method StartScheduler(pid: int, token: Token, f: Fate) returns (r: Result<(), StartError>)
      modifies this, gate
      ensures old(isRunning) ==> r == Ok(()) && gate.row == old(gate.row)
      ensures View() == AfterStart(old(View()), retentionDays, old(gate.row), pid, token, f)
      ensures !old(isRunning) ==>
                && (gate.row, r) == StartOutcome(old(gate.row), pid, token, f)
                && (isRunning <==> r.Ok? || r == Err(SetUpFailed))
                && (r.Ok? ==> scanInterval && hookServer && databaseOpen
                              && retentionInterval == (old(retentionInterval) || retentionDays > 0))
                && (r.Err? ==> scanInterval == old(scanInterval) && retentionInterval == old(retentionInterval))
                && (r.Err? && f.setUp ==> !hookServer && !databaseOpen)
    {
      if isRunning { return Ok(()); }
      isRunning := true;
      databaseOpen := true;
      if !f.setUp { return Err(SetUpFailed); }
      hookServer := true;
      r := Reconcile(pid, token, f);
      if r.Err? {
        hookServer, databaseOpen, isRunning := false, false, false;
        return;
      }
      scanInterval := true;
      if retentionDays > 0 { retentionInterval := true; }
    }

    /** `stopScheduler` */
    method StopScheduler()
      modifies this
      ensures View() == AfterStop(old(View()))
    {
      if !isRunning { return; }
      if scanInterval { scanInterval := false; }
      if retentionInterval { retentionInterval := false; }
      hookServer := false;
      databaseOpen := false;
      isRunning := false;
    }

    /** The `try` block and its `catch`: a token that was obtained is failed. */
    method Reconcile(pid: int, token: Token, f: Fate) returns (r: Result<(), StartError>)
      requires f.setUp
      modifies gate
      ensures (gate.row, r) == StartOutcome(old(gate.row), pid, token, f)
    {
      var begun := gate.BeginSessionReconciliation(pid, token, f.self, f.owner);
      if begun.Err? { return Err(GateRefused(begun.error)); }
      if !f.claimsClear {
        var _ := gate.FailSessionReconciliation(token);
        return Err(ClaimsFailed);
      }
      var cleared := gate.InvalidateSessionClaims(token);
      if !f.scanSucceeds {
        var _ := gate.FailSessionReconciliation(token);
        return Err(ScanFailed);
      }
      var _ := gate.CompleteSessionReconciliation(token);
      r := Ok(());
    }
  }

  /** A start leaves the gate open only when it finished the full scan, or when it never owned the gate; it never drops an
    * unfinished invalidation of an earlier owner, and never leaves one of its own unfinished without failing it. */
  lemma StartNeverOpensEarly(row: Option<Row>, pid: int, token: Token, f: Fate)
    requires !Owns(row, token)
    ensures var after, r := StartOutcome(row, pid, token, f).0, StartOutcome(row, pid, token, f).1;
            && (r.Ok? <==> after == Some(Ready) && f.setUp && Begin(row, pid, token, f.self, f.owner).Ok? && f.scanSucceeds && f.claimsClear)
            && (Unfinished(row) && !r.Ok? ==> Unfinished(after))
            && (Owns(after, token) <==> r.Err? && (r.error.ClaimsFailed? || r.error.ScanFailed?))
            && (Owns(after, token) ==> after.value.phase.Failed?)
  {
  }

  // ----- Starts and stops of one process -----

  datatype Call = StartCall(token: Token, fate: Fate) | StopCall

  /** The flags and the row after calls of one process; each start answers with the row it finds. */
  function AfterCalls(s: Flags, retentionDays: int, row: Option<Row>, pid: int, calls: seq<Call>): (Flags, Option<Row>)
    decreases |calls|
  {
    if |calls| == 0 then (s, row)
    else
      var (before, found) := AfterCalls(s, retentionDays, row, pid, calls[..|calls| - 1]);
      match calls[|calls| - 1]
      case StopCall => (AfterStop(before), found)
      case StartCall(token, fate) =>
        (AfterStart(before, retentionDays, found, pid, token, fate),
         if before.isRunning then found else StartOutcome(found, pid, token, fate).0)
  }

  /** Nothing of a scheduler that is not running is left on. */
  predicate Clean(s: Flags) {
    !s.isRunning ==> s == IDLE
  }

  lemma {:induction false} CallsKeepClean(s: Flags, retentionDays: int, row: Option<Row>, pid: int, calls: seq<Call>)
    requires Clean(s)
    ensures Clean(AfterCalls(s, retentionDays, row, pid, calls).0)
    decreases |calls|
  {
    hide StartOutcome;
    if |calls| > 0 { CallsKeepClean(s, retentionDays, row, pid, calls[..|calls| - 1]); }
  }

  lemma {:induction false} RunningIgnoresStarts(s: Flags, retentionDays: int, row: Option<Row>, pid: int, calls: seq<Call>)
    requires s.isRunning && StopCall !in calls
    ensures AfterCalls(s, retentionDays, row, pid, calls) == (s, row)
    decreases |calls|
  {
    hide StartOutcome;
    if |calls| > 0 {
      assert calls[|calls| - 1] in calls;
      RunningIgnoresStarts(s, retentionDays, row, pid, calls[..|calls| - 1]);
    }
  }

  lemma AfterOneMore(s: Flags, retentionDays: int, row: Option<Row>, pid: int, calls: seq<Call>, c: Call)
    ensures AfterCalls(s, retentionDays, row, pid, calls + [c])
            == var (before, found) := AfterCalls(s, retentionDays, row, pid, calls);
               match c
               case StopCall => (AfterStop(before), found)
               case StartCall(token, fate) =>
                 (AfterStart(before, retentionDays, found, pid, token, fate),
                  if before.isRunning then found else StartOutcome(found, pid, token, fate).0)
  {
    hide StartOutcome, AfterStart;
    assert (calls + [c])[..|calls|] == calls;
  }

  /** After any calls that leave the scheduler idle, a start whose set-up fails: the process counts as running with no timer
    * and no hook server, every later start until a stop does nothing and leaves the gate as it is, and a stop makes the
    * scheduler idle again, so that the next start is a real one. */
  lemma FailedSetUpLastsUntilStop(retentionDays: int, row: Option<Row>, pid: int, past: seq<Call>, token: Token, f: Fate, later: seq<Call>)
    requires !AfterCalls(IDLE, retentionDays, row, pid, past).0.isRunning && !f.setUp && StopCall !in later
    ensures var found := AfterCalls(IDLE, retentionDays, row, pid, past).1;
            var calls := past + [StartCall(token, f)] + later;
            && AfterCalls(IDLE, retentionDays, row, pid, calls) == (IDLE.(isRunning := true, databaseOpen := true), found)
            && AfterCalls(IDLE, retentionDays, row, pid, calls + [StopCall]) == (IDLE, found)
  {
    hide AfterCalls;
    CallsKeepClean(IDLE, retentionDays, row, pid, past);
    AfterOneMore(IDLE, retentionDays, row, pid, past, StartCall(token, f));
    var (s, found) := AfterCalls(IDLE, retentionDays, row, pid, past + [StartCall(token, f)]);
    RunningIgnoresStarts(s, retentionDays, found, pid, later);
    CallsConcat(IDLE, retentionDays, row, pid, past + [StartCall(token, f)], later);
    AfterOneMore(IDLE, retentionDays, row, pid, past + [StartCall(token, f)] + later, StopCall);
  }

  lemma NoCalls()
    ensures forall s, retentionDays, row, pid :: AfterCalls(s, retentionDays, row, pid, []) == (s, row)
  {
  }

  lemma {:induction false} CallsConcat(s: Flags, retentionDays: int, row: Option<Row>, pid: int, a: seq<Call>, b: seq<Call>)
    ensures AfterCalls(s, retentionDays, row, pid, a + b)
            == var (middle, found) := AfterCalls(s, retentionDays, row, pid, a);
               AfterCalls(middle, retentionDays, found, pid, b)
    decreases |b|
  {
    hide StartOutcome, AfterStart, AfterCalls;
    NoCalls();
    if |b| == 0 {
      assert b == [] && a + b == a;
    } else {
      var n := |b| - 1;
      CallsConcat(s, retentionDays, row, pid, a, b[..n]);
      assert a + b == a + b[..n] + [b[n]] && b == b[..n] + [b[n]];
      var (middle, found) := AfterCalls(s, retentionDays, row, pid, a);
      AfterOneMore(s, retentionDays, row, pid, a + b[..n], b[n]);
      AfterOneMore(middle, retentionDays, found, pid, b[..n], b[n]);
    }
  }

  // ----- A start among other processes -----

  /** Steps of other processes only; `p` neither acts nor exits. */
  predicate OthersOnly(run: seq<Event>, p: nat) {
    forall i :: 0 <= i < |run| ==> Actor(run[i]) != Some(p)
  }

  /** What a living owner relies on between its own steps. */
  predicate SameForOwner(w: World, v: World, p: nat, token: Token) {
    token in w.tokens && v.row == w.row && Holds(v, p, token) && v.tokens[token] == w.tokens[token] && v.outstanding == w.outstanding
  }

  lemma OtherStep(who: People, env: Env, w: World, e: Event, p: nat, token: Token)
    requires Inv(who, w) && Enabled(who, w, e) && Holds(w, p, token) && Owns(w.row, token) && Actor(e) != Some(p)
    requires token in w.tokens
    ensures Holds(Next(who, env, w, e), p, token) && SameForOwner(w, Next(who, env, w, e), p, token)
  {
    LiveOwnerIsNotOvertaken(who, env, w, e);
  }

  lemma {:induction false} OthersLeaveTheOwner(who: People, env: Env, w: World, run: seq<Event>, p: nat, token: Token)
    requires Inv(who, w) && Possible(who, env, w, run) && OthersOnly(run, p) && Holds(w, p, token) && Owns(w.row, token)
    ensures Holds(After(who, env, w, run), p, token) && SameForOwner(w, After(who, env, w, run), p, token)
    ensures Inv(who, After(who, env, w, run))
    decreases |run|
  {
    hide Inv, Enabled, Next;
    if |run| > 0 {
      var init := run[..|run| - 1];
      OthersLeaveTheOwner(who, env, w, init, p, token);
      OtherStep(who, env, After(who, env, w, init), run[|run| - 1], p, token);
      StepKeeps(who, env, After(who, env, w, init), run[|run| - 1]);
    }
  }

  /** The four steps of a start, with any runs of other processes between them. */
  function AfterBegin(who: People, env: Env, w: World, p: nat, token: Token, f: Fate, a: seq<Event>): World {
    After(who, env, Next(who, env, w, BeginGate(p, token, f.self, f.owner)), a)
  }

  function AfterClear(who: People, env: Env, w: World, p: nat, token: Token, b: seq<Event>): World {
    After(who, env, Next(who, env, w, ClearClaims(p, token)), b)
  }

  function AfterRescan(who: People, env: Env, w: World, p: nat, token: Token, c: seq<Event>): World {
    After(who, env, Next(who, env, w, Rescan(p, token)), c)
  }

  predicate PossibleAmong(who: People, env: Env, w: World, run: seq<Event>, p: nat) {
    Possible(who, env, w, run) && OthersOnly(run, p)
  }

  /** The token of a living process completes whatever other processes do between its own steps: each step of the start stays
    * possible, the gate is held by its token throughout, and the last one leaves it ready with nothing outstanding. */
  lemma StartSurvivesOthers(who: People, env: Env, w: World, p: nat, token: Token, f: Fate, a: seq<Event>, b: seq<Event>, c: seq<Event>)
    requires Inv(who, w) && Enabled(who, w, BeginGate(p, token, f.self, f.owner))
    requires StartOutcome(w.row, who(p).pid, token, f).1.Ok?
    requires PossibleAmong(who, env, Next(who, env, w, BeginGate(p, token, f.self, f.owner)), a, p)
    requires var wa := AfterBegin(who, env, w, p, token, f, a);
             && PossibleAmong(who, env, Next(who, env, wa, ClearClaims(p, token)), b, p)
             && var wb := AfterClear(who, env, wa, p, token, b);
                PossibleAmong(who, env, Next(who, env, wb, Rescan(p, token)), c, p)
    ensures var wa := AfterBegin(who, env, w, p, token, f, a);
            var wb := AfterClear(who, env, wa, p, token, b);
            var wc := AfterRescan(who, env, wb, p, token, c);
            && Enabled(who, wa, ClearClaims(p, token)) && Owns(wa.row, token)
            && Enabled(who, wb, Rescan(p, token)) && Owns(wb.row, token) && Unfinished(wb.row)
            && Enabled(who, wc, CompleteGate(p, token)) && Owns(wc.row, token) && Unfinished(wc.row) && !wc.outstanding
            && Next(who, env, wc, CompleteGate(p, token)).row == StartOutcome(w.row, who(p).pid, token, f).0
            && !Next(who, env, wc, CompleteGate(p, token)).outstanding
  {
    hide Inv, Possible, OthersOnly, Sees, SeesOwner;
    var w1 := Next(who, env, w, BeginGate(p, token, f.self, f.owner));
    StepKeeps(who, env, w, BeginGate(p, token, f.self, f.owner));
    OthersLeaveTheOwner(who, env, w1, a, p, token);
    var wa := AfterBegin(who, env, w, p, token, f, a);
    var w2 := Next(who, env, wa, ClearClaims(p, token));
    StepKeeps(who, env, wa, ClearClaims(p, token));
    OthersLeaveTheOwner(who, env, w2, b, p, token);
    var wb := AfterClear(who, env, wa, p, token, b);
    var w3 := Next(who, env, wb, Rescan(p, token));
    StepKeeps(who, env, wb, Rescan(p, token));
    OthersLeaveTheOwner(who, env, w3, c, p, token);
  }
}
