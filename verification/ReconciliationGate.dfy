/** The reconciliation gate: one row shared by all processes, rewritten in one transaction by every operation. */
module ReconciliationGate {
  import opened Outcomes

  type Token = nat

  /** `Acquired` is the source's status `running`. */
  datatype Phase = Acquired | Invalidated | Failed

  /** A `ready` row keeps neither owner nor token. An absent or unreadable row is None where rows are passed around. */
  datatype Row = Ready | Held(phase: Phase, token: Token, pid: Option<int>, start: Option<string>)

  /** `readProcessStartTime`: a start time, no such process, or an error while the process exists. */
  datatype Probe = Started(start: string) | Gone | Unavailable

  datatype GateError = ProbeFailed | NoIdentity | HeldByPeer | OwnershipChanged

  /** `ownerIsLive` */
  function OwnerIsLive(row: Row, probe: Probe): Result<bool, GateError>
    requires row.Held?
  {
    if row.pid.None? || row.start.GetOr("") == "" then Ok(false)
    else if probe.Unavailable? then Err(ProbeFailed)
    else Ok(probe == Started(row.start.value))
  }

  /** The row belongs to a process other than `pid`. */
  predicate Foreign(row: Option<Row>, pid: int) {
    row.Some? && row.value.Held? && row.value.pid.Some? && row.value.pid.value != pid
  }

  predicate Owns(row: Option<Row>, token: Token) {
    row.Some? && row.value.Held? && row.value.token == token
  }

  /** An invalidation was started and not completed. */
  predicate Unfinished(row: Option<Row>) {
    row.Some? && row.value.Held? && !row.value.phase.Acquired?
  }

  // ----- The transactions, as functions of the row they find -----

  function Begin(row: Option<Row>, pid: int, token: Token, self: Probe, owner: Probe): Result<Row, GateError> {
    match self
    case Unavailable => Err(ProbeFailed)
    case Gone => Err(NoIdentity)
    case Started(start) =>
      var live := if Foreign(row, pid) then OwnerIsLive(row.value, owner) else Ok(false);
      if live.Err? then Err(live.error)
      else if live.value then Err(HeldByPeer)
      else Ok(Held(if Unfinished(row) then Invalidated else Acquired, token, Some(pid), Some(start)))
  }

  function Invalidate(row: Option<Row>, token: Token): Result<Row, GateError> {
    if Owns(row, token) && !row.value.phase.Failed? then Ok(row.value.(phase := Invalidated)) else Err(OwnershipChanged)
  }

  function Complete(row: Option<Row>, token: Token): Option<Row> {
    if Owns(row, token) then Some(Ready) else row
  }

  function Fail(row: Option<Row>, token: Token): Option<Row> {
    if Owns(row, token) then Some(row.value.(phase := Failed)) else row
  }

  /** The answer of `isSessionReconciliationRunning` and the row it leaves. */
  datatype Checked = Checked(row: Option<Row>, running: bool)

  function Check(row: Option<Row>, pid: int, owner: Probe): Result<Checked, GateError> {
    if row.None? || row.value.Ready? then Ok(Checked(row, false))
    else if row.value.phase.Failed? || !Foreign(row, pid) then Ok(Checked(row, true))
    else
      var live := OwnerIsLive(row.value, owner);
      if live.Err? then Err(live.error)
      else if live.value then Ok(Checked(row, true))
      else if row.value.phase.Acquired? then Ok(Checked(row, false))
      else Ok(Checked(Some(row.value.(phase := Failed)), true))
  }

  /** The row in the database. A transaction that throws leaves it as it was. */
  class SharedRow {
    var row: Option<Row>

    constructor (found: Option<Row>)
      ensures row == found
    {
      row := found;
    }

    /** `beginSessionReconciliation` */
    method BeginSessionReconciliation(pid: int, token: Token, self: Probe, owner: Probe) returns (r: Result<Token, GateError>)
      modifies this
      ensures var b := Begin(old(row), pid, token, self, owner);
              if b.Ok? then row == Some(b.value) && r == Ok(token) else row == old(row) && r == Err(b.error)
    {
      match self {
        case Unavailable => return Err(ProbeFailed);
        case Gone => return Err(NoIdentity);
        case Started(start) =>
          if row.Some? && row.value.Held? && row.value.pid.Some? && row.value.pid.value != pid {
            var live := OwnerIsLive(row.value, owner);
            if live.Err? { return Err(live.error); }
            if live.value { return Err(HeldByPeer); }
          }
          var unfinished := row.Some? && row.value.Held? && (row.value.phase.Invalidated? || row.value.phase.Failed?);
          row := Some(Held(if unfinished then Invalidated else Acquired, token, Some(pid), Some(start)));
          r := Ok(token);
      }
    }

    /** `invalidateSessionClaims`, up to the update of the sessions in the same transaction. */
    method InvalidateSessionClaims(token: Token) returns (r: Result<(), GateError>)
      modifies this
      ensures var i := Invalidate(old(row), token);
              if i.Ok? then row == Some(i.value) && r == Ok(()) else row == old(row) && r == Err(i.error)
    {
      if row.None? || row.value.Ready? || row.value.token != token || row.value.phase.Failed? {
        return Err(OwnershipChanged);
      }
      row := Some(row.value.(phase := Invalidated));
      r := Ok(());
    }

    /** `completeSessionReconciliation` */
    method CompleteSessionReconciliation(token: Token) returns (done: bool)
      modifies this
      ensures row == Complete(old(row), token) && (done <==> Owns(old(row), token))
    {
      if row.None? || row.value.Ready? || row.value.token != token { return false; }
      row := Some(Ready);
      done := true;
    }

    /** `failSessionReconciliation` */
    method FailSessionReconciliation(token: Token) returns (done: bool)
      modifies this
      ensures row == Fail(old(row), token) && (done <==> Owns(old(row), token) && !old(row).value.phase.Failed?)
    {
      if row.None? || row.value.Ready? || row.value.token != token || row.value.phase.Failed? { return false; }
      row := Some(row.value.(phase := Failed));
      done := true;
    }

    /** `isSessionReconciliationRunning` */
    method IsSessionReconciliationRunning(pid: int, owner: Probe) returns (r: Result<bool, GateError>)
      modifies this
      ensures var c := Check(old(row), pid, owner);
              if c.Ok? then row == c.value.row && r == Ok(c.value.running) else row == old(row) && r == Err(c.error)
    {
      if row.None? || row.value.Ready? { return Ok(false); }
      if row.value.phase.Failed? { return Ok(true); }
      if row.value.pid.Some? && row.value.pid.value != pid {
        var live := OwnerIsLive(row.value, owner);
        if live.Err? { return Err(live.error); }
        if !live.value {
          if row.value.phase.Acquired? { return Ok(false); }
          row := Some(row.value.(phase := Failed));
        }
      }
      r := Ok(true);
    }
  }

  // ----- What each transaction keeps -----

  /** An unfinished invalidation survives every transaction except its own owner's completion, and every check of it is
    * refused or answered with true, whoever asks and whatever the probes say. */
  lemma UnfinishedSurvives(row: Option<Row>, pid: int, token: Token, self: Probe, owner: Probe)
    requires Unfinished(row)
    ensures Begin(row, pid, token, self, owner).Ok? ==> Unfinished(Some(Begin(row, pid, token, self, owner).value))
    ensures Invalidate(row, token).Ok? ==> Unfinished(Some(Invalidate(row, token).value))
    ensures Unfinished(Fail(row, token))
    ensures Unfinished(Complete(row, token)) <==> !Owns(row, token)
    ensures Check(row, pid, owner).Ok? ==> Check(row, pid, owner).value.running && Unfinished(Check(row, pid, owner).value.row)
  {
  }

  /** Peers are let through only when nothing is held, or when the owner died before invalidating anything; such an answer
    * changes nothing. */
  lemma OpenMeansNothingPending(row: Option<Row>, pid: int, owner: Probe)
    requires Check(row, pid, owner).Ok?
    ensures !Check(row, pid, owner).value.running <==>
              row.None? || row.value.Ready?
              || (Foreign(row, pid) && row.value.phase.Acquired? && OwnerIsLive(row.value, owner) == Ok(false))
    ensures !Check(row, pid, owner).value.running ==> Check(row, pid, owner).value.row == row
  {
  }
}
