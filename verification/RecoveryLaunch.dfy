/** `createServiceRecoveryHandler`: previewing a recovery and launching what was confirmed. */
module RecoveryLaunch {
  import opened Outcomes
  import opened Basics
  import opened ReconciliationGate

  datatype SessionStatus = Running | Waiting | Idle | Completed | Lost

  datatype Runtime = Codex | ClaudeCode
  datatype Method = Resume | Continue | New

  datatype Source = Source(sessionId: string, runtime: Runtime, directory: string, status: SessionStatus,
                           prompt: Option<string>, methods: set<Method>, recommended: Method)

  /** What the user is shown; the confirmation id is a hash of it. */
  datatype Preview = Preview(sessionId: string, runtime: Runtime, how: Method, executable: string, arguments: seq<string>,
                             directory: string, createsNewSession: bool)

  datatype RecoveryError =
    | InvalidTerminal | GateBusy | NotRecoverable | NotFound | IdentityChanged | NotLost | MethodGone | BadExecutable
    | InvalidSessionId | PreviewChanged | OpenFailed | OpenTimedOut | GateFailed(error: GateError) | CommitLost

  // ----- The recovery command -----

  /** `/^[a-zA-Z0-9-_]{8,64}$/` */
  predicate IsValidSessionId(id: string) {
    8 <= |id| <= 64 && forall c :: c in id ==> 'a' <= c <= 'z' || 'A' <= c <= 'Z' || '0' <= c <= '9' || c == '-' || c == '_'
  }

  lemma ValidIds(id: string)
    ensures IsValidSessionId(id) <==> 8 <= |id| <= 64 && OfIdChars(id)
  {
    assert forall c :: c in id ==> exists i :: 0 <= i < |id| && id[i] == c;
    assert forall i :: 0 <= i < |id| ==> id[i] in id;
  }

  predicate OfIdChars(id: string) {
    forall i :: 0 <= i < |id| ==> id[i] in {'-', '_'} || '0' <= id[i] <= '9' || 'A' <= id[i] <= 'Z' || 'a' <= id[i] <= 'z'
  }

  /** `unscopeCodexSessionId` */
  function Unscoped(id: string): (raw: string)
    ensures id == raw || id == "codex_" + raw
    ensures StartsWith(id, "codex_") ==> id == "codex_" + raw
  {
    if StartsWith(id, "codex_") then id[6..] else id
  }

  function PromptArgument(prompt: Option<string>): seq<string> {
    if prompt.GetOr("") == "" then [] else [prompt.GetOr("")]
  }

  /** `buildClaudeCommandArgs` and `buildCodexCommandArgs`, without skipped permissions; None when the id is invalid. */
  function Build(s: Source): Option<seq<string>> {
    if !IsValidSessionId(s.sessionId) then None
    else
      match s.runtime
      case ClaudeCode =>
        (match s.recommended
         case Resume => Some(["claude", "--resume", s.sessionId])
         case Continue => Some(["claude", "--continue"])
         case New => Some(["claude"] + PromptArgument(s.prompt)))
      case Codex =>
        (match s.recommended
         case Resume => Some(["codex", "resume", Unscoped(s.sessionId)])
         case Continue => Some(["codex", "resume", "--last"])
         case New => Some(["codex"] + PromptArgument(s.prompt)))
  }

  /** The hash is not part of this model. */
  datatype Env = Env(hash: Preview -> string)

  /** `recoverySource`: it may refuse, or find nothing. */
  type Lookup = Result<Option<Source>, RecoveryError>

  /** `preview` after the gate let it through. */
  function Show(env: Env, found: Lookup, id: string): Result<Preview, RecoveryError> {
    if found.Err? then Err(found.error)
    else if found.value.None? then Err(NotFound)
    else
      var s := found.value.value;
      if s.sessionId != id then Err(IdentityChanged)
      else if s.status != Lost then Err(NotLost)
      else if s.recommended !in s.methods then Err(MethodGone)
      else if Build(s).None? then Err(InvalidSessionId)
      else
        var argv := Build(s).value;
        Ok(Preview(s.sessionId, s.runtime, s.recommended, argv[0], argv[1..], s.directory, s.recommended == New))
  }

  /** The session may be recovered in the way that is recommended for it. */
  predicate Recoverable(found: Lookup, id: string) {
    && found.Ok? && found.value.Some?
    && var s := found.value.value;
       && s.sessionId == id && s.status == Lost && s.recommended in s.methods
       && 8 <= |id| <= 64 && OfIdChars(id)
  }

  /** The preview says what will run: the command built for the source, in its directory, and whether it is a new session. */
  predicate Recovers(s: Source, shown: Preview) {
    && Build(s) == Some([shown.executable] + shown.arguments)
    && shown.executable == (if s.runtime.Codex? then "codex" else "claude")
    && shown.sessionId == s.sessionId && shown.runtime == s.runtime && shown.directory == s.directory
    && shown.how == s.recommended && (shown.createsNewSession <==> s.recommended == New)
  }

  lemma ShownRecovers(env: Env, found: Lookup, id: string)
    ensures Show(env, found, id).Ok? <==> Recoverable(found, id)
    ensures Show(env, found, id).Ok? ==> Recovers(found.value.value, Show(env, found, id).value)
  {
    ValidIds(id);
    if Show(env, found, id).Ok? {
      var argv := Build(found.value.value).value;
      assert [argv[0]] + argv[1..] == argv;
    }
  }

  /** How the terminal automation ended. After a timeout the terminal may have accepted the command. */
  datatype Opening = Opened | TimedOut | Refused

  datatype Request = Request(id: string, confirmationId: string, terminal: string)

  /** What the world answers during one execution: the lookup, the terminal, the process probes, and whether the
    * transaction commits (it does not when the process dies first). */
  datatype Answers = Answers(found: Lookup, opening: Opening, seen: Probe, self: Probe, owner: Probe, token: Token, commits: bool)

  /** The row left behind, whether the session was marked running, what a terminal was asked to run, and the reply. */
  datatype Execution = Execution(row: Option<Row>, marked: bool, ran: Option<Preview>, reply: Result<Preview, RecoveryError>)

  function Execute(env: Env, row: Option<Row>, pid: int, q: Request, a: Answers): Execution {
    if q.terminal !in {"auto", "Terminal", "iTerm", "Warp"} then Execution(row, false, None, Err(InvalidTerminal))
    else
      var gate := Check(row, pid, a.seen);
      var shown := Show(env, a.found, q.id);
      if gate.Err? then Execution(row, false, None, Err(GateFailed(gate.error)))
      else if gate.value.running then Execution(row, false, None, Err(GateBusy))
      else if shown.Err? then Execution(row, false, None, Err(shown.error))
      else if env.hash(shown.value) != q.confirmationId then Execution(row, false, None, Err(PreviewChanged))
      else if a.opening.Refused? then Execution(row, false, None, Err(OpenFailed))
      else if a.opening.Opened? then
        if a.commits then Execution(row, true, Some(shown.value), Ok(shown.value))
        else Execution(row, false, Some(shown.value), Err(CommitLost))
      else
        var latch := Begin(row, pid, a.token, a.self, a.owner);
        if latch.Err? then Execution(row, false, Some(shown.value), Err(GateFailed(latch.error)))
        else if a.commits then Execution(Fail(Some(latch.value), a.token), false, Some(shown.value), Err(OpenTimedOut))
        else Execution(row, false, Some(shown.value), Err(CommitLost))
  }

  /** The launch left a trace that blocks a second one: it committed, and after a timeout the gate could be taken. */
  predicate Recorded(row: Option<Row>, pid: int, a: Answers) {
    a.commits && (a.opening.Opened? || Begin(row, pid, a.token, a.self, a.owner).Ok?)
  }

  class RecoveryHandler {
    const env: Env
    const gate: SharedRow
    var statuses: map<string, SessionStatus>
    var launched: seq<Preview>   // what terminals were asked to run

    constructor (env: Env, gate: SharedRow, statuses: map<string, SessionStatus>)
      ensures this.env == env && this.gate == gate && this.statuses == statuses && launched == []
    {
      this.env, this.gate, this.statuses, this.launched := env, gate, statuses, [];
    }

    /** `preview` */
    method PreviewRecovery(pid: int, id: string, found: Lookup, owner: Probe) returns (r: Result<Preview, RecoveryError>)
      modifies gate
      ensures var gateWas := Check(old(gate.row), pid, owner);
              && gate.row == (if gateWas.Ok? then gateWas.value.row else old(gate.row))
              && r == (if gateWas.Err? then Err(GateFailed(gateWas.error))
                       else if gateWas.value.running then Err(GateBusy)
                       else Show(env, found, id))
      ensures r.Ok? ==> Recoverable(found, id) && Recovers(found.value.value, r.value)
    {
      var running := gate.IsSessionReconciliationRunning(pid, owner);
      if running.Err? { return Err(GateFailed(running.error)); }
      if running.value { return Err(GateBusy); }
      if found.Err? { return Err(found.error); }
      if found.value.None? { return Err(NotFound); }
      var s := found.value.value;
      if s.sessionId != id { return Err(IdentityChanged); }
      if s.status != Lost { return Err(NotLost); }
      if s.recommended !in s.methods { return Err(MethodGone); }
      var built := Build(s);
      if built.None? { return Err(InvalidSessionId); }
      var argv := built.value;
      if argv[0] !in {"codex", "claude", "claude-code"} { return Err(BadExecutable); }
      ShownRecovers(env, found, id);
      r := Ok(Preview(s.sessionId, s.runtime, s.recommended, argv[0], argv[1..], s.directory, s.recommended == New));
    }

    /** `execute`: every exception rolls the row and the session back; the terminal cannot be rolled back. */
    method ExecuteRecovery(pid: int, q: Request, a: Answers) returns (reply: Result<Preview, RecoveryError>)
      modifies this, gate
      ensures var x := Execute(env, old(gate.row), pid, q, a);
              && gate.row == x.row && reply == x.reply
              && statuses == (if x.marked then old(statuses)[q.id := Running] else old(statuses))
              && launched == (if x.ran.Some? then old(launched) + [x.ran.value] else old(launched))
      ensures launched != old(launched) ==>
                Recoverable(a.found, q.id) && Recovers(a.found.value.value, launched[|launched| - 1])
    {
      if q.terminal !in {"auto", "Terminal", "iTerm", "Warp"} { return Err(InvalidTerminal); }
      var rowBefore, statusesBefore := gate.row, statuses;
      reply := PreviewRecovery(pid, q.id, a.found, a.seen);
      if reply.Ok? && env.hash(reply.value) != q.confirmationId { reply := Err(PreviewChanged); }
      if reply.Ok? && a.opening.Refused? { reply := Err(OpenFailed); }
      if reply.Err? {
        gate.row := rowBefore;
        return;
      }
      launched := launched + [reply.value];
      if a.opening.TimedOut? {
        var latch := gate.BeginSessionReconciliation(pid, a.token, a.self, a.owner);
        if latch.Err? {
          gate.row := rowBefore;
          return Err(GateFailed(latch.error));
        }
        var _ := gate.FailSessionReconciliation(a.token);
        reply := Err(OpenTimedOut);
      } else {
        statuses := statuses[q.id := Running];
      }
      if !a.commits {
        gate.row, statuses := rowBefore, statusesBefore;
        reply := Err(CommitLost);
      }
    }
  }

  // ----- What one execution guarantees -----

  /** The preview that is shown for a source is the only one that says what will run. */
  lemma OnePreview(s: Source, a: Preview, b: Preview)
    requires Recovers(s, a) && Recovers(s, b)
    ensures a == b
  {
    assert ([a.executable] + a.arguments)[1..] == a.arguments;
    assert ([b.executable] + b.arguments)[1..] == b.arguments;
  }

  /** The user confirmed what would run. */
  ghost predicate Confirms(env: Env, s: Source, confirmationId: string) {
    exists shown :: Recovers(s, shown) && env.hash(shown) == confirmationId
  }

  /** A terminal runs something exactly when the gate is open, the session recoverable and the user confirmed what would
    * run, unless it refuses; and then it runs the command built for the session that was looked up. */
  lemma RunsWhatWasBuilt(env: Env, row: Option<Row>, pid: int, q: Request, a: Answers)
    ensures var x := Execute(env, row, pid, q, a);
            && (x.ran.Some? <==>
                  && q.terminal in {"auto", "Terminal", "iTerm", "Warp"} && !a.opening.Refused?
                  && Check(row, pid, a.seen).Ok? && !Check(row, pid, a.seen).value.running
                  && Recoverable(a.found, q.id) && Confirms(env, a.found.value.value, q.confirmationId))
            && (x.ran.Some? ==> Recovers(a.found.value.value, x.ran.value))
  {
    hide Build, Check, Recovers, Show, Begin, Fail;
    ShownRecovers(env, a.found, q.id);
    if Recoverable(a.found, q.id) {
      var s, shown := a.found.value.value, Show(env, a.found, q.id).value;
      forall other | Recovers(s, other) ensures other == shown { OnePreview(s, other, shown); }
    }
  }

  /** A terminal only ever runs the confirmed preview of a lost session, while the gate is open. */
  lemma OpensOnlyWhatWasConfirmed(env: Env, row: Option<Row>, pid: int, q: Request, a: Answers, confirmed: Preview)
    requires Execute(env, row, pid, q, a).ran.Some?
    requires forall x, y :: env.hash(x) == env.hash(y) ==> x == y
    requires env.hash(confirmed) == q.confirmationId
    ensures Execute(env, row, pid, q, a).ran.value == confirmed
    ensures confirmed.sessionId == q.id && confirmed.executable in {"codex", "claude", "claude-code"}
    ensures Recoverable(a.found, q.id) && Recovers(a.found.value.value, confirmed)
    ensures Check(row, pid, a.seen) == Ok(Checked(row, false)) && !Unfinished(row)
    ensures a.found.value.value.status == Lost
  {
    RunsWhatWasBuilt(env, row, pid, q, a);
    OpenMeansNothingPending(row, pid, a.seen);
  }

  /** A launch is recorded exactly when its transaction changed something: the session is running, or the gate is failed
    * under a token of its own. Otherwise everything is as before the launch. */
  lemma LaunchLeavesATraceIff(env: Env, row: Option<Row>, pid: int, q: Request, a: Answers)
    requires Execute(env, row, pid, q, a).ran.Some?
    requires !Owns(row, a.token)
    ensures var x := Execute(env, row, pid, q, a);
            && (Recorded(row, pid, a) <==> x.marked || x.row != row)
            && (Recorded(row, pid, a) ==> x.marked || (Owns(x.row, a.token) && x.row.value.phase.Failed?))
  {
    OpenMeansNothingPending(row, pid, a.seen);
  }
}
