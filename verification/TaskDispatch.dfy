/** `TaskDispatchService`: which observed session a launched task is linked to. */
module TaskDispatch {
  import opened Outcomes
  import opened Basics

  datatype Runtime = Codex | ClaudeCode

  /** A session row; `directory` is None when its path no longer exists. */
  datatype Session = Session(sessionId: string, runtime: Runtime, directory: Option<string>, isSubAgent: bool, lastActiveAt: int,
                             initialPrompt: string)

  /** `encodeAgentSessionId` hashes the pair; collisions are not part of this model. */
  datatype Agent = Agent(runtime: Runtime, sessionId: string)

  datatype DispatchState = Queued | Launching | AwaitingSession | Ambiguous | Linked | Failed

  datatype Dispatch = Dispatch(workItemId: string, runtime: Runtime, cwd: string, prompt: string, terminal: string, key: string,
                               state: DispatchState, preLaunch: set<string>, candidates: seq<string>, linked: Option<Agent>,
                               launchedAt: Option<int>, deadline: int)

  /** The `task_dispatches` table by id. */
  type Rows = map<string, Dispatch>

  /** The two unique indexes of the table. */
  ghost predicate RowsOk(rows: Rows) {
    forall a, b :: a in rows && b in rows && a != b ==>
      rows[a].key != rows[b].key && (rows[a].linked.Some? ==> rows[a].linked != rows[b].linked)
  }

  predicate Pending(d: Dispatch) {
    d.state in {Queued, Launching, AwaitingSession, Ambiguous}
  }

  // ----- Creating a dispatch -----

  /** The request as stored: prompt and key trimmed, directory canonical. */
  datatype Request = Request(workItemId: string, runtime: Runtime, cwd: string, prompt: string, terminal: string, key: string)

  predicate SamePayload(d: Dispatch, q: Request) {
    d.workItemId == q.workItemId && d.runtime == q.runtime && d.cwd == q.cwd && d.prompt == q.prompt && d.terminal == q.terminal
  }

  function NewRow(q: Request, preLaunch: set<string>, deadline: int): Dispatch {
    Dispatch(q.workItemId, q.runtime, q.cwd, q.prompt, q.terminal, q.key, Queued, preLaunch, [], None, None, deadline)
  }

  /** The input of `dispatch`. */
  datatype Input = Input(workItemId: string, runtime: Runtime, cwd: string, prompt: string, terminal: Option<string>, key: string)

  /** Path canonicalisation and `trim` are not part of this model. */
  datatype Text = Text(trim: string -> string, canonical: string -> Option<string>)

  datatype DispatchError = WorkItemNotFound | KeyRequired | PromptRequired | CwdRequired | NotADirectory | KeyConflict | LaunchFailed

  function Checked(t: Text, itemExists: bool, input: Input): Result<Request, DispatchError> {
    var cwd := t.canonical(input.cwd);
    if !itemExists then Err(WorkItemNotFound)
    else if t.trim(input.key) == "" || |input.key| > 240 then Err(KeyRequired)
    else if t.trim(input.prompt) == "" || |input.prompt| > 20000 then Err(PromptRequired)
    else if input.cwd == "" || |input.cwd| > 2048 then Err(CwdRequired)
    else if cwd.None? then Err(NotADirectory)
    else Ok(Request(input.workItemId, input.runtime, cwd.value, t.trim(input.prompt), input.terminal.GetOr("auto"), t.trim(input.key)))
  }

  /** What surrounds one call: the UUID of a new row, the root sessions there before the launch, the clock before and after
    * it, whether the terminal could be opened, and whether the work item could then be updated. */
  datatype Attempt = Attempt(id: string, preLaunch: set<string>, now: int, timeout: int, opens: bool, launchedAt: int, updates: bool)

  /** The row that a call which finds its key unused leaves behind. */
  function LaunchedRow(q: Request, a: Attempt): Dispatch {
    var row := NewRow(q, a.preLaunch, a.now + a.timeout);
    if !a.opens then row.(state := Failed)
    else row.(state := if a.updates then AwaitingSession else Failed, launchedAt := Some(a.launchedAt))
  }

  // ----- The launch command -----

  datatype Command = Command(executable: string, argument: string, cwd: string, terminal: string)

  const REPORT_BACK :=
    "Only after the task is fully " + "complete and verified, " + "end your final response " + "with this exact line:"
  const NOT_WHEN_BLOCKED := "Do not output that line when blocked, " + "waiting for input, or incomplete."

  /** The prompt of `buildLaunch`: the task's own, the line that marks it, and for Claude how to report completion. */
  function LaunchPrompt(runtime: Runtime, prompt: string, workItemId: string, id: string): string {
    var dispatched := prompt + "\n\nKEEPLINE_DISPATCH_ID:" + id;
    if runtime.Codex? then dispatched
    else dispatched + "\n\n" + REPORT_BACK + "\nKEEPLINE_COMPLETE_WORK_ITEM:" + workItemId + "\n" + NOT_WHEN_BLOCKED
  }

  function CommandOf(q: Request, id: string): Command {
    Command(if q.runtime.Codex? then "codex" else "claude", LaunchPrompt(q.runtime, q.prompt, q.workItemId, id), q.cwd, q.terminal)
  }

  // ----- Candidates and markers -----

  /** A root session of the same runtime and directory that was not there before the launch and was active after it. */
  predicate Eligible(d: Dispatch, s: Session)
    requires d.launchedAt.Some?
  {
    && !s.isSubAgent && !StartsWith(s.sessionId, "agent-")
    && s.runtime == d.runtime
    && s.sessionId !in d.preLaunch
    && s.lastActiveAt >= d.launchedAt.value
    && s.directory == Some(d.cwd)
  }

  function EligibleOf(d: Dispatch, sessions: seq<Session>): (r: seq<Session>)
    requires d.launchedAt.Some?
    ensures forall s :: s in r <==> s in sessions && Eligible(d, s)
  {
    if |sessions| == 0 then []
    else
      var n := |sessions| - 1;
      EligibleOf(d, sessions[..n]) + if Eligible(d, sessions[n]) then [sessions[n]] else []
  }

  /** The candidates of a dispatch whose deadline has not passed when the scan starts; otherwise it has none. */
  function CandidatesOf(d: Dispatch, sessions: seq<Session>, now: int): seq<Session> {
    if d.launchedAt.None? || now > d.deadline then [] else EligibleOf(d, sessions)
  }

  /** `prompt.split('\n').includes(line)` */
  predicate HasLine(prompt: string, line: string) {
    var first := UpToNewline(prompt);
    first == line || (|first| < |prompt| && HasLine(prompt[|first| + 1..], line))
  }

  function UpToNewline(s: string): (r: string)
    ensures |r| <= |s|
  {
    if |s| == 0 || s[0] == '\n' then "" else [s[0]] + UpToNewline(s[1..])
  }

  predicate Marks(prompt: string, id: string) {
    HasLine(prompt, "KEEPLINE_DISPATCH_ID:" + id)
  }

  function MarkedFor(id: string, sessions: seq<Session>, prompt: string -> string): (r: seq<Session>)
    ensures forall s :: s in r <==> s in sessions && Marks(prompt(s.sessionId), id)
  {
    if |sessions| == 0 then []
    else
      var n := |sessions| - 1;
      MarkedFor(id, sessions[..n], prompt) + if Marks(prompt(sessions[n].sessionId), id) then [sessions[n]] else []
  }

  // ----- One scan -----

  /** What a scan remembers while it works through the pending dispatches: the time it started, the candidates of each
    * dispatch, the launch prompts it read, and which pending dispatches each session is marked for. */
  datatype Plan = Plan(now: int, candidates: map<string, seq<Session>>, prompt: string -> string, owners: map<string, set<string>>) {
    function Candidates(id: string): seq<Session> {
      if id in candidates then candidates[id] else []
    }

    function Trusted(id: string): seq<Session> {
      MarkedFor(id, Candidates(id), prompt)
    }

    function Owners(session: string): set<string> {
      if session in owners then owners[session] else {}
    }
  }

  predicate ClaimedBy(trusted: seq<Session>, session: string) {
    exists s :: s in trusted && s.sessionId == session
  }

  /** The plan a scan computes from the rows and sessions it read. */
  ghost predicate PlanFor(plan: Plan, rows: Rows, sessions: seq<Session>) {
    && (forall id :: id in rows && Pending(rows[id]) ==> plan.Candidates(id) == CandidatesOf(rows[id], sessions, plan.now))
    && (forall id :: !(id in rows && Pending(rows[id])) ==> plan.Candidates(id) == [])
    && (forall session, id :: id in plan.Owners(session) <==> ClaimedBy(plan.Trusted(id), session))
  }

  /** Session ids are unique in storage. */
  predicate UniqueSessions(sessions: seq<Session>) {
    forall s, t :: s in sessions && t in sessions && s.sessionId == t.sessionId ==> s == t
  }

  /** The map holds every given session under its id. */
  predicate Holds(bySession: map<string, Session>, some: seq<Session>) {
    forall s :: s in some ==> s.sessionId in bySession && bySession[s.sessionId] == s
  }

  predicate AllFrom(bySession: map<string, Session>, sessions: seq<Session>) {
    forall id :: id in bySession ==> bySession[id] in sessions && bySession[id].sessionId == id
  }

  /** The first loop: candidates of every pending dispatch, and all of them together by id. */
  method CollectCandidates(rows: Rows, pending: seq<string>, sessions: seq<Session>, now: int)
    returns (found: map<string, seq<Session>>, bySession: map<string, Session>)
    requires forall id :: id in pending <==> id in rows && Pending(rows[id])
    requires UniqueSessions(sessions)
    ensures found.Keys <= rows.Keys
    ensures forall id :: id in pending ==> (if id in found then found[id] else []) == CandidatesOf(rows[id], sessions, now)
    ensures forall id :: id in found ==> id in pending && Holds(bySession, found[id])
    ensures AllFrom(bySession, sessions)
  {
    hide Eligible, EligibleOf;
    found, bySession := map[], map[];
    for k := 0 to |pending|
      invariant forall id :: id in found ==> id in pending[..k] && Holds(bySession, found[id])
      invariant forall id :: id in pending[..k] ==> (if id in found then found[id] else []) == CandidatesOf(rows[id], sessions, now)
      invariant AllFrom(bySession, sessions)
    {
      assert pending[..k + 1] == pending[..k] + [pending[k]];
      var d := rows[pending[k]];
      if d.launchedAt.None? || now > d.deadline { continue; }
      var candidates := EligibleOf(d, sessions);
      found := found[pending[k] := candidates];
      bySession := RememberAll(bySession, candidates, sessions);
    }
  }

  method RememberAll(bySession: map<string, Session>, candidates: seq<Session>, ghost sessions: seq<Session>)
    returns (more: map<string, Session>)
    requires UniqueSessions(sessions) && AllFrom(bySession, sessions) && forall s :: s in candidates ==> s in sessions
    ensures AllFrom(more, sessions) && Holds(more, candidates)
    ensures forall some :: Holds(bySession, some) ==> Holds(more, some)
  {
    more := bySession;
    for k := 0 to |candidates|
      invariant AllFrom(more, sessions)
      invariant forall j :: 0 <= j < k ==> candidates[j].sessionId in more && more[candidates[j].sessionId] == candidates[j]
      invariant forall id :: id in bySession ==> id in more && more[id] == bySession[id]
    {
      assert candidates[k] in sessions;
      more := more[candidates[k].sessionId := candidates[k]];
    }
  }

  // ----- Launch prompts -----

  /** What one scan of a runtime's transcripts yields: the launch prompt of each session it could read, where there is one,
    * and whether any file could not be read. */
  datatype RuntimeScan = RuntimeScan(prompts: map<string, Option<string>>, failed: bool)

  /** The prompt a session is judged by. The stored one stands in only if nothing failed to be read. */
  function PromptOf(scan: RuntimeScan, s: Session): string {
    if s.sessionId in scan.prompts && scan.prompts[s.sessionId].Some? then scan.prompts[s.sessionId].value
    else if scan.failed then "" else s.initialPrompt
  }

  /** The loop over the candidates of one runtime. */
  method CollectPrompts(runtime: Runtime, scan: RuntimeScan, bySession: map<string, Session>, prompts: map<string, string>)
    returns (more: map<string, string>)
    requires forall id :: id in bySession ==> bySession[id].sessionId == id
    ensures forall id :: id in bySession && bySession[id].runtime == runtime ==> id in more && more[id] == PromptOf(scan, bySession[id])
    ensures forall id :: id in prompts && !(id in bySession && bySession[id].runtime == runtime) ==> id in more && more[id] == prompts[id]
  {
    more := prompts;
    var rest := bySession.Keys;
    while rest != {}
      invariant rest <= bySession.Keys
      invariant forall id :: id in bySession && id !in rest && bySession[id].runtime == runtime ==>
                  id in more && more[id] == PromptOf(scan, bySession[id])
      invariant forall id :: id in prompts && !(id in bySession && bySession[id].runtime == runtime) ==>
                  id in more && more[id] == prompts[id]
      decreases |rest|
    {
      var id :| id in rest;
      rest := rest - {id};
      if bySession[id].runtime == runtime {
        more := more[id := PromptOf(scan, bySession[id])];
      }
    }
  }

  method ReadPrompts(codex: RuntimeScan, claude: RuntimeScan, bySession: map<string, Session>) returns (prompts: map<string, string>)
    requires forall id :: id in bySession ==> bySession[id].sessionId == id
    ensures forall id :: id in bySession ==>
              id in prompts && prompts[id] == PromptOf(if bySession[id].runtime.Codex? then codex else claude, bySession[id])
  {
    hide PromptOf;
    prompts := CollectPrompts(Codex, codex, bySession, map[]);
    prompts := CollectPrompts(ClaudeCode, claude, bySession, prompts);
  }

  lemma ScanMakesAPlan(rows: Rows, pending: seq<string>, sessions: seq<Session>, bare: Plan, owners: map<string, set<string>>)
    requires forall id :: id in pending <==> id in rows && Pending(rows[id])
    requires forall id :: id in pending ==> bare.Candidates(id) == CandidatesOf(rows[id], sessions, bare.now)
    requires forall id :: id in bare.candidates ==> id in pending
    requires forall session, id :: (session in owners && id in owners[session]) <==> ClaimedBy(bare.Trusted(id), session)
    ensures PlanFor(bare.(owners := owners), rows, sessions)
  {
    hide CandidatesOf, ClaimedBy, MarkedFor, Pending;
    var plan := bare.(owners := owners);
    assert forall id :: plan.Trusted(id) == bare.Trusted(id);
  }

  /** A session whose transcript was not read, in a scan in which something failed, is marked for nothing. */
  lemma FailedReadIsNoEvidence(plan: Plan, scan: RuntimeScan, s: Session, id: string)
    requires plan.prompt(s.sessionId) == PromptOf(scan, s)
    requires scan.failed && (s.sessionId in scan.prompts ==> scan.prompts[s.sessionId].None?)
    ensures s !in plan.Trusted(id)
  {
    assert |"KEEPLINE_DISPATCH_ID:" + id| >= 21;
  }

  function AddOwner(owners: map<string, set<string>>, session: string, id: string): map<string, set<string>> {
    owners[session := (if session in owners then owners[session] else {}) + {id}]
  }

  /** The second loop: the pending dispatches that each session is marked for. */
  method CollectOwners(pending: seq<string>, plan: Plan) returns (owners: map<string, set<string>>)
    requires forall id :: id !in pending ==> plan.Candidates(id) == []
    ensures forall session, id :: (session in owners && id in owners[session]) <==> ClaimedBy(plan.Trusted(id), session)
  {
    hide MarkedFor, ClaimedBy;
    NobodyClaimed();
    owners := map[];
    for k := 0 to |pending|
      invariant forall session, id :: (session in owners && id in owners[session])
                                      <==> id in pending[..k] && ClaimedBy(plan.Trusted(id), session)
    {
      var id := pending[k];
      var trusted := plan.Trusted(id);
      for j := 0 to |trusted|
        invariant forall session, other :: (session in owners && other in owners[session])
                    <==> (other in pending[..k] && ClaimedBy(plan.Trusted(other), session))
                         || (other == id && ClaimedBy(trusted[..j], session))
      {
        assert trusted[..j + 1] == trusted[..j] + [trusted[j]];
        forall session ensures ClaimedBy(trusted[..j + 1], session) <==> ClaimedBy(trusted[..j], session) || session == trusted[j].sessionId {
          ClaimedByOneMore(trusted[..j], trusted[j], session);
        }
        owners := AddOwner(owners, trusted[j].sessionId, id);
      }
      assert trusted[..|trusted|] == trusted;
      assert pending[..k + 1] == pending[..k] + [id];
    }
    forall session, id | ClaimedBy(plan.Trusted(id), session) ensures id in pending {
      OnlyCandidatesAreClaimed(plan, id, session);
    }
    assert pending[..|pending|] == pending;
  }

  lemma NobodyClaimed()
    ensures forall session :: !ClaimedBy([], session)
  {
  }

  lemma OnlyCandidatesAreClaimed(plan: Plan, id: string, session: string)
    requires ClaimedBy(plan.Trusted(id), session)
    ensures plan.Candidates(id) != []
  {
  }

  lemma ClaimedByOneMore(trusted: seq<Session>, s: Session, session: string)
    ensures ClaimedBy(trusted + [s], session) <==> ClaimedBy(trusted, session) || session == s.sessionId
  {
    if ClaimedBy(trusted, session) {
      var t :| t in trusted && t.sessionId == session;
      assert t in trusted + [s];
    }
    if session == s.sessionId { assert s in trusted + [s]; }
  }

  // ----- One dispatch of a scan, in one transaction -----

  predicate LinkedElsewhere(rows: Rows, id: string, a: Agent) {
    exists other :: other in rows && other != id && rows[other].state == Linked && rows[other].linked == Some(a)
  }

  /** `claimAgentSession` refuses a session that any other row holds. */
  predicate HeldElsewhere(rows: Rows, id: string, a: Agent) {
    exists other :: other in rows && other != id && rows[other].linked == Some(a)
  }

  predicate HasShared(rows: Rows, plan: Plan, id: string, runtime: Runtime) {
    exists s :: s in plan.Trusted(id) &&
      (|plan.Owners(s.sessionId)| > 1 || LinkedElsewhere(rows, id, Agent(runtime, s.sessionId)))
  }

  /** Exactly one marked candidate, and nobody else's. */
  predicate Unique(rows: Rows, plan: Plan, id: string)
    requires id in rows
  {
    |plan.Trusted(id)| == 1 && !HasShared(rows, plan, id, rows[id].runtime)
  }

  function IdsOf(sessions: seq<Session>): seq<string> {
    seq(|sessions|, i requires 0 <= i < |sessions| => sessions[i].sessionId)
  }

  function Link(d: Dispatch, s: Session): Dispatch {
    d.(state := Linked, candidates := [s.sessionId], linked := Some(Agent(s.runtime, s.sessionId)))
  }

  /** The row after `reconcilePending` treated it; `later` is the clock inside the transaction. */
  function Reconciled(rows: Rows, plan: Plan, id: string, later: int): Dispatch
    requires id in rows
  {
    var d := rows[id];
    var trusted := plan.Trusted(id);
    if d.state == Linked || d.state == Failed then d
    else if (if Unique(rows, plan, id) then plan.now else later) > d.deadline then d.(state := Failed)
    else if d.launchedAt.None? then d
    else if Unique(rows, plan, id) then
      if HeldElsewhere(rows, id, Agent(trusted[0].runtime, trusted[0].sessionId))
      then d.(state := Ambiguous, candidates := [trusted[0].sessionId])
      else Link(d, trusted[0])
    else if |plan.Candidates(id)| > 0 then d.(state := Ambiguous, candidates := IdsOf(plan.Candidates(id)))
    else d.(state := AwaitingSession, candidates := [])
  }

  datatype ResolveError = DispatchNotFound | NotAwaiting | DeadlinePassed | NotACandidate | SessionNotFound | ClaimConflict

  function Resolve(rows: Rows, id: string, session: string, found: Option<Session>, now: int): Result<Dispatch, ResolveError> {
    if id !in rows then Err(DispatchNotFound)
    else
      var d := rows[id];
      if d.state != Ambiguous && d.state != AwaitingSession then Err(NotAwaiting)
      else if now > d.deadline then Err(DeadlinePassed)
      else if session !in d.candidates then Err(NotACandidate)
      else if found.None? then Err(SessionNotFound)
      else if HeldElsewhere(rows, id, Agent(found.value.runtime, found.value.sessionId)) then Err(ClaimConflict)
      else Ok(Link(d, found.value))
  }

  lemma NewRowKeeps(rows: Rows, id: string, d: Dispatch)
    requires RowsOk(rows) && id !in rows && d.linked.None? && forall other :: other in rows ==> rows[other].key != d.key
    ensures RowsOk(rows[id := d])
  {
  }

  class DispatchTable {
    var rows: Rows
    var commands: seq<Command>   // what terminals were asked to run

    constructor ()
      ensures rows == map[] && commands == [] && RowsOk(rows)
    {
      rows, commands := map[], [];
    }

    /** `dispatch`, when no other call for the same key is under way. A known key never launches anything again. */
    method Dispatch(t: Text, itemExists: bool, input: Input, a: Attempt)
      returns (r: Result<string, DispatchError>, launched: bool)
      requires RowsOk(rows) && a.id !in rows
      modifies this
      ensures RowsOk(rows)
      ensures launched <==> rows != old(rows)
      ensures launched ==> Checked(t, itemExists, input).Ok?
      ensures commands == if launched then old(commands) + [CommandOf(Checked(t, itemExists, input).value, a.id)] else old(commands)
      ensures var q := Checked(t, itemExists, input);
              if q.Err? then rows == old(rows) && r == Err(q.error)
              else if exists id :: id in old(rows) && old(rows)[id].key == q.value.key then
                && rows == old(rows)
                && (if r.Ok? then r.value in rows && rows[r.value].key == q.value.key && SamePayload(rows[r.value], q.value)
                    else r.error == KeyConflict && exists id :: id in rows && rows[id].key == q.value.key && !SamePayload(rows[id], q.value))
              else rows == old(rows)[a.id := LaunchedRow(q.value, a)] && r == (if a.opens && a.updates then Ok(a.id) else Err(LaunchFailed))
    {
      hide Checked, RowsOk, SamePayload;
      var q := Checked(t, itemExists, input);
      launched := false;
      if q.Err? { return Err(q.error), false; }
      if exists id :: id in rows && rows[id].key == q.value.key {
        var id :| id in rows && rows[id].key == q.value.key;
        r := if SamePayload(rows[id], q.value) then Ok(id) else Err(KeyConflict);
        return;
      }
      NewRowKeeps(rows, a.id, LaunchedRow(q.value, a));
      launched := true;
      r := Launch(q.value, a);
    }

    /** The part of `dispatch` after the lookup: a new row that goes through `queued` and `launching`. */
    method Launch(q: Request, a: Attempt) returns (r: Result<string, DispatchError>)
      requires a.id !in rows
      modifies this
      ensures commands == old(commands) + [CommandOf(q, a.id)]
      ensures rows == old(rows)[a.id := LaunchedRow(q, a)] && r == if a.opens && a.updates then Ok(a.id) else Err(LaunchFailed)
    {
      var row := NewRow(q, a.preLaunch, a.now + a.timeout);
      rows := rows[a.id := row];
      row := row.(state := Launching);
      rows := rows[a.id := row];
      commands := commands + [CommandOf(q, a.id)];
      if a.opens {
        row := row.(state := AwaitingSession, launchedAt := Some(a.launchedAt));
        rows := rows[a.id := row];
        if a.updates { return Ok(a.id); }
      }
      rows := rows[a.id := row.(state := Failed)];
      r := Err(LaunchFailed);
    }

    /** `claimAgentSession`: false when another row holds the session. */
    method Claim(id: string, s: Session) returns (claimed: bool)
      requires id in rows && RowsOk(rows)
      modifies this`rows
      ensures RowsOk(rows)
      ensures claimed <==> !HeldElsewhere(old(rows), id, Agent(s.runtime, s.sessionId))
      ensures rows == if claimed then old(rows)[id := Link(old(rows)[id], s)] else old(rows)
    {
      var a := Agent(s.runtime, s.sessionId);
      claimed := !HeldElsewhere(rows, id, a);
      if claimed { rows := rows[id := Link(rows[id], s)]; }
    }

    /** The transaction of `reconcilePending` for one dispatch. */
    method Reconcile(plan: Plan, id: string, later: int)
      requires RowsOk(rows)
      modifies this`rows
      ensures RowsOk(rows)
      ensures rows == if id in old(rows) then old(rows)[id := Reconciled(old(rows), plan, id, later)] else old(rows)
    {
      if id !in rows { return; }
      var d := rows[id];
      if d.state == Linked || d.state == Failed { return; }
      var trusted := plan.Trusted(id);
      var unique := |trusted| == 1 && !HasShared(rows, plan, id, d.runtime);
      if (if unique then plan.now else later) > d.deadline {
        rows := rows[id := d.(state := Failed)];
        return;
      }
      if d.launchedAt.None? { return; }
      if unique {
        var claimed := Claim(id, trusted[0]);
        if !claimed { rows := rows[id := d.(state := Ambiguous, candidates := [trusted[0].sessionId])]; }
        return;
      }
      if |plan.Candidates(id)| > 0 {
        rows := rows[id := d.(state := Ambiguous, candidates := IdsOf(plan.Candidates(id)))];
      } else {
        rows := rows[id := d.(state := AwaitingSession, candidates := [])];
      }
    }

    /** The first part of `reconcilePending`: one scan over the pending rows, with each runtime's transcripts read once. */
    method Scan(pending: seq<string>, sessions: seq<Session>, now: int, codex: RuntimeScan, claude: RuntimeScan) returns (plan: Plan)
      requires forall id :: id in pending <==> id in rows && Pending(rows[id])
      requires UniqueSessions(sessions)
      ensures plan.now == now && PlanFor(plan, rows, sessions)
      ensures forall id, s :: s in plan.Candidates(id) ==> plan.prompt(s.sessionId) == PromptOf(if s.runtime.Codex? then codex else claude, s)
    {
      hide PromptOf, CandidatesOf, UniqueSessions, PlanFor, ClaimedBy, MarkedFor;
      var candidates, bySession := CollectCandidates(rows, pending, sessions, now);
      var prompts := ReadPrompts(codex, claude, bySession);
      var prompt := (session: string) => if session in prompts then prompts[session] else "";
      var bare := Plan(now, candidates, prompt, map[]);
      var owners := CollectOwners(pending, bare);
      plan := bare.(owners := owners);
      ScanMakesAPlan(rows, pending, sessions, bare, owners);
    }

    /** `resolveSession` */
    method ResolveSession(id: string, session: string, found: Option<Session>, now: int) returns (r: Result<Dispatch, ResolveError>)
      requires RowsOk(rows)
      modifies this`rows
      ensures RowsOk(rows)
      ensures r == Resolve(old(rows), id, session, found, now)
      ensures rows == if r.Ok? then old(rows)[id := r.value] else old(rows)
    {
      if id !in rows { return Err(DispatchNotFound); }
      var d := rows[id];
      if d.state != Ambiguous && d.state != AwaitingSession { return Err(NotAwaiting); }
      if now > d.deadline { return Err(DeadlinePassed); }
      if session !in d.candidates { return Err(NotACandidate); }
      if found.None? { return Err(SessionNotFound); }
      var claimed := Claim(id, found.value);
      if !claimed { return Err(ClaimConflict); }
      r := Ok(rows[id]);
    }
  }
}
