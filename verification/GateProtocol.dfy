/** Every run of the gate: processes come and go, own it, rescan, crash, and recover. */
module GateProtocol {
  import opened Outcomes
  import opened ReconciliationGate
  import opened RecoveryLaunch

  // ----- The transition system -----

  datatype Identity = Identity(pid: int, start: string)

  /** Which PID and start time each process ever has. Different processes may share a PID, one after the other. */
  type People = nat -> Identity

  /** How far the holder of a token is: acquired, claims cleared by itself, full scan done after that. */
  datatype Stage = Begun | Cleared | Rescanned
  datatype Owner = Owner(process: nat, stage: Stage)

  /** `outstanding`: live claims were cleared, and the current owner has not finished a full scan since. */
  datatype World = World(row: Option<Row>, alive: set<nat>, born: set<nat>, tokens: map<Token, Owner>, outstanding: bool,
                         status: map<string, SessionStatus>)

  datatype Event =
    | Spawn(p: nat)
    | Exit(p: nat)
    | BeginGate(p: nat, token: Token, self: Probe, owner: Probe)
    | ClearClaims(p: nat, token: Token)
    | Rescan(p: nat, token: Token)
    | CompleteGate(p: nat, token: Token)
    | FailGate(p: nat, token: Token)
    | AskGate(p: nat, owner: Probe)
    | Observe(id: string, status: SessionStatus)   // any scan, hook or user action on one session
    | Recover(p: nat, q: Request, a: Answers)

  /** A probe of `pid` tells the truth or fails; it can only fail while the process exists. */
  predicate Sees(who: People, alive: set<nat>, pid: int, probe: Probe) {
    if exists p :: p in alive && who(p).pid == pid then
      probe.Unavailable? || exists p :: p in alive && who(p).pid == pid && probe == Started(who(p).start)
    else probe.Gone?
  }

  predicate SeesOwner(who: People, w: World, probe: Probe) {
    w.row.Some? && w.row.value.Held? && w.row.value.pid.Some? ==> Sees(who, w.alive, w.row.value.pid.value, probe)
  }

  predicate Fresh(w: World, token: Token) {
    token !in w.tokens && !Owns(w.row, token)
  }

  predicate Holds(w: World, p: nat, token: Token) {
    p in w.alive && token in w.tokens && w.tokens[token].process == p
  }

  predicate Enabled(who: People, w: World, e: Event) {
    match e
    case Spawn(p) => p !in w.born && who(p).start != "" && forall q :: q in w.alive ==> who(q).pid != who(p).pid
    case Exit(p) => p in w.alive
    case BeginGate(p, token, self, owner) =>
      p in w.alive && Fresh(w, token) && Sees(who, w.alive, who(p).pid, self) && SeesOwner(who, w, owner)
    case ClearClaims(p, token) => Holds(w, p, token)
    case Rescan(p, token) => Holds(w, p, token) && !w.tokens[token].stage.Begun?
    case CompleteGate(p, token) => Holds(w, p, token) && w.tokens[token].stage.Rescanned?
    case FailGate(p, token) => Holds(w, p, token)
    case AskGate(p, owner) => p in w.alive && SeesOwner(who, w, owner)
    case Observe(id, status) => true
    case Recover(p, q, a) =>
      && p in w.alive && Fresh(w, a.token) && Sees(who, w.alive, who(p).pid, a.self)
      && SeesOwner(who, w, a.seen) && SeesOwner(who, w, a.owner)
      && (a.found.Ok? && a.found.value.Some? ==>
            var s := a.found.value.value; s.sessionId in w.status && w.status[s.sessionId] == s.status)
  }

  /** `markActiveSessionsInterrupted` */
  function Interrupted(status: map<string, SessionStatus>): map<string, SessionStatus> {
    map id | id in status :: if status[id] in {Running, Waiting, Idle} then Lost else status[id]
  }

  function Next(who: People, env: Env, w: World, e: Event): World {
    match e
    case Spawn(p) => w.(alive := w.alive + {p}, born := w.born + {p})
    case Exit(p) => w.(alive := w.alive - {p})
    case BeginGate(p, token, self, owner) =>
      var r := Begin(w.row, who(p).pid, token, self, owner);
      if r.Err? then w else w.(row := Some(r.value), tokens := w.tokens[token := Owner(p, Begun)])
    case ClearClaims(p, token) =>
      var r := Invalidate(w.row, token);
      if r.Err? then w
      else w.(row := Some(r.value), tokens := w.tokens[token := Owner(p, Cleared)], outstanding := true,
              status := Interrupted(w.status))
    case Rescan(p, token) =>
      w.(tokens := w.tokens[token := Owner(p, Rescanned)], outstanding := w.outstanding && !Owns(w.row, token))
    case CompleteGate(p, token) => w.(row := Complete(w.row, token))
    case FailGate(p, token) => w.(row := Fail(w.row, token))
    case AskGate(p, owner) =>
      var c := Check(w.row, who(p).pid, owner);
      if c.Err? then w else w.(row := c.value.row)
    case Observe(id, status) => w.(status := w.status[id := status])
    case Recover(p, q, a) =>
      var x := Execute(env, w.row, who(p).pid, q, a);
      w.(row := x.row, status := if x.marked then w.status[q.id := Running] else w.status,
         tokens := if x.row != w.row then w.tokens[a.token := Owner(p, Begun)] else w.tokens)
  }

  /** The world after a run, and that each event of the run was possible. */
  function After(who: People, env: Env, w: World, run: seq<Event>): World {
    if |run| == 0 then w else Next(who, env, After(who, env, w, run[..|run| - 1]), run[|run| - 1])
  }

  predicate Possible(who: People, env: Env, w: World, run: seq<Event>) {
    |run| == 0 ||
    (Possible(who, env, w, run[..|run| - 1]) && Enabled(who, After(who, env, w, run[..|run| - 1]), run[|run| - 1]))
  }

  // ----- The invariant -----

  ghost predicate Inv(who: People, w: World) {
    && w.alive <= w.born
    && (forall p :: p in w.alive ==> who(p).start != "")
    && (forall p, q :: p in w.alive && q in w.alive && p != q ==> who(p).pid != who(q).pid)
    && (w.outstanding ==> Unfinished(w.row))
    && RowNamesOwner(who, w)
  }

  ghost predicate RowNamesOwner(who: People, w: World) {
    forall t :: t in w.tokens && Owns(w.row, t) ==>
      var o := w.tokens[t];
      && o.process in w.born && who(o.process).start != ""
      && w.row.value.pid == Some(who(o.process).pid) && w.row.value.start == Some(who(o.process).start)
      && (o.stage.Rescanned? ==> !w.outstanding)
  }

  /** Before anything runs: any row, left by earlier processes, that does not hide an unfinished invalidation of theirs. */
  ghost predicate Initial(w: World) {
    w.alive == {} && w.tokens == map[] && (w.outstanding ==> Unfinished(w.row))
  }

  lemma SelfProbe(who: People, w: World, p: nat, self: Probe)
    requires Inv(who, w) && p in w.alive && Sees(who, w.alive, who(p).pid, self) && self.Started?
    ensures self.start == who(p).start
  {
  }

  lemma BeginKeeps(who: People, w: World, p: nat, token: Token, self: Probe, owner: Probe)
    requires Inv(who, w) && Enabled(who, w, BeginGate(p, token, self, owner))
    ensures var r := Begin(w.row, who(p).pid, token, self, owner);
            r.Ok? ==> Inv(who, w.(row := Some(r.value), tokens := w.tokens[token := Owner(p, Begun)]))
                      && r.value.token == token && (Unfinished(w.row) ==> Unfinished(Some(r.value)))
  {
    if self.Started? { SelfProbe(who, w, p, self); }
  }

  lemma ExecuteKeeps(who: People, env: Env, w: World, p: nat, q: Request, a: Answers)
    requires Inv(who, w) && Enabled(who, w, Recover(p, q, a))
    ensures Inv(who, Next(who, env, w, Recover(p, q, a)))
  {
    var x := Execute(env, w.row, who(p).pid, q, a);
    if x.row != w.row {
      LaunchLeavesATraceIff(env, w.row, who(p).pid, q, a);
      BeginKeeps(who, w, p, a.token, a.self, a.owner);
      OpenMeansNothingPending(w.row, who(p).pid, a.seen);
    }
  }

  /** No event breaks the invariant. */
  lemma StepKeeps(who: People, env: Env, w: World, e: Event)
    requires Inv(who, w) && Enabled(who, w, e)
    ensures Inv(who, Next(who, env, w, e))
  {
    match e
    case BeginGate(p, token, self, owner) => BeginKeeps(who, w, p, token, self, owner);
    case Recover(p, q, a) => ExecuteKeeps(who, env, w, p, q, a);
    case _ =>
  }

  lemma {:induction false} RunKeeps(who: People, env: Env, w: World, run: seq<Event>)
    requires Inv(who, w) && Possible(who, env, w, run)
    ensures Inv(who, After(who, env, w, run))
  {
    if |run| > 0 {
      RunKeeps(who, env, w, run[..|run| - 1]);
      StepKeeps(who, env, After(who, env, w, run[..|run| - 1]), run[|run| - 1]);
    }
  }

  // ----- Safety of the gate -----

  /** Claims were cleared, and no owner has completed with its current token since: the whole time from the invalidation to
    * the completion, the full scan and whatever happens between scan and completion included. */
  predicate Pending(who: People, env: Env, start: World, run: seq<Event>) {
    if |run| == 0 then start.outstanding
    else
      var init, e := run[..|run| - 1], run[|run| - 1];
      var before := After(who, env, start, init);
      if e.ClearClaims? && Invalidate(before.row, e.token).Ok? then true
      else if e.CompleteGate? && Owns(before.row, e.token) then false
      else Pending(who, env, start, init)
  }

  lemma UnfinishedStep(who: People, env: Env, w: World, e: Event)
    requires Inv(who, w) && Enabled(who, w, e) && Unfinished(w.row)
    ensures Unfinished(Next(who, env, w, e).row) || (e.CompleteGate? && Owns(w.row, e.token))
  {
    if e.Recover? { UnfinishedSurvives(w.row, who(e.p).pid, 0, Gone, e.a.seen); }
  }

  lemma {:induction false} PendingIsUnfinished(who: People, env: Env, start: World, run: seq<Event>)
    requires Inv(who, start) && Possible(who, env, start, run)
    ensures Pending(who, env, start, run) ==> Unfinished(After(who, env, start, run).row)
    ensures After(who, env, start, run).outstanding ==> Pending(who, env, start, run)
    decreases |run|
  {
    hide Inv, Enabled;
    if |run| == 0 {
      OutstandingIsUnfinished(who, start);
    } else {
      var init, e := run[..|run| - 1], run[|run| - 1];
      var before := After(who, env, start, init);
      PendingIsUnfinished(who, env, start, init);
      RunKeeps(who, env, start, init);
      PendingStep(who, env, before, e);
    }
  }

  lemma OutstandingIsUnfinished(who: People, w: World)
    requires Inv(who, w)
    ensures w.outstanding ==> Unfinished(w.row)
  {
  }

  lemma PendingStep(who: People, env: Env, w: World, e: Event)
    requires Inv(who, w) && Enabled(who, w, e)
    ensures var after := Next(who, env, w, e);
            && (e.ClearClaims? && Invalidate(w.row, e.token).Ok? ==> Unfinished(after.row))
            && (Unfinished(w.row) && !(e.CompleteGate? && Owns(w.row, e.token)) ==> Unfinished(after.row))
            && (after.outstanding ==> w.outstanding || (e.ClearClaims? && Invalidate(w.row, e.token).Ok?))
            && (e.CompleteGate? && Owns(w.row, e.token) ==> !after.outstanding)
  {
    if Unfinished(w.row) { UnfinishedStep(who, env, w, e); }
  }

  /** In every reachable world, from the clearing of claims until its owner completes with the current token, the gate reads
    * `invalidated` or `failed`, and no process is told that it is open, whatever its probe says, also when owners die and
    * others take over. What still awaits its full scan is always part of that. */
  lemma GateStaysClosed(who: People, env: Env, start: World, run: seq<Event>, pid: int, owner: Probe)
    requires Initial(start) && Possible(who, env, start, run)
    ensures var w := After(who, env, start, run);
            && (Pending(who, env, start, run) ==>
                  && Unfinished(w.row)
                  && (Check(w.row, pid, owner).Ok? ==> Check(w.row, pid, owner).value.running))
            && (w.outstanding ==> Pending(who, env, start, run))
  {
    PendingIsUnfinished(who, env, start, run);
    var w := After(who, env, start, run);
    if Pending(who, env, start, run) {
      UnfinishedSurvives(w.row, pid, 0, Gone, owner);
    }
  }

  function Actor(e: Event): Option<nat> {
    match e
    case Spawn(_) => None
    case Observe(_, _) => None
    case Exit(p) => Some(p)
    case BeginGate(p, _, _, _) => Some(p)
    case ClearClaims(p, _) => Some(p)
    case Rescan(p, _) => Some(p)
    case CompleteGate(p, _) => Some(p)
    case FailGate(p, _) => Some(p)
    case AskGate(p, _) => Some(p)
    case Recover(p, _, _) => Some(p)
  }

  /** A true probe of a live owner answers live, or fails. */
  lemma LiveOwnerIsSeen(who: People, w: World, probe: Probe)
    requires Inv(who, w) && w.row.Some? && w.row.value.Held? && w.row.value.token in w.tokens
    requires w.tokens[w.row.value.token].process in w.alive && SeesOwner(who, w, probe)
    ensures OwnerIsLive(w.row.value, probe) != Ok(false)
  {
    assert Owns(w.row, w.row.value.token);
  }

  /** While the recorded owner lives, nothing another process does changes the row, even when PIDs are reused. */
  lemma LiveOwnerIsNotOvertaken(who: People, env: Env, w: World, e: Event)
    requires Inv(who, w) && Enabled(who, w, e)
    requires w.row.Some? && w.row.value.Held? && w.row.value.token in w.tokens
    requires var owner := w.tokens[w.row.value.token].process;
             owner in w.alive && Actor(e) != Some(owner)
    ensures Next(who, env, w, e).row == w.row
  {
    var owner := w.tokens[w.row.value.token].process;
    assert Owns(w.row, w.row.value.token);
    match e
    case BeginGate(p, token, self, probe) => LiveOwnerIsSeen(who, w, probe);
    case AskGate(p, probe) => LiveOwnerIsSeen(who, w, probe);
    case Recover(p, q, a) =>
      LiveOwnerIsSeen(who, w, a.seen);
      assert Foreign(w.row, who(p).pid);
    case _ =>
  }

  /** Who may take the gate: with working probes, exactly when no other living process is its recorded owner. */
  lemma TakeoverIffNoLivePeer(who: People, w: World, p: nat, token: Token, self: Probe, owner: Probe)
    requires Inv(who, w) && Enabled(who, w, BeginGate(p, token, self, owner))
    requires self.Started? && !owner.Unavailable?
    ensures Begin(w.row, who(p).pid, token, self, owner).Ok? <==>
              !exists q :: q in w.alive && q != p && w.row.Some? && w.row.value.Held?
                           && w.row.value.pid == Some(who(q).pid) && w.row.value.start == Some(who(q).start)
  {
    if Begin(w.row, who(p).pid, token, self, owner).Err? {
      var q :| q in w.alive && who(q).pid == w.row.value.pid.value && owner == Started(who(q).start);
      assert q != p;
    }
  }

  /** A token that lost the gate, or finished with it, stays powerless for ever. */
  lemma {:induction false} StaleTokenStaysStale(who: People, env: Env, w: World, run: seq<Event>, token: Token)
    requires Inv(who, w) && Possible(who, env, w, run)
    requires token in w.tokens && !Owns(w.row, token)
    ensures var v := After(who, env, w, run);
            && token in v.tokens && !Owns(v.row, token)
            && Complete(v.row, token) == v.row && Fail(v.row, token) == v.row && Invalidate(v.row, token).Err?
  {
    if |run| > 0 {
      var before := After(who, env, w, run[..|run| - 1]);
      StaleTokenStaysStale(who, env, w, run[..|run| - 1], token);
      RunKeeps(who, env, w, run[..|run| - 1]);
      StaleStep(who, env, before, run[|run| - 1], token);
    }
  }

  lemma StaleStep(who: People, env: Env, w: World, e: Event, token: Token)
    requires Inv(who, w) && Enabled(who, w, e) && token in w.tokens && !Owns(w.row, token)
    ensures token in Next(who, env, w, e).tokens && !Owns(Next(who, env, w, e).row, token)
  {
    if e.Recover? {
      var x := Execute(env, w.row, who(e.p).pid, e.q, e.a);
      if x.row != w.row {
        LaunchLeavesATraceIff(env, w.row, who(e.p).pid, e.q, e.a);
      }
    }
  }
}
