/** Recovery launches over every run of the reconciliation protocol: when a session can be launched a second time. */
module RecoveryProtocol {
  import opened ReconciliationGate
  import opened RecoveryLaunch
  import opened GateProtocol

  /** The event asks a terminal to run session `id`; a timed-out terminal may have accepted. */
  predicate Launches(who: People, env: Env, w: World, e: Event, id: string) {
    e.Recover? && e.q.id == id && Execute(env, w.row, who(e.p).pid, e.q, e.a).ran.Some?
  }

  predicate IsRecorded(who: People, w: World, e: Event)
    requires e.Recover?
  {
    Recorded(w.row, who(e.p).pid, e.a)
  }

  /** No launch happens between the clearing of claims and the completion by the current token. */
  lemma NoLaunchWhilePending(who: People, env: Env, start: World, run: seq<Event>, e: Event, id: string)
    requires Initial(start) && Possible(who, env, start, run)
    requires Launches(who, env, After(who, env, start, run), e, id)
    ensures !Pending(who, env, start, run)
  {
    GateStaysClosed(who, env, start, run, who(e.p).pid, e.a.seen);
  }

  // ----- What blocks a second launch -----

  predicate Guarded(w: World, id: string) {
    Unfinished(w.row) || (id in w.status && w.status[id] != Lost)
  }

  /** The two ways a session becomes launchable again: it is observed lost, or a reconciliation completes. */
  predicate Reopens(w: World, e: Event, id: string) {
    || e == Observe(id, Lost)
    || (e.CompleteGate? && Owns(w.row, e.token))
  }

  lemma GuardedRefuses(who: People, env: Env, w: World, e: Event, id: string)
    requires Enabled(who, w, e) && Guarded(w, id)
    ensures !Launches(who, env, w, e, id)
  {
    if e.Recover? && e.q.id == id && Execute(env, w.row, who(e.p).pid, e.q, e.a).ran.Some? {
      OpenMeansNothingPending(w.row, who(e.p).pid, e.a.seen);
    }
  }

  lemma RecordedGuards(who: People, env: Env, w: World, e: Event, id: string)
    requires Inv(who, w) && Enabled(who, w, e) && Launches(who, env, w, e, id) && IsRecorded(who, w, e)
    ensures Guarded(Next(who, env, w, e), id)
  {
    LaunchLeavesATraceIff(env, w.row, who(e.p).pid, e.q, e.a);
  }

  lemma GuardStays(who: People, env: Env, w: World, e: Event, id: string)
    requires Inv(who, w) && Enabled(who, w, e) && Guarded(w, id) && !Reopens(w, e, id)
    ensures Guarded(Next(who, env, w, e), id)
  {
    if e.Recover? {
      var x := Execute(env, w.row, who(e.p).pid, e.q, e.a);
      if x.row != w.row { LaunchLeavesATraceIff(env, w.row, who(e.p).pid, e.q, e.a); }
    }
  }

  /** Right after a launch the same session can be launched again exactly when the launch was not recorded: its transaction
    * did not commit, or the terminal timed out and the gate could not be taken because a probe failed. */
  lemma ImmediateRelaunchIff(who: People, env: Env, w: World, e: Event, id: string)
    requires Inv(who, w) && Enabled(who, w, e) && Launches(who, env, w, e, id)
    ensures (exists again :: Enabled(who, Next(who, env, w, e), again) && Launches(who, env, Next(who, env, w, e), again, id))
            <==> !IsRecorded(who, w, e)
  {
    var after := Next(who, env, w, e);
    LaunchLeavesATraceIff(env, w.row, who(e.p).pid, e.q, e.a);
    if IsRecorded(who, w, e) {
      RecordedGuards(who, env, w, e, id);
      forall again | Enabled(who, after, again) ensures !Launches(who, env, after, again, id) {
        GuardedRefuses(who, env, after, again, id);
      }
    } else {
      assert after == w;
    }
  }

  // ----- Two launches of one session -----

  lemma {:induction false} GuardLasts(who: People, env: Env, w: World, run: seq<Event>, id: string)
    requires Inv(who, w) && Possible(who, env, w, run) && Guarded(w, id)
    requires forall k :: 0 <= k < |run| ==> !Reopens(After(who, env, w, run[..k]), run[k], id)
    ensures Guarded(After(who, env, w, run), id)
  {
    if |run| > 0 {
      var init := run[..|run| - 1];
      forall k | 0 <= k < |init| ensures !Reopens(After(who, env, w, init[..k]), init[k], id) {
        assert init[..k] == run[..k];
      }
      GuardLasts(who, env, w, init, id);
      RunKeeps(who, env, w, init);
      GuardStays(who, env, After(who, env, w, init), run[|run| - 1], id);
    }
  }

  /** Between a recorded launch and the next launch of the same session, that session was observed lost or a reconciliation
    * completed: clearing claims alone also marks sessions lost, but closes the gate until it completes. */
  lemma LaunchesAreSeparated(who: People, env: Env, w: World, first: Event, between: seq<Event>, second: Event, id: string)
    requires Inv(who, w) && Enabled(who, w, first) && Launches(who, env, w, first, id) && IsRecorded(who, w, first)
    requires var w1 := Next(who, env, w, first);
             var w2 := After(who, env, w1, between);
             Possible(who, env, w1, between) && Enabled(who, w2, second) && Launches(who, env, w2, second, id)
    ensures var w1 := Next(who, env, w, first);
            exists k :: 0 <= k < |between| && Reopens(After(who, env, w1, between[..k]), between[k], id)
  {
    var w1 := Next(who, env, w, first);
    StepKeeps(who, env, w, first);
    RecordedGuards(who, env, w, first, id);
    if forall k :: 0 <= k < |between| ==> !Reopens(After(who, env, w1, between[..k]), between[k], id) {
      GuardLasts(who, env, w1, between, id);
      GuardedRefuses(who, env, After(who, env, w1, between), second, id);
    }
  }

  // ----- After a timed-out launch -----

  /** The latch: a token whose holder never cleared claims, and whose gate, while it has it, reads `failed`. */
  predicate Latch(w: World, token: Token) {
    && token in w.tokens && w.tokens[token].stage.Begun?
    && (Owns(w.row, token) ==> w.row.value.phase.Failed?)
  }

  lemma LatchStays(who: People, env: Env, w: World, e: Event, token: Token)
    requires Inv(who, w) && Enabled(who, w, e) && Latch(w, token)
    ensures Latch(Next(who, env, w, e), token)
    ensures e.CompleteGate? ==> e.token != token
  {
    if e.Recover? {
      var x := Execute(env, w.row, who(e.p).pid, e.q, e.a);
      if x.row != w.row { LaunchLeavesATraceIff(env, w.row, who(e.p).pid, e.q, e.a); }
    }
  }

  /** Some later owner completed a reconciliation with its own token. */
  predicate CompletedByAnother(w: World, e: Event, token: Token) {
    e.CompleteGate? && Owns(w.row, e.token) && e.token != token
  }

  lemma UnfinishedStays(who: People, env: Env, w: World, e: Event, token: Token)
    requires Inv(who, w) && Enabled(who, w, e) && Latch(w, token) && Unfinished(w.row)
    ensures Unfinished(Next(who, env, w, e).row) || CompletedByAnother(w, e, token)
  {
    LatchStays(who, env, w, e, token);
    UnfinishedStep(who, env, w, e);
  }

  lemma {:induction false} LatchLasts(who: People, env: Env, w: World, run: seq<Event>, token: Token)
    requires Inv(who, w) && Possible(who, env, w, run) && Latch(w, token) && Unfinished(w.row)
    requires forall k :: 0 <= k < |run| ==> !CompletedByAnother(After(who, env, w, run[..k]), run[k], token)
    ensures Latch(After(who, env, w, run), token) && Unfinished(After(who, env, w, run).row)
  {
    if |run| > 0 {
      var init := run[..|run| - 1];
      forall k | 0 <= k < |init| ensures !CompletedByAnother(After(who, env, w, init[..k]), init[k], token) {
        assert init[..k] == run[..k];
      }
      LatchLasts(who, env, w, init, token);
      RunKeeps(who, env, w, init);
      LatchStays(who, env, After(who, env, w, init), run[|run| - 1], token);
      UnfinishedStays(who, env, After(who, env, w, init), run[|run| - 1], token);
    }
  }

  /** After a recorded timed-out launch every preview, of any session, by any process, is refused until an owner other than
    * the latch completes a reconciliation. */
  lemma TimedOutLaunchBlocksPreviews(who: People, env: Env, w: World, launch: Event, run: seq<Event>, pid: int, owner: Probe)
    requires Inv(who, w) && Enabled(who, w, launch) && launch.Recover? && Launches(who, env, w, launch, launch.q.id)
    requires launch.a.opening.TimedOut? && IsRecorded(who, w, launch)
    requires Possible(who, env, Next(who, env, w, launch), run)
    ensures var w1 := Next(who, env, w, launch);
            var v := After(who, env, w1, run);
            || (exists k :: 0 <= k < |run| && CompletedByAnother(After(who, env, w1, run[..k]), run[k], launch.a.token))
            || Check(v.row, pid, owner).Err? || Check(v.row, pid, owner).value.running
  {
    var w1 := Next(who, env, w, launch);
    LaunchLeavesATraceIff(env, w.row, who(launch.p).pid, launch.q, launch.a);
    StepKeeps(who, env, w, launch);
    if forall k :: 0 <= k < |run| ==> !CompletedByAnother(After(who, env, w1, run[..k]), run[k], launch.a.token) {
      LatchLasts(who, env, w1, run, launch.a.token);
      UnfinishedSurvives(After(who, env, w1, run).row, pid, 0, Gone, owner);
    }
  }
}
