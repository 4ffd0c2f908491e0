/** Every run of dispatching, scanning and resolving, by any number of processes at once. */
module DispatchProtocol {
  import opened Outcomes
  import opened TaskDispatch

  // ----- The transition system -----

  /** How far a call of `dispatch` is. */
  datatype Caller =
    | Looked(q: Request)               // found no row for its key
    | Holds(q: Request, id: string)    // `create` gave it a row
    | Launches(q: Request, id: string) // the row reads `launching`
    | Opened(q: Request, id: string)   // the terminal was started
    | Launched(q: Request, id: string) // the row awaits its session; the work item is updated next
    | Returned(id: string)
    | Refused

  /** `creator` is the caller whose insert made a row, and `launchedBy` the callers that started a terminal for it. */
  datatype World = World(rows: Rows, scans: map<nat, Plan>, callers: map<nat, Caller>,
                         creator: map<string, nat>, launchedBy: map<string, set<nat>>)

  datatype Event =
    | LookUp(c: nat, q: Request)
    | Insert(c: nat, id: string, preLaunch: set<string>, deadline: int)
    | MarkLaunching(c: nat)
    | OpenTerminal(c: nat)
    | LaunchDone(c: nat, at: int)
    | LaunchFailed(c: nat)
    | Return(c: nat)
    | StartScan(k: nat, plan: Plan, sessions: seq<Session>)
    | ReconcileOne(k: nat, id: string, later: int)
    | ResolveOne(id: string, session: string, found: Option<Session>, now: int)

  ghost function FindKey(rows: Rows, key: string): (r: Option<string>)
    ensures r.Some? ==> r.value in rows && rows[r.value].key == key
    ensures r.None? ==> forall id :: id in rows ==> rows[id].key != key
  {
    if id :| id in rows && rows[id].key == key then Some(id) else None
  }

  ghost predicate Enabled(w: World, e: Event) {
    match e
    case LookUp(c, _) => c !in w.callers
    case Insert(c, id, _, _) => c in w.callers && w.callers[c].Looked? && id !in w.rows
    case MarkLaunching(c) => c in w.callers && w.callers[c].Holds? && w.callers[c].id in w.rows
    case OpenTerminal(c) => c in w.callers && w.callers[c].Launches? && w.callers[c].id in w.rows
    case LaunchDone(c, _) => c in w.callers && w.callers[c].Opened? && w.callers[c].id in w.rows
    case LaunchFailed(c) =>
      c in w.callers && (w.callers[c].Launches? || w.callers[c].Opened? || w.callers[c].Launched?) && w.callers[c].id in w.rows
    case Return(c) => c in w.callers && w.callers[c].Launched?
    case StartScan(k, plan, sessions) => k !in w.scans && PlanFor(plan, w.rows, sessions)
    case ReconcileOne(k, _, _) => k in w.scans
    case ResolveOne(_, _, _, _) => true
  }

  function LaunchersOf(w: World, id: string): set<nat> {
    if id in w.launchedBy then w.launchedBy[id] else {}
  }

  ghost function Next(w: World, e: Event): World
    requires Enabled(w, e)
  {
    match e
    case LookUp(c, q) =>
      var found := FindKey(w.rows, q.key);
      w.(callers := w.callers[c := if found.None? then Looked(q)
                                   else if SamePayload(w.rows[found.value], q) then Returned(found.value) else Refused])
    case Insert(c, id, preLaunch, deadline) =>
      var q := w.callers[c].q;
      var found := FindKey(w.rows, q.key);
      if found.Some? then w.(callers := w.callers[c := Holds(q, found.value)])
      else w.(rows := w.rows[id := NewRow(q, preLaunch, deadline)], callers := w.callers[c := Holds(q, id)],
              creator := w.creator[id := c])
    case MarkLaunching(c) =>
      var id := w.callers[c].id;
      w.(rows := w.rows[id := w.rows[id].(state := Launching)], callers := w.callers[c := Launches(w.callers[c].q, id)])
    case OpenTerminal(c) =>
      var id := w.callers[c].id;
      w.(callers := w.callers[c := Opened(w.callers[c].q, id)], launchedBy := w.launchedBy[id := LaunchersOf(w, id) + {c}])
    case LaunchDone(c, at) =>
      var id := w.callers[c].id;
      w.(rows := w.rows[id := w.rows[id].(state := AwaitingSession, launchedAt := Some(at))],
         callers := w.callers[c := Launched(w.callers[c].q, id)])
    case LaunchFailed(c) =>
      var id := w.callers[c].id;
      w.(rows := w.rows[id := w.rows[id].(state := Failed)], callers := w.callers[c := Refused])
    case Return(c) => w.(callers := w.callers[c := Returned(w.callers[c].id)])
    case StartScan(k, plan, sessions) => w.(scans := w.scans[k := plan])
    case ReconcileOne(k, id, later) =>
      if id in w.rows then w.(rows := w.rows[id := Reconciled(w.rows, w.scans[k], id, later)]) else w
    case ResolveOne(id, session, found, now) =>
      var r := Resolve(w.rows, id, session, found, now);
      if r.Ok? then w.(rows := w.rows[id := r.value]) else w
  }

  /** The world after a run whose events are possible one after the other. */
  ghost function After(w: World, run: seq<Event>): World {
    if |run| == 0 then w
    else
      var before := After(w, run[..|run| - 1]);
      if Enabled(before, run[|run| - 1]) then Next(before, run[|run| - 1]) else before
  }

  ghost predicate Possible(w: World, run: seq<Event>) {
    |run| == 0 ||
    (Possible(w, run[..|run| - 1]) && Enabled(After(w, run[..|run| - 1]), run[|run| - 1]))
  }

  // ----- The invariant -----

  /** What a scan's plan keeps meaning while rows change under it: a candidate's dispatch was in time when the scan began. */
  ghost predicate PlanHolds(plan: Plan, rows: Rows) {
    && (forall id :: |plan.Candidates(id)| > 0 ==> id in rows && plan.now <= rows[id].deadline)
    && (forall id, s :: s in plan.Candidates(id) ==> s.runtime == rows[id].runtime && s.directory == Some(rows[id].cwd)
                                                      && !s.isSubAgent && s.sessionId !in rows[id].preLaunch)
    && (forall session, id :: id in plan.Owners(session) <==> ClaimedBy(plan.Trusted(id), session))
  }

  predicate HasRow(caller: Caller) {
    caller.Holds? || caller.Launches? || caller.Opened? || caller.Launched?
  }

  predicate CallerOk(rows: Rows, caller: Caller) {
    HasRow(caller) ==> caller.id in rows && rows[caller.id].key == caller.q.key
  }

  ghost predicate Inv(w: World) {
    && RowsOk(w.rows)
    && (forall k :: k in w.scans ==> PlanHolds(w.scans[k], w.rows))
    && (forall c :: c in w.callers ==> CallerOk(w.rows, w.callers[c]))
    && w.creator.Keys == w.rows.Keys
    && w.launchedBy.Keys <= w.rows.Keys
  }

  const START := World(map[], map[], map[], map[], map[])

  /** The fields of a row that no step changes. */
  predicate SameTask(a: Dispatch, b: Dispatch) {
    a.key == b.key && a.runtime == b.runtime && a.cwd == b.cwd && a.preLaunch == b.preLaunch && a.deadline == b.deadline
  }

  lemma PlansIgnoreProgress(plan: Plan, rows: Rows, after: Rows)
    requires PlanHolds(plan, rows) && forall id :: id in rows ==> id in after && SameTask(rows[id], after[id])
    ensures PlanHolds(plan, after)
  {
  }

  lemma NewPlanHolds(plan: Plan, rows: Rows, sessions: seq<Session>)
    requires PlanFor(plan, rows, sessions)
    ensures PlanHolds(plan, rows)
  {
    forall id | |plan.Candidates(id)| > 0 ensures id in rows && Pending(rows[id]) && plan.now <= rows[id].deadline {}
  }

  lemma RowsKeep(rows: Rows, id: string, d: Dispatch)
    requires RowsOk(rows) && id in rows && SameTask(rows[id], d)
    requires d.linked == rows[id].linked || (d.linked.Some? && !HeldElsewhere(rows, id, d.linked.value))
    ensures RowsOk(rows[id := d])
  {
  }

  /** One row changed in a way that keeps its task, and a new claim taken only when nobody else had it. */
  lemma ChangeKeeps(w: World, id: string, d: Dispatch)
    requires Inv(w) && id in w.rows && SameTask(w.rows[id], d)
    requires d.linked == w.rows[id].linked || (d.linked.Some? && !HeldElsewhere(w.rows, id, d.linked.value))
    ensures Inv(w.(rows := w.rows[id := d]))
  {
    hide RowsOk, PlanHolds, HeldElsewhere;
    var rows := w.rows[id := d];
    RowsKeep(w.rows, id, d);
    forall k | k in w.scans ensures PlanHolds(w.scans[k], rows) {
      PlansIgnoreProgress(w.scans[k], w.rows, rows);
    }
  }

  lemma ReconciledIsAChange(rows: Rows, plan: Plan, id: string, later: int)
    requires id in rows
    ensures var d := Reconciled(rows, plan, id, later);
            && SameTask(rows[id], d)
            && (d.linked == rows[id].linked || (d.linked.Some? && !HeldElsewhere(rows, id, d.linked.value)))
  {
    hide HeldElsewhere, Unique;
  }

  lemma CallersKeep(w: World, c: nat, caller: Caller)
    requires Inv(w) && CallerOk(w.rows, caller)
    ensures Inv(w.(callers := w.callers[c := caller]))
  {
    hide RowsOk, PlanHolds;
  }

  lemma CreateKeeps(w: World, c: nat, id: string, d: Dispatch)
    requires Inv(w) && id !in w.rows && d.linked.None? && FindKey(w.rows, d.key).None?
    ensures Inv(w.(rows := w.rows[id := d], creator := w.creator[id := c]))
  {
    hide PlanHolds;
    var rows := w.rows[id := d];
    forall k | k in w.scans ensures PlanHolds(w.scans[k], rows) {
      PlansIgnoreProgress(w.scans[k], w.rows, rows);
    }
  }

  lemma InsertKeeps(w: World, c: nat, id: string, preLaunch: set<string>, deadline: int)
    requires Inv(w) && Enabled(w, Insert(c, id, preLaunch, deadline))
    ensures Inv(Next(w, Insert(c, id, preLaunch, deadline)))
  {
    hide RowsOk, PlanHolds;
    var q := w.callers[c].q;
    var found := FindKey(w.rows, q.key);
    if found.Some? {
      CallersKeep(w, c, Holds(q, found.value));
    } else {
      var d := NewRow(q, preLaunch, deadline);
      CreateKeeps(w, c, id, d);
      CallersKeep(w.(rows := w.rows[id := d], creator := w.creator[id := c]), c, Holds(q, id));
    }
  }

  lemma OpenKeeps(w: World, c: nat)
    requires Inv(w) && Enabled(w, OpenTerminal(c))
    ensures Inv(Next(w, OpenTerminal(c)))
  {
    hide RowsOk, PlanHolds;
    var id := w.callers[c].id;
    assert CallerOk(w.rows, w.callers[c]);
    CallersKeep(w, c, Opened(w.callers[c].q, id));
  }

  lemma LaunchStepKeeps(w: World, c: nat, d: Dispatch, caller: Caller)
    requires Inv(w) && c in w.callers
    requires HasRow(w.callers[c])
    requires w.callers[c].id in w.rows && SameTask(w.rows[w.callers[c].id], d) && d.linked == w.rows[w.callers[c].id].linked
    requires caller.Refused? || ((caller.Launches? || caller.Launched?) && caller.q == w.callers[c].q && caller.id == w.callers[c].id)
    ensures Inv(w.(rows := w.rows[w.callers[c].id := d], callers := w.callers[c := caller]))
  {
    var id := w.callers[c].id;
    assert CallerOk(w.rows, w.callers[c]);
    hide Inv;
    ChangeKeeps(w, id, d);
    CallersKeep(w.(rows := w.rows[id := d]), c, caller);
  }

  lemma StepKeeps(w: World, e: Event)
    requires Inv(w) && Enabled(w, e)
    ensures Inv(Next(w, e))
  {
    hide Inv, PlanFor, PlanHolds, Reconciled, Resolve;
    match e
    case LookUp(c, q) => CallersKeep(w, c, Next(w, e).callers[c]);
    case Insert(c, id, preLaunch, deadline) => InsertKeeps(w, c, id, preLaunch, deadline);
    case MarkLaunching(c) =>
      var id := w.callers[c].id;
      LaunchStepKeeps(w, c, w.rows[id].(state := Launching), Launches(w.callers[c].q, id));
    case OpenTerminal(c) => OpenKeeps(w, c);
    case LaunchDone(c, at) =>
      var id := w.callers[c].id;
      LaunchStepKeeps(w, c, w.rows[id].(state := AwaitingSession, launchedAt := Some(at)), Launched(w.callers[c].q, id));
    case LaunchFailed(c) =>
      var id := w.callers[c].id;
      LaunchStepKeeps(w, c, w.rows[id].(state := Failed), Refused);
    case Return(c) => CallersKeep(w, c, Returned(w.callers[c].id));
    case StartScan(k, plan, sessions) => ScanKeeps(w, k, plan, sessions);
    case ReconcileOne(k, id, later) =>
      if id in w.rows {
        ReconciledIsAChange(w.rows, w.scans[k], id, later);
        ChangeKeeps(w, id, Reconciled(w.rows, w.scans[k], id, later));
      }
    case ResolveOne(id, session, found, now) => ResolveKeeps(w, id, session, found, now);
  }

  lemma ScanKeeps(w: World, k: nat, plan: Plan, sessions: seq<Session>)
    requires Inv(w) && PlanFor(plan, w.rows, sessions)
    ensures Inv(w.(scans := w.scans[k := plan]))
  {
    hide PlanFor, PlanHolds, RowsOk;
    NewPlanHolds(plan, w.rows, sessions);
  }

  lemma ResolveKeeps(w: World, id: string, session: string, found: Option<Session>, now: int)
    requires Inv(w)
    ensures var r := Resolve(w.rows, id, session, found, now);
            r.Ok? ==> Inv(w.(rows := w.rows[id := r.value]))
  {
    hide Inv;
    var r := Resolve(w.rows, id, session, found, now);
    if r.Ok? { ChangeKeeps(w, id, r.value); }
  }

  lemma {:induction false} RunKeeps(w: World, run: seq<Event>)
    requires Inv(w) && Possible(w, run)
    ensures Inv(After(w, run))
    decreases |run|
  {
    hide Inv, Enabled, Next;
    if |run| > 0 {
      RunKeeps(w, run[..|run| - 1]);
      StepKeeps(After(w, run[..|run| - 1]), run[|run| - 1]);
    }
  }

  // ----- Linking -----

  /** In every reachable world no two dispatches share an idempotency key, and no two are linked to the same session. */
  lemma NoSessionLinkedTwice(run: seq<Event>, a: string, b: string)
    requires Possible(START, run)
    requires a in After(START, run).rows && b in After(START, run).rows && a != b
    ensures var rows := After(START, run).rows;
            rows[a].key != rows[b].key && (rows[a].linked.Some? ==> rows[a].linked != rows[b].linked)
  {
    RunKeeps(START, run);
  }

  lemma TwoMembers(s: set<string>, a: string, b: string)
    requires a in s && b in s && a != b
    ensures |s| > 1
  {
    assert s == {a} + (s - {a});
    assert b in s - {a};
  }

  /** A session marked for two pending dispatches of one scan is linked by that scan to neither, whatever happens to the
    * rows while the scan works through them. */
  lemma SharedSessionIsNotLinked(run: seq<Event>, k: nat, a: string, b: string, s: Session, later: int)
    requires Possible(START, run)
    requires var w := After(START, run);
             && k in w.scans && a in w.rows && a != b
             && s in w.scans[k].Trusted(a) && ClaimedBy(w.scans[k].Trusted(b), s.sessionId)
    ensures var w := After(START, run);
            var after := Reconciled(w.rows, w.scans[k], a, later);
            after.state == Linked ==> after == w.rows[a]
  {
    hide Possible, After, MarkedFor, Unique, PlanHolds;
    RunKeeps(START, run);
    var w := After(START, run);
    assert PlanHolds(w.scans[k], w.rows);
    SharedIsNotUnique(w.rows, w.scans[k], a, b, s);
  }

  lemma SharedIsNotUnique(rows: Rows, plan: Plan, a: string, b: string, s: Session)
    requires PlanHolds(plan, rows) && a in rows && a != b
    requires s in plan.Trusted(a) && ClaimedBy(plan.Trusted(b), s.sessionId)
    ensures !Unique(rows, plan, a)
  {
    hide MarkedFor;
    assert ClaimedBy(plan.Trusted(a), s.sessionId);
    TwoMembers(plan.Owners(s.sessionId), a, b);
    assert HasShared(rows, plan, a, rows[a].runtime);
  }

  /** A scan links a dispatch only to its one marked candidate: a root session of the task's runtime and directory that did
    * not exist before the launch, held by no other row, and only if the scan began before the deadline. */
  lemma LinkedInTime(run: seq<Event>, k: nat, id: string, later: int)
    requires Possible(START, run)
    requires var w := After(START, run);
             && k in w.scans && id in w.rows
             && w.rows[id].state != Linked && Reconciled(w.rows, w.scans[k], id, later).state == Linked
    ensures var w := After(START, run);
            var d, after, plan := w.rows[id], Reconciled(w.rows, w.scans[k], id, later), w.scans[k];
            && plan.now <= d.deadline
            && (exists s :: s in plan.Candidates(id) && after == Link(d, s) && plan.Trusted(id) == [s]
                  && Marks(plan.prompt(s.sessionId), id) && !s.isSubAgent && s.sessionId !in d.preLaunch
                  && s.runtime == d.runtime && s.directory == Some(d.cwd)
                  && !HeldElsewhere(w.rows, id, Agent(s.runtime, s.sessionId)))
  {
    hide Possible, After, Marks, PlanFor;
    RunKeeps(START, run);
    var w := After(START, run);
    var plan := w.scans[k];
    assert PlanHolds(plan, w.rows);
    var s := plan.Trusted(id)[0];
    assert s in plan.Trusted(id);
    assert plan.Trusted(id) == [s];
  }

  /** A step of a launch of the row that is still under way. */
  predicate LaunchStep(w: World, e: Event, id: string) {
    && (e.MarkLaunching? || e.LaunchDone? || (e.LaunchFailed? && id in w.rows && w.rows[id].state == Linked))
    && e.c in w.callers && HasRow(w.callers[e.c]) && w.callers[e.c].id == id
  }

  /** Scans and resolutions leave linked and failed dispatches alone: what changes one is exactly a step of a launch of the
    * same row that is still under way, where failing a failed one again is no change. */
  lemma FinishedStaysUnlessLaunching(w: World, e: Event, id: string)
    requires Inv(w) && Enabled(w, e) && id in w.rows && w.rows[id].state in {Linked, Failed}
    ensures id in Next(w, e).rows
    ensures Next(w, e).rows[id] != w.rows[id] <==> LaunchStep(w, e, id)
  {
    hide Unique, HeldElsewhere, PlanFor, RowsOk, PlanHolds;
  }

  lemma OneStep(run: seq<Event>, e: Event)
    requires Possible(START, run) && Enabled(After(START, run), e)
    ensures Possible(START, run + [e]) && After(START, run + [e]) == Next(After(START, run), e)
  {
    hide Enabled, Next;
    assert (run + [e])[..|run|] == run;
  }

  /** The change is real: after any run, when a scan began past the deadline of a row whose terminal is open but not yet
    * recorded, the scan fails the row and the launch then brings it back to awaiting its session. */
  lemma LaunchRevives(run: seq<Event>, c: nat, k: nat, later: int, at: int)
    requires Possible(START, run)
    requires var w := After(START, run);
             && c in w.callers && w.callers[c].Opened? && w.callers[c].id in w.rows && k in w.scans
             && w.rows[w.callers[c].id].state !in {Linked, Failed}
             && w.scans[k].now > w.rows[w.callers[c].id].deadline && later > w.rows[w.callers[c].id].deadline
    ensures var id := After(START, run).callers[c].id;
            var failed, revived := run + [ReconcileOne(k, id, later)], run + [ReconcileOne(k, id, later)] + [LaunchDone(c, at)];
            && Possible(START, revived)
            && id in After(START, failed).rows && After(START, failed).rows[id].state == Failed
            && id in After(START, revived).rows && After(START, revived).rows[id].state == AwaitingSession
  {
    hide Possible, After, Unique;
    var id := After(START, run).callers[c].id;
    OneStep(run, ReconcileOne(k, id, later));
    OneStep(run + [ReconcileOne(k, id, later)], LaunchDone(c, at));
  }

  const SLOW_LAUNCH: Request := Request("item", Codex, "/repo", "prompt", "auto", "key")

  /** The run of one caller that is as far as its open terminal when a scan begins past the deadline 0. */
  lemma SlowLaunch() returns (run: seq<Event>)
    ensures Possible(START, run)
    ensures var w := After(START, run);
            && 0 in w.callers && w.callers[0] == Opened(SLOW_LAUNCH, "d") && 0 in w.scans && w.scans[0].now == 1
            && "d" in w.rows && w.rows["d"].state == Launching && w.rows["d"].deadline == 0
  {
    hide Possible, After, PlanFor;
    run := [];
    NothingRan();
    var plan := Plan(1, map[], _ => "", map[]);
    OneStep(run, LookUp(0, SLOW_LAUNCH));
    run := run + [LookUp(0, SLOW_LAUNCH)];
    OneStep(run, Insert(0, "d", {}, 0));
    run := run + [Insert(0, "d", {}, 0)];
    OneStep(run, MarkLaunching(0));
    run := run + [MarkLaunching(0)];
    OneStep(run, OpenTerminal(0));
    run := run + [OpenTerminal(0)];
    EmptyPlan(plan, After(START, run).rows);
    OneStep(run, StartScan(0, plan, []));
    run := run + [StartScan(0, plan, [])];
  }

  lemma NothingRan()
    ensures Possible(START, []) && After(START, []) == START
  {
  }

  lemma EmptyPlan(plan: Plan, rows: Rows)
    requires plan.candidates == map[] && plan.owners == map[]
    ensures PlanFor(plan, rows, [])
  {
  }

  /** A run from the start in which a dispatch that a scan failed is brought back. */
  lemma RevivedDispatch() returns (failed: seq<Event>, revived: seq<Event>)
    ensures Possible(START, revived) && failed < revived
    ensures "d" in After(START, failed).rows && After(START, failed).rows["d"].state == Failed
    ensures "d" in After(START, revived).rows && After(START, revived).rows["d"].state == AwaitingSession
  {
    hide Possible, After;
    var run := SlowLaunch();
    LaunchRevives(run, 0, 0, 1, 1);
    failed := run + [ReconcileOne(0, "d", 1)];
    revived := failed + [LaunchDone(0, 1)];
  }

  // ----- Launching -----

  /** In the run's own order: the caller looked the key up while no row had it, and by the time of its insert another caller's
    * row `id` had. */
  ghost predicate InsertedLate(run: seq<Event>, c: nat, id: string) {
    exists i, j :: 0 <= i < j < |run| && LateAt(run, i, j, c, id)
  }

  ghost predicate LateAt(run: seq<Event>, i: nat, j: nat, c: nat, id: string)
    requires i < j < |run|
  {
    && run[i].LookUp? && run[i].c == c && FindKey(After(START, run[..i]).rows, run[i].q.key) == None
    && run[j].Insert? && run[j].c == c && FindKey(After(START, run[..j]).rows, run[i].q.key) == Some(id)
  }

  /** The caller looked its key up at event i of the run and found nothing. */
  ghost predicate LookedAt(run: seq<Event>, i: nat, c: nat, q: Request)
    requires i < |run|
  {
    run[i] == LookUp(c, q) && FindKey(After(START, run[..i]).rows, q.key) == None
  }

  lemma LateStays(run: seq<Event>, e: Event, c: nat, id: string)
    requires InsertedLate(run, c, id)
    ensures InsertedLate(run + [e], c, id)
  {
    var i, j :| 0 <= i < j < |run| && LateAt(run, i, j, c, id);
    assert (run + [e])[..i] == run[..i] && (run + [e])[..j] == run[..j];
    assert LateAt(run + [e], i, j, c, id);
  }

  lemma LookedStays(run: seq<Event>, e: Event, i: nat, c: nat, q: Request)
    requires i < |run| && LookedAt(run, i, c, q)
    ensures LookedAt(run + [e], i, c, q)
  {
    assert (run + [e])[..i] == run[..i];
  }

  /** Where a caller stands tells what it did before: whoever looked and has not inserted found nothing, and whoever has a row
    * made it or inserted late. */
  ghost predicate Told(run: seq<Event>, w: World) {
    && (forall c :: c in w.callers && w.callers[c].Looked? ==> exists i :: 0 <= i < |run| && LookedAt(run, i, c, w.callers[c].q))
    && (forall c :: c in w.callers && HasRow(w.callers[c]) ==> Made(run, w, c, w.callers[c].id))
    && (forall id, c :: id in w.launchedBy && c in w.launchedBy[id] ==> Made(run, w, c, id))
  }

  ghost predicate Made(run: seq<Event>, w: World, c: nat, id: string) {
    (id in w.creator && w.creator[id] == c) || InsertedLate(run, c, id)
  }

  lemma MadeStays(run: seq<Event>, w: World, e: Event, c: nat, id: string)
    requires Enabled(w, e) && w.creator.Keys == w.rows.Keys && Made(run, w, c, id)
    ensures Made(run + [e], Next(w, e), c, id)
  {
    hide InsertedLate;
    if InsertedLate(run, c, id) { LateStays(run, e, c, id); }
  }

  lemma InsertIsTold(run: seq<Event>, w: World, e: Event)
    requires w == After(START, run) && Enabled(w, e) && e.Insert? && Told(run, w)
    ensures var v := Next(w, e);
            v.callers[e.c].Holds? && Made(run + [e], v, e.c, v.callers[e.c].id)
  {
    var q := w.callers[e.c].q;
    var found := FindKey(w.rows, q.key);
    if found.Some? {
      var i :| 0 <= i < |run| && LookedAt(run, i, e.c, q);
      LookedStays(run, e, i, e.c, q);
      assert (run + [e])[..|run|] == run;
      assert LateAt(run + [e], i, |run|, e.c, found.value);
    }
  }

  lemma LookUpIsTold(run: seq<Event>, w: World, e: Event)
    requires w == After(START, run) && Enabled(w, e) && e.LookUp?
    ensures var v := Next(w, e);
            && (v.callers[e.c].Looked? ==> LookedAt(run + [e], |run|, e.c, v.callers[e.c].q))
            && !HasRow(v.callers[e.c])
  {
    hide After, Possible, Reconciled, Resolve, PlanFor;
    assert (run + [e])[..|run|] == run;
  }

  lemma LookersAreTold(run: seq<Event>, w: World, e: Event, c: nat)
    requires w == After(START, run) && Enabled(w, e) && Told(run, w)
    requires c in Next(w, e).callers && Next(w, e).callers[c].Looked?
    ensures exists i :: 0 <= i < |run + [e]| && LookedAt(run + [e], i, c, Next(w, e).callers[c].q)
  {
    hide InsertedLate, LookedAt, Reconciled, Resolve, After;
    if e.LookUp? && e.c == c {
      LookUpIsTold(run, w, e);
    } else {
      var i :| 0 <= i < |run| && LookedAt(run, i, c, w.callers[c].q);
      LookedStays(run, e, i, c, w.callers[c].q);
    }
  }

  lemma HoldersAreTold(run: seq<Event>, w: World, e: Event, c: nat)
    requires w == After(START, run) && Enabled(w, e) && Told(run, w) && w.creator.Keys == w.rows.Keys
    requires c in Next(w, e).callers && HasRow(Next(w, e).callers[c])
    ensures Made(run + [e], Next(w, e), c, Next(w, e).callers[c].id)
  {
    hide InsertedLate, LookedAt, Reconciled, Resolve, After;
    if e.LookUp? && e.c == c {
      LookUpIsTold(run, w, e);
    } else if e.Insert? && e.c == c {
      InsertIsTold(run, w, e);
    } else {
      MadeStays(run, w, e, c, w.callers[c].id);
    }
  }

  lemma LaunchersAreTold(run: seq<Event>, w: World, e: Event, id: string, c: nat)
    requires Enabled(w, e) && Told(run, w) && w.creator.Keys == w.rows.Keys
    requires c in LaunchersOf(Next(w, e), id)
    ensures Made(run + [e], Next(w, e), c, id)
  {
    hide InsertedLate, LookedAt, Reconciled, Resolve;
    if c in LaunchersOf(w, id) {
      MadeStays(run, w, e, c, id);
    } else {
      MadeStays(run, w, e, c, w.callers[c].id);
    }
  }

  lemma StepIsTold(run: seq<Event>, w: World, e: Event)
    requires w == After(START, run) && Enabled(w, e) && Told(run, w) && Inv(w)
    ensures Told(run + [e], Next(w, e))
  {
    hide Made, Inv, LookedAt, Enabled, Next, After;
    var v, more := Next(w, e), run + [e];
    CreatorsAreRows(w);
    forall c | c in v.callers && v.callers[c].Looked? ensures exists i :: 0 <= i < |more| && LookedAt(more, i, c, v.callers[c].q) {
      LookersAreTold(run, w, e, c);
    }
    forall c | c in v.callers && HasRow(v.callers[c]) ensures Made(more, v, c, v.callers[c].id) {
      HoldersAreTold(run, w, e, c);
    }
    forall id, c | id in v.launchedBy && c in v.launchedBy[id] ensures Made(more, v, c, id) {
      LaunchersAreTold(run, w, e, id, c);
    }
  }

  lemma CreatorsAreRows(w: World)
    requires Inv(w)
    ensures w.launchedBy.Keys <= w.creator.Keys == w.rows.Keys
  {
  }

  lemma {:induction false} RunIsTold(run: seq<Event>)
    requires Possible(START, run)
    ensures Told(run, After(START, run))
    decreases |run|
  {
    hide Inv, Enabled, Next, Told;
    if |run| == 0 {
      NothingTold();
      assert run == [];
    } else {
      var init := run[..|run| - 1];
      RunIsTold(init);
      NothingTold();
      RunKeeps(START, init);
      StepIsTold(init, After(START, init), run[|run| - 1]);
      assert run == init + [run[|run| - 1]];
    }
  }

  lemma NothingTold()
    ensures Told([], START) && Inv(START)
  {
  }

  // A caller inserts at most once, and a row is made by an insert that found no row for its key.

  predicate Inserts(run: seq<Event>, j: nat, c: nat) {
    j < |run| && run[j].Insert? && run[j].c == c
  }

  lemma NeverLooksAgain(w: World, e: Event, c: nat)
    requires Enabled(w, e) && c in w.callers && !w.callers[c].Looked?
    ensures c in Next(w, e).callers && !Next(w, e).callers[c].Looked?
  {
    hide Reconciled, Resolve, FindKey, PlanFor;
  }

  lemma {:induction false} InsertedNeverLooks(run: seq<Event>, j: nat, c: nat)
    requires Possible(START, run) && Inserts(run, j, c)
    ensures c in After(START, run).callers && !After(START, run).callers[c].Looked?
    decreases |run|
  {
    hide Reconciled, Resolve, FindKey, PlanFor, NewRow;
    var n := |run| - 1;
    if j < n {
      hide Next, Enabled;
      InsertedNeverLooks(run[..n], j, c);
      NeverLooksAgain(After(START, run[..n]), run[n], c);
    }
  }

  lemma {:induction false} PrefixPossible(run: seq<Event>, n: nat)
    requires Possible(START, run) && n <= |run|
    ensures Possible(START, run[..n])
    ensures n < |run| ==> Enabled(After(START, run[..n]), run[n])
    decreases |run|
  {
    hide Enabled, Next, After;
    if n < |run| - 1 {
      PrefixPossible(run[..|run| - 1], n);
      assert run[..|run| - 1][..n] == run[..n];
    } else if n == |run| {
      assert run[..n] == run;
    }
  }

  lemma InsertsOnce(run: seq<Event>, i: nat, j: nat, c: nat)
    requires Possible(START, run) && Inserts(run, i, c) && Inserts(run, j, c)
    ensures i == j
  {
    hide Possible, After;
    var lo, hi := if i < j then i else j, if i < j then j else i;
    if lo < hi {
      PrefixPossible(run, hi);
      InsertedNeverLooks(run[..hi], lo, c);
    }
  }

  /** The caller recorded as creator inserted, with this id, while no row of the key was there. */
  ghost predicate Creates(run: seq<Event>, j: nat, c: nat, id: string) {
    Inserts(run, j, c) && id !in After(START, run[..j]).rows
  }

  lemma CreatorStep(w: World, e: Event, id: string)
    requires Enabled(w, e) && w.creator.Keys == w.rows.Keys && id in Next(w, e).creator
    ensures (id in w.creator && Next(w, e).creator[id] == w.creator[id]) || (e.Insert? && Next(w, e).creator[id] == e.c && id !in w.rows)
  {
    hide Reconciled, Resolve, FindKey, PlanFor, NewRow;
  }

  lemma {:induction false} CreatorInserted(run: seq<Event>, id: string)
    requires Possible(START, run) && id in After(START, run).creator
    ensures exists j :: 0 <= j < |run| && Creates(run, j, After(START, run).creator[id], id)
    decreases |run|
  {
    hide Enabled, Next, Inv;
    if |run| > 0 {
      var n := |run| - 1;
      NothingTold();
      RunKeeps(START, run[..n]);
      CreatorsAreRows(After(START, run[..n]));
      CreatorStep(After(START, run[..n]), run[n], id);
      var c := After(START, run).creator[id];
      if id in After(START, run[..n]).creator && After(START, run[..n]).creator[id] == c {
        CreatorInserted(run[..n], id);
        var j :| 0 <= j < n && Creates(run[..n], j, c, id);
        assert run[..n][..j] == run[..j];
        assert Creates(run, j, c, id);
      } else {
        assert Creates(run, n, c, id);
      }
    }
  }

  /** The caller whose insert made a row did not insert late. */
  lemma CreatorIsNotLate(run: seq<Event>, id: string)
    requires Possible(START, run) && id in After(START, run).creator
    ensures !InsertedLate(run, After(START, run).creator[id], id)
  {
    hide Possible, After;
    var c := After(START, run).creator[id];
    CreatorInserted(run, id);
    var k :| 0 <= k < |run| && Creates(run, k, c, id);
    forall i, j | 0 <= i < j < |run| ensures !LateAt(run, i, j, c, id) {
      if LateAt(run, i, j, c, id) { InsertsOnce(run, j, k, c); }
    }
  }

  /** Who launches a row: the caller that inserted it, and otherwise exactly callers whose lookup found no row for the key
    * before the insert, and whose own insert came after it. So without such a late insert every row is launched by one caller. */
  lemma LaunchedOnceUnlessRaced(run: seq<Event>, id: string, c: nat)
    requires Possible(START, run) && c in LaunchersOf(After(START, run), id)
    ensures id in After(START, run).creator
    ensures c == After(START, run).creator[id] <==> !InsertedLate(run, c, id)
  {
    hide Inv, Possible, After, InsertedLate;
    RunIsTold(run);
    NothingTold();
    RunKeeps(START, run);
    CreatorsAreRows(After(START, run));
    CreatorIsNotLate(run, id);
  }

  lemma ThreeSteps(run: seq<Event>, e1: Event, e2: Event, e3: Event)
    requires Possible(START, run)
    requires var w := After(START, run);
             Enabled(w, e1) && Enabled(Next(w, e1), e2) && Enabled(Next(Next(w, e1), e2), e3)
    ensures Possible(START, run + [e1, e2, e3])
    ensures After(START, run + [e1, e2, e3]) == Next(Next(Next(After(START, run), e1), e2), e3)
    ensures (run + [e1, e2, e3])[..|run|] == run
  {
    hide Enabled, Next, After, Possible;
    OneStep(run, e1);
    OneStep(run + [e1], e2);
    OneStep(run + [e1] + [e2], e3);
    assert run + [e1] + [e2] + [e3] == run + [e1, e2, e3];
  }

  /** A late insert does launch again: after any run, a caller whose lookup found nothing while the key has a row by now can
    * insert, mark and open, and is then a launcher of that other caller's row, inserted late. */
  lemma RacerLaunchesAgain(run: seq<Event>, c: nat, newId: string, preLaunch: set<string>, deadline: int)
    requires Possible(START, run)
    requires var w := After(START, run);
             c in w.callers && w.callers[c].Looked? && newId !in w.rows && FindKey(w.rows, w.callers[c].q.key).Some?
    ensures var w := After(START, run);
            var again := run + [Insert(c, newId, preLaunch, deadline), MarkLaunching(c), OpenTerminal(c)];
            var id := FindKey(w.rows, w.callers[c].q.key).value;
            && Possible(START, again)
            && After(START, again).rows.Keys == w.rows.Keys
            && LaunchersOf(After(START, again), id) == LaunchersOf(w, id) + {c}
            && InsertedLate(again, c, id)
  {
    hide InsertedLate, Possible, After;
    var w := After(START, run);
    var q := w.callers[c].q;
    var e1, e2, e3 := Insert(c, newId, preLaunch, deadline), MarkLaunching(c), OpenTerminal(c);
    var w1 := Next(w, e1);
    assert Enabled(w1, e2);
    var w2 := Next(w1, e2);
    assert Enabled(w2, e3);
    ThreeSteps(run, e1, e2, e3);
    LateInsertOf(run, c, q, e1, e2, e3);
  }

  lemma LateInsertOf(run: seq<Event>, c: nat, q: Request, e1: Event, e2: Event, e3: Event)
    requires Possible(START, run)
    requires var w := After(START, run);
             c in w.callers && w.callers[c] == Looked(q) && FindKey(w.rows, q.key).Some?
    requires e1.Insert? && e1.c == c
    ensures InsertedLate(run + [e1, e2, e3], c, FindKey(After(START, run).rows, q.key).value)
  {
    var again := run + [e1, e2, e3];
    RunIsTold(run);
    var i :| 0 <= i < |run| && LookedAt(run, i, c, q);
    assert again[..i] == run[..i] && again[..|run|] == run;
    assert LateAt(again, i, |run|, c, FindKey(After(START, run).rows, q.key).value);
  }
}
