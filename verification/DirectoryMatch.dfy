/** The assignment of free processes to open sessions inside one directory. */
module DirectoryMatch {
  import opened CandidateSelection
  import opened CandidateCut
  import opened MatchBasis
  import opened IdentityMatch
  import Assignment

  // ----- Stage 3: the free processes of each directory -----

  /** A process with a directory that is neither reserved nor kept by any session. */
  predicate IsFree(sessions: seq<Session>, processes: seq<Process>, p: Process) {
    p.cwd != "" && !IsReserved(p) && !Wanted(sessions, processes, p)
  }

  /** Of the first n processes, the free ones of the directory `key`, in order. */
  function FreeIn(sessions: seq<Session>, processes: seq<Process>, n: nat, key: string): (free: seq<Process>)
    requires n <= |processes|
    ensures forall p :: p in free <==>
              p in processes[..n] && IsFree(sessions, processes, p) && GroupKey(p.client, p.cwd) == key
  {
    if n == 0 then []
    else
      var p := processes[n - 1];
      assert processes[..n] == processes[..n - 1] + [p];
      var rest := FreeIn(sessions, processes, n - 1, key);
      if IsFree(sessions, processes, p) && GroupKey(p.client, p.cwd) == key then rest + [p] else rest
  }

  lemma {:induction false} FreeAreDistinct(sessions: seq<Session>, processes: seq<Process>, n: nat, key: string)
    requires DistinctPids(processes) && n <= |processes|
    ensures DistinctPids(FreeIn(sessions, processes, n, key))
  {
    hide IsFree, GroupKey;
    if n > 0 {
      FreeAreDistinct(sessions, processes, n - 1, key);
      var rest := FreeIn(sessions, processes, n - 1, key);
      forall k | 0 <= k < |rest| ensures rest[k].pid != processes[n - 1].pid {
        assert rest[k] in rest;
      }
    }
  }

  method GroupProcesses(ghost sessions: seq<Session>, processes: seq<Process>, used: set<int>) returns (groups: Groups<Process>)
    requires UsedAre(sessions, processes, |sessions|, used)
    ensures groups.Valid() && forall k :: groups.At(k) == FreeIn(sessions, processes, |processes|, k)
  {
    hide IsReserved, Wanted, GroupKey;
    groups := Groups([], map[]);
    for i := 0 to |processes|
      invariant groups.Valid() && forall k :: groups.At(k) == FreeIn(sessions, processes, i, k)
    {
      var p := processes[i];
      FreeIsUnused(sessions, processes, used, p);
      if p.cwd != "" && p.pid !in used {
        groups := groups.Add(GroupKey(p.client, p.cwd), p);
      }
    }
  }

  lemma FreeIsUnused(sessions: seq<Session>, processes: seq<Process>, used: set<int>, p: Process)
    requires UsedAre(sessions, processes, |sessions|, used) && p in processes
    ensures IsFree(sessions, processes, p) <==> p.cwd != "" && p.pid !in used
  {
  }

  // ----- Stage 4: optimal assignment inside one directory -----

  function StartPosition(p: Process, sorted: seq<Process>): (i: nat)
    ensures i <= |sorted|
    ensures forall k :: 0 <= k < i ==> sorted[k].startTime <= p.startTime
    ensures i < |sorted| ==> p.startTime < sorted[i].startTime
  {
    if |sorted| == 0 || p.startTime < sorted[0].startTime then 0 else 1 + StartPosition(p, sorted[1..])
  }

  function InsertProcess(sorted: seq<Process>, p: Process): (r: seq<Process>)
    ensures |r| == |sorted| + 1
  {
    var at := StartPosition(p, sorted);
    sorted[..at] + [p] + sorted[at..]
  }

  /** The stable sort by start time. */
  function SortByStart(ps: seq<Process>): (sorted: seq<Process>)
    ensures |sorted| == |ps|
  {
    if |ps| == 0 then [] else InsertProcess(SortByStart(ps[..|ps| - 1]), ps[|ps| - 1])
  }

  predicate SortedByStart(ps: seq<Process>) {
    forall i, j :: 0 <= i < j < |ps| ==> ps[i].startTime <= ps[j].startTime
  }

  lemma InsertProcessMembers(sorted: seq<Process>, p: Process, q: Process)
    ensures q in InsertProcess(sorted, p) <==> q == p || q in sorted
  {
    var at := StartPosition(p, sorted);
    assert sorted == sorted[..at] + sorted[at..];
    assert q in sorted <==> q in sorted[..at] || q in sorted[at..];
    assert q in InsertProcess(sorted, p) <==> q in sorted[..at] || q == p || q in sorted[at..];
  }

  lemma InsertProcessKeepsOrder(sorted: seq<Process>, p: Process)
    requires SortedByStart(sorted) && DistinctPids(sorted)
    requires forall k :: 0 <= k < |sorted| ==> sorted[k].pid != p.pid
    ensures SortedByStart(InsertProcess(sorted, p)) && DistinctPids(InsertProcess(sorted, p))
  {
  }

  /** Sorting reorders: the same processes, each once, oldest first. */
  lemma {:induction false} SortByStartKeeps(ps: seq<Process>)
    requires DistinctPids(ps)
    ensures DistinctPids(SortByStart(ps)) && SortedByStart(SortByStart(ps))
    ensures forall p :: p in SortByStart(ps) <==> p in ps
  {
    if |ps| > 0 {
      var last := ps[|ps| - 1];
      var rest := ps[..|ps| - 1];
      assert ps == rest + [last];
      SortByStartKeeps(rest);
      var init := SortByStart(rest);
      forall k | 0 <= k < |init| ensures init[k].pid != last.pid {
        assert init[k] in rest;
      }
      InsertProcessKeepsOrder(init, last);
      forall p ensures p in SortByStart(ps) <==> p in ps {
        InsertProcessMembers(init, last, p);
      }
    }
  }

  function StartsOf(ps: seq<Process>): seq<int> {
    seq(|ps|, i requires 0 <= i < |ps| => ps[i].startTime)
  }

  /** The matches a plan stands for: process i serves the kept session that entry i names. */
  function PlanMatches(metas: seq<PairingMeta>, ps: seq<Process>, plan: Assignment.Plan): (m: Matches)
    requires |plan| <= |ps| && Assignment.OneToOne(plan, |metas|)
  {
    if |plan| == 0 then map[]
    else
      var k := |plan| - 1;
      var before := PlanMatches(metas, ps, plan[..k]);
      if plan[k].Some? then before[metas[plan[k].value].session.sessionId := ps[k]] else before
  }

  lemma DistinctPlaces(metas: seq<PairingMeta>, plan: Assignment.Plan)
    requires Assignment.OneToOne(plan, |metas|) && DistinctMetas(metas)
    ensures forall i, j :: 0 <= i < j < |plan| && plan[i].Some? && plan[j].Some? ==>
              metas[plan[i].value].session.sessionId != metas[plan[j].value].session.sessionId
  {
  }

  lemma {:induction false} EntriesMatch(metas: seq<PairingMeta>, ps: seq<Process>, plan: Assignment.Plan, k: nat)
    requires |plan| <= |ps| && Assignment.OneToOne(plan, |metas|) && DistinctMetas(metas)
    requires k < |plan| && plan[k].Some?
    ensures var id := metas[plan[k].value].session.sessionId;
            id in PlanMatches(metas, ps, plan) && PlanMatches(metas, ps, plan)[id] == ps[k]
    decreases |plan|
  {
    hide DistinctMetas;
    DistinctPlaces(metas, plan);
    if k < |plan| - 1 { EntriesMatch(metas, ps, plan[..|plan| - 1], k); }
  }

  lemma {:induction false} MatchesAreEntries(metas: seq<PairingMeta>, ps: seq<Process>, plan: Assignment.Plan, id: string)
    requires |plan| <= |ps| && Assignment.OneToOne(plan, |metas|)
    requires id in PlanMatches(metas, ps, plan)
    ensures PlanEntry(metas, plan, id)
    decreases |plan|
  {
    var n := |plan| - 1;
    var init := plan[..n];
    if plan[n].Some? && id == metas[plan[n].value].session.sessionId {
    } else {
      MatchesAreEntries(metas, ps, init, id);
      var k :| 0 <= k < n && init[k].Some? && init[k].value < |metas| && metas[init[k].value].session.sessionId == id;
      assert plan[k] == init[k];
    }
  }

  /** Each entry of the plan yields its own match and nothing else is matched. */
  lemma PlanMatchesAre(metas: seq<PairingMeta>, ps: seq<Process>, plan: Assignment.Plan)
    requires |plan| <= |ps| && Assignment.OneToOne(plan, |metas|) && DistinctMetas(metas)
    ensures forall k :: 0 <= k < |plan| && plan[k].Some? ==>
              var id := metas[plan[k].value].session.sessionId;
              id in PlanMatches(metas, ps, plan) && PlanMatches(metas, ps, plan)[id] == ps[k]
    ensures forall id :: id in PlanMatches(metas, ps, plan) ==> PlanEntry(metas, plan, id)
  {
    hide PlanMatches, PlanEntry, DistinctMetas;
    forall k | 0 <= k < |plan| && plan[k].Some?
      ensures var id := metas[plan[k].value].session.sessionId;
              id in PlanMatches(metas, ps, plan) && PlanMatches(metas, ps, plan)[id] == ps[k]
    {
      EntriesMatch(metas, ps, plan, k);
    }
    forall id | id in PlanMatches(metas, ps, plan) ensures PlanEntry(metas, plan, id) {
      MatchesAreEntries(metas, ps, plan, id);
    }
  }

  ghost predicate PlanEntry(metas: seq<PairingMeta>, plan: Assignment.Plan, id: string) {
    exists k :: 0 <= k < |plan| && plan[k].Some? && plan[k].value < |metas| && metas[plan[k].value].session.sessionId == id
  }

  lemma PlanMatchesOneToOne(metas: seq<PairingMeta>, ps: seq<Process>, plan: Assignment.Plan)
    requires |plan| <= |ps| && Assignment.OneToOne(plan, |metas|) && DistinctMetas(metas) && DistinctPids(ps)
    ensures OneToOne(PlanMatches(metas, ps, plan))
  {
    var m := PlanMatches(metas, ps, plan);
    PlanMatchesAre(metas, ps, plan);
    forall x, y | x in m && y in m && x != y ensures m[x].pid != m[y].pid {
      assert PlanEntry(metas, plan, x) && PlanEntry(metas, plan, y);
      var i :| 0 <= i < |plan| && plan[i].Some? && plan[i].value < |metas| && metas[plan[i].value].session.sessionId == x;
      var j :| 0 <= j < |plan| && plan[j].Some? && plan[j].value < |metas| && metas[plan[j].value].session.sessionId == y;
      assert i != j && m[x] == ps[i] && m[y] == ps[j];
    }
  }

  /** The optimal plan of one directory over the kept sessions and the processes in start order. */
  function DirectoryPlan(collate: Collation, sessions: seq<Session>, ordered: seq<Process>, now: int): (plan: Assignment.Plan)
    ensures |plan| == |ordered|
  {
    var starts := StartsOf(ordered);
    Assignment.Follow(CostMatrix(KeptMetas(collate, sessions, starts, now), starts), |starts|, 0, 0)
  }

  lemma DirectoryPlanIsOptimal(collate: Collation, sessions: seq<Session>, ordered: seq<Process>, now: int)
    ensures var starts := StartsOf(ordered);
            var metas := KeptMetas(collate, sessions, starts, now);
            var plan := DirectoryPlan(collate, sessions, ordered, now);
            && Assignment.OneToOne(plan, |metas|)
            && Assignment.Total(CostMatrix(metas, starts), |starts|, 0, plan) == Optimum(metas, starts)
            && forall k :: 0 <= k < |plan| && plan[k].Some? ==>
                 PairingCost(metas[plan[k].value], starts[k]) < Assignment.UNMATCHED_PROCESS_PENALTY
  {
    var starts := StartsOf(ordered);
    var cost := CostMatrix(KeptMetas(collate, sessions, starts, now), starts);
    Assignment.FollowAttains(cost, |starts|, 0, 0);
    Assignment.FollowBeatsPenalty(cost, |starts|, 0, 0);
  }

  /** The assignment of one directory, in full. */
  function DirectoryMatches(collate: Collation, sessions: seq<Session>, ps: seq<Process>, now: int): Matches {
    var ordered := SortByStart(ps);
    var metas := KeptMetas(collate, sessions, StartsOf(ordered), now);
    DirectoryPlanIsOptimal(collate, sessions, ordered, now);
    PlanMatches(metas, ordered, DirectoryPlan(collate, sessions, ordered, now))
  }

  /** Everything a directory's assignment adds is a match of one of its processes to one of its sessions, each used once,
    * and the two started within three days of each other. */
  lemma DirectoryMatchesJustified(collate: Collation, sessions: seq<Session>, ps: seq<Process>, now: int)
    requires DistinctIds(sessions) && DistinctPids(ps)
    ensures var added := DirectoryMatches(collate, sessions, ps, now);
            && OneToOne(added)
            && forall id :: id in added ==>
                 && added[id] in ps
                 && exists s :: s in sessions && s.sessionId == id && StartedWithinThreeDays(s, added[id])
  {
    hide KeptMetas, CostMatrix, DirectoryPlan, SortByStart, Assignment.Total, PairingCost;
    var ordered := SortByStart(ps);
    var metas := KeptMetas(collate, sessions, StartsOf(ordered), now);
    var plan := DirectoryPlan(collate, sessions, ordered, now);
    var added := DirectoryMatches(collate, sessions, ps, now);
    DirectoryPlanIsOptimal(collate, sessions, ordered, now);
    SortByStartKeeps(ps);
    KeptMetasAreSessions(collate, sessions, StartsOf(ordered), now);
    PlanMatchesAre(metas, ordered, plan);
    PlanMatchesOneToOne(metas, ordered, plan);
    forall id | id in added
      ensures added[id] in ps && exists s :: s in sessions && s.sessionId == id && StartedWithinThreeDays(s, added[id])
    {
      assert PlanEntry(metas, plan, id);
      var k :| 0 <= k < |plan| && plan[k].Some? && plan[k].value < |metas| && metas[plan[k].value].session.sessionId == id;
      var meta := metas[plan[k].value];
      assert ordered[k] in ps && meta in metas;
      CheaperThanPenaltyMeansCloseStart(meta.session, now, ordered[k].startTime);
    }
  }

  /** A process is used only if some session of its directory is within reach. */
  lemma UsedIsInReach(collate: Collation, sessions: seq<Session>, ps: seq<Process>, now: int, p: Process)
    requires DistinctIds(sessions) && DistinctPids(ps)
    requires p in DirectoryMatches(collate, sessions, ps, now).Values
    ensures exists s :: s in sessions && Reachable(s, [p.startTime], now)
  {
    hide KeptMetas, CostMatrix, DirectoryPlan, SortByStart, Assignment.Total, PairingCost;
    var ordered := SortByStart(ps);
    var metas := KeptMetas(collate, sessions, StartsOf(ordered), now);
    var plan := DirectoryPlan(collate, sessions, ordered, now);
    var added := DirectoryMatches(collate, sessions, ps, now);
    DirectoryPlanIsOptimal(collate, sessions, ordered, now);
    SortByStartKeeps(ps);
    KeptMetasAreSessions(collate, sessions, StartsOf(ordered), now);
    PlanMatchesAre(metas, ordered, plan);
    var id :| id in added && added[id] == p;
    assert PlanEntry(metas, plan, id);
    var k :| 0 <= k < |plan| && plan[k].Some? && plan[k].value < |metas| && metas[plan[k].value].session.sessionId == id;
    assert metas[plan[k].value] in metas && [p.startTime][0] == StartsOf(ordered)[k];
    assert Reachable(metas[plan[k].value].session, [p.startTime], now);
  }

  /** A process alone in its directory is used exactly when some session of the directory is within reach. */
  lemma LoneProcess(collate: Collation, sessions: seq<Session>, p: Process, now: int)
    requires TotalOrder(collate) && DistinctIds(sessions)
    ensures p in DirectoryMatches(collate, sessions, [p], now).Values
            <==> exists s :: s in sessions && Reachable(s, [p.startTime], now)
  {
    hide KeptMetas, CostMatrix, DirectoryPlan, Assignment.Total, PairingCost, Optimum, Reachable;
    assert SortByStart([p]) == [p];
    assert StartsOf([p]) == [p.startTime];
    var metas := KeptMetas(collate, sessions, [p.startTime], now);
    var plan := DirectoryPlan(collate, sessions, [p], now);
    var added := DirectoryMatches(collate, sessions, [p], now);
    assert plan == [plan[0]];
    DirectoryPlanIsOptimal(collate, sessions, [p], now);
    KeptMetasAreSessions(collate, sessions, [p.startTime], now);
    PlanMatchesAre(metas, [p], plan);
    ReachedIff(collate, sessions, p.startTime, now, plan[0]);
    if plan[0].Some? {
      var id := metas[plan[0].value].session.sessionId;
      assert id in added && added[id] == p;
    }
    forall id | id in added ensures plan[0].Some? {
      assert PlanEntry(metas, plan, id);
    }
  }

  method AssignDirectory(collate: Collation, sessions: seq<Session>, ps: seq<Process>, now: int, m: Matches) returns (m': Matches)
    ensures m' == m + DirectoryMatches(collate, sessions, ps, now)
  {
    var ordered := SortByStart(ps);
    var starts := StartsOf(ordered);
    var metas := SelectCandidateSessions(collate, sessions, starts, now, CandidateLimit(|sessions|, |ps|));
    var plan := Assignment.GetBestAssignment(CostMatrix(metas, starts), |starts|);
    m' := ApplyPlan(metas, ordered, plan, m);
  }

  /** `assignment.forEach` */
  method ApplyPlan(metas: seq<PairingMeta>, ordered: seq<Process>, plan: Assignment.Plan, m: Matches) returns (m': Matches)
    requires |plan| == |ordered| && Assignment.OneToOne(plan, |metas|)
    ensures m' == m + PlanMatches(metas, ordered, plan)
  {
    m' := m;
    for k := 0 to |plan|
      invariant Assignment.OneToOne(plan[..k], |metas|)
      invariant m' == m + PlanMatches(metas, ordered, plan[..k])
    {
      assert plan[..k + 1][..k] == plan[..k];
      if plan[k].Some? {
        m' := m'[metas[plan[k].value].session.sessionId := ordered[k]];
      }
    }
    assert plan[..|plan|] == plan;
  }
}
