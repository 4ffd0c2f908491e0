/** What the candidate cut costs: nothing for one process, possibly the optimum for two. */
module CandidateCut {
  import opened Outcomes
  import opened Basics
  import opened Assignment
  import opened CandidateSelection

  /** Rows are sessions, columns are processes. */
  function CostMatrix(metas: seq<PairingMeta>, starts: seq<int>): (cost: seq<seq<int>>)
    ensures Matrix(cost, |starts|) && |cost| == |metas|
    ensures forall s, p :: 0 <= s < |metas| && 0 <= p < |starts| ==> cost[s][p] == PairingCost(metas[s], starts[p])
  {
    seq(|metas|, s requires 0 <= s < |metas| =>
      seq(|starts|, p requires 0 <= p < |starts| => PairingCost(metas[s], starts[p])))
  }

  /** `Math.min(sessions, 20, Math.max(processes * 2, processes + 2))` */
  function CandidateLimit(sessions: nat, processes: nat): nat {
    Min(sessions, Min(20, Max(processes * 2, processes + 2)))
  }

  /** All sessions compete while there are at most as many as twice the processes, or two more; never more than twenty. */
  lemma LimitMeans(sessions: nat, processes: nat)
    ensures CandidateLimit(sessions, processes) <= sessions && CandidateLimit(sessions, processes) <= 20
    ensures sessions <= 20 && (sessions <= 2 * processes || sessions <= processes + 2) ==> CandidateLimit(sessions, processes) == sessions
    ensures CandidateLimit(sessions, processes) < sessions ==>
              CandidateLimit(sessions, processes) == 20
              || (CandidateLimit(sessions, processes) in {2 * processes, processes + 2} && CandidateLimit(sessions, processes) >= processes + 2
                  && CandidateLimit(sessions, processes) >= 2 * processes)
  {
  }

  function AllMetas(sessions: seq<Session>, now: int): seq<PairingMeta> {
    seq(|sessions|, i requires 0 <= i < |sessions| => BuildPairingMeta(sessions[i], now))
  }

  function KeptMetas(collate: Collation, sessions: seq<Session>, starts: seq<int>, now: int): seq<PairingMeta> {
    MetasOf(Take(Sort(collate, sessions, starts, now), CandidateLimit(|sessions|, |starts|)))
  }

  predicate DistinctMetas(metas: seq<PairingMeta>) {
    forall i, j :: 0 <= i < j < |metas| ==> metas[i].session.sessionId != metas[j].session.sessionId
  }

  lemma KeptMetasAreSessions(collate: Collation, sessions: seq<Session>, starts: seq<int>, now: int)
    requires DistinctIds(sessions)
    ensures DistinctMetas(KeptMetas(collate, sessions, starts, now))
    ensures forall meta :: meta in KeptMetas(collate, sessions, starts, now) ==>
              meta.session in sessions && meta == BuildPairingMeta(meta.session, now)
  {
    var sorted := Sort(collate, sessions, starts, now);
    var limit := CandidateLimit(|sessions|, |starts|);
    SortKeepsSessions(collate, sessions, starts, now);
    TakeIsPrefix(sorted, limit);
    forall meta | meta in KeptMetas(collate, sessions, starts, now)
      ensures meta.session in sessions && meta == BuildPairingMeta(meta.session, now)
    {
      var i :| 0 <= i < |Take(sorted, limit)| && Take(sorted, limit)[i].meta == meta;
      assert sorted[i] in sorted;
    }
  }

  /** The least total over all one-to-one plans, by `FollowIsOptimal` and `FollowAttains`. */
  function Optimum(metas: seq<PairingMeta>, starts: seq<int>): int {
    Solve(CostMatrix(metas, starts), |starts|, 0, 0)
  }

  lemma OptimumAtMost(metas: seq<PairingMeta>, starts: seq<int>, plan: Plan)
    requires |plan| == |starts| && OneToOne(plan, |metas|)
    ensures Optimum(metas, starts) <= Total(CostMatrix(metas, starts), |starts|, 0, plan)
  {
    FollowIsOptimal(CostMatrix(metas, starts), |starts|, plan);
    FollowAttains(CostMatrix(metas, starts), |starts|, 0, 0);
  }

  lemma OptimumAttained(metas: seq<PairingMeta>, starts: seq<int>) returns (plan: Plan)
    ensures |plan| == |starts| && OneToOne(plan, |metas|)
    ensures Optimum(metas, starts) == Total(CostMatrix(metas, starts), |starts|, 0, plan)
  {
    plan := Follow(CostMatrix(metas, starts), |starts|, 0, 0);
    FollowAttains(CostMatrix(metas, starts), |starts|, 0, 0);
  }

  lemma SinglePlanTotal(metas: seq<PairingMeta>, start: int, entry: Option<nat>)
    requires entry.Some? ==> entry.value < |metas|
    ensures OneToOne([entry], |metas|)
    ensures Total(CostMatrix(metas, [start]), 1, 0, [entry])
            == if entry.Some? then PairingCost(metas[entry.value], start) else UNMATCHED_PROCESS_PENALTY
  {
  }

  lemma OneProcessBestCost(session: Session, start: int, now: int)
    ensures MakeCandidate(session, [start], now).bestCost == Finite(PairingCost(BuildPairingMeta(session, now), start))
  {
    var meta := BuildPairingMeta(session, now);
    assert [start][..0] == [] && BestCost(meta, []) == Infinite;
  }

  /** For one process the optimum over the kept sessions is the optimum over all sessions. */
  lemma SingleProcessCutIsLossless(collate: Collation, sessions: seq<Session>, start: int, now: int)
    requires TotalOrder(collate) && DistinctIds(sessions)
    ensures Optimum(KeptMetas(collate, sessions, [start], now), [start]) == Optimum(AllMetas(sessions, now), [start])
  {
    var sorted := Sort(collate, sessions, [start], now);
    var all, kept := AllMetas(sessions, now), KeptMetas(collate, sessions, [start], now);
    SortKeepsSessions(collate, sessions, [start], now);
    SortIsSorted(collate, sessions, [start], now);

    var plan := OptimumAttained(all, [start]);
    assert plan == [plan[0]];
    SinglePlanTotal(all, start, plan[0]);
    var entry: Option<nat> := if plan[0].Some? then Some(0) else None;
    if plan[0].Some? {
      var c := MakeCandidate(sessions[plan[0].value], [start], now);
      var j :| 0 <= j < |sorted| && sorted[j] == c;
      assert sorted[0] in sorted;
      assert j == 0 || !Before(collate, sorted[j], sorted[0]);
      OneProcessBestCost(c.meta.session, start, now);
      OneProcessBestCost(sorted[0].meta.session, start, now);
      assert PairingCost(kept[0], start) <= PairingCost(c.meta, start);
    }
    SinglePlanTotal(kept, start, entry);
    OptimumAtMost(kept, [start], [entry]);

    var keptPlan := OptimumAttained(kept, [start]);
    assert keptPlan == [keptPlan[0]];
    SinglePlanTotal(kept, start, keptPlan[0]);
    var back: Option<nat> := None;
    if keptPlan[0].Some? {
      assert sorted[keptPlan[0].value] in sorted;
      var k :| 0 <= k < |sessions| && sessions[k] == sorted[keptPlan[0].value].meta.session;
      back := Some(k);
    }
    SinglePlanTotal(all, start, back);
    OptimumAtMost(all, [start], [back]);
  }

  // ----- A checkable condition: no more sessions within reach than are kept -----

  /** Matching the session with some process is cheaper than leaving the process unmatched. */
  predicate Reachable(s: Session, starts: seq<int>, now: int) {
    exists i :: 0 <= i < |starts| && PairingCost(BuildPairingMeta(s, now), starts[i]) < UNMATCHED_PROCESS_PENALTY
  }

  function ReachableIds(sessions: seq<Session>, starts: seq<int>, now: int): set<string> {
    set s | s in sessions && Reachable(s, starts, now) :: s.sessionId
  }

  lemma SubsetIsSmaller(a: set<string>, b: set<string>)
    requires a <= b
    ensures |a| <= |b|
  {
    assert b == a + (b - a);
  }

  function FirstIds(s: seq<Candidate>, n: nat): set<string>
    requires n <= |s|
  {
    set i | 0 <= i < n :: s[i].meta.session.sessionId
  }

  lemma {:induction false} FirstIdsCount(s: seq<Candidate>, n: nat)
    requires DistinctCandidates(s) && n <= |s|
    ensures |FirstIds(s, n)| == n
  {
    if n > 0 {
      FirstIdsCount(s, n - 1);
      assert FirstIds(s, n) == FirstIds(s, n - 1) + {s[n - 1].meta.session.sessionId};
    }
  }

  lemma NearerIsReachable(collate: Collation, near: Candidate, far: Candidate, starts: seq<int>, now: int)
    requires near == MakeCandidate(near.meta.session, starts, now) && far == MakeCandidate(far.meta.session, starts, now)
    requires !Before(collate, far, near) && Reachable(far.meta.session, starts, now)
    ensures Reachable(near.meta.session, starts, now)
  {
    hide PairingCost, BuildPairingMeta;
    var i :| 0 <= i < |starts| && PairingCost(BuildPairingMeta(far.meta.session, now), starts[i]) < UNMATCHED_PROCESS_PENALTY;
    BestCostIsMinimum(far.meta, starts, i);
    BestCostIsMinimum(near.meta, starts, i);
  }

  /** When no more sessions are within reach than are kept, all of those are kept. */
  lemma ReachableAreKept(collate: Collation, sessions: seq<Session>, starts: seq<int>, now: int, s: Session)
    requires TotalOrder(collate) && DistinctIds(sessions)
    requires |ReachableIds(sessions, starts, now)| <= CandidateLimit(|sessions|, |starts|)
    requires s in sessions && Reachable(s, starts, now)
    ensures BuildPairingMeta(s, now) in KeptMetas(collate, sessions, starts, now)
  {
    hide Before, Sort, Reachable, BestCost, BuildPairingMeta;
    var sorted, limit := Sort(collate, sessions, starts, now), CandidateLimit(|sessions|, |starts|);
    var c := MakeCandidate(s, starts, now);
    SortIsSorted(collate, sessions, starts, now);
    SortKeepsSessions(collate, sessions, starts, now);
    MadeFrom(s, starts, now);
    var j :| 0 <= j < |sorted| && sorted[j] == c;
    if limit <= j {
      forall i | 0 <= i <= limit ensures sorted[i].meta.session.sessionId in ReachableIds(sessions, starts, now) {
        assert sorted[i] in sorted;
        if limit < j || i < limit { NearerIsReachable(collate, sorted[i], c, starts, now); }
      }
      FirstIdsCount(sorted, limit + 1);
      SubsetIsSmaller(FirstIds(sorted, limit + 1), ReachableIds(sessions, starts, now));
    } else {
      assert KeptMetas(collate, sessions, starts, now)[j] == c.meta;
    }
  }

  // ----- Moving a plan from one list of sessions to another -----

  function IndexOfMeta(metas: seq<PairingMeta>, m: PairingMeta): (i: nat)
    requires m in metas
    ensures i < |metas| && metas[i] == m
  {
    if metas[0] == m then 0 else 1 + IndexOfMeta(metas[1..], m)
  }

  predicate NamesOnly(metas: seq<PairingMeta>, plan: Plan, others: seq<PairingMeta>) {
    forall i :: 0 <= i < |plan| && plan[i].Some? ==> plan[i].value < |metas| && metas[plan[i].value] in others
  }

  /** The same plan, its sessions looked up in the other list. */
  function Moved(metas: seq<PairingMeta>, plan: Plan, others: seq<PairingMeta>): (r: Plan)
    requires NamesOnly(metas, plan, others)
    ensures |r| == |plan|
    ensures forall i :: 0 <= i < |plan| ==> (r[i].Some? <==> plan[i].Some?)
    ensures forall i :: 0 <= i < |plan| && plan[i].Some? ==> r[i].value < |others| && others[r[i].value] == metas[plan[i].value]
  {
    seq(|plan|, i requires 0 <= i < |plan| =>
      if plan[i].Some? then Some(IndexOfMeta(others, metas[plan[i].value])) else None)
  }

  lemma {:induction false} SameEntriesSameTotal(a: seq<seq<int>>, b: seq<seq<int>>, processes: nat, p: nat, x: Plan, y: Plan)
    requires Matrix(a, processes) && Matrix(b, processes) && p + |x| == processes && |y| == |x|
    requires OneToOne(x, |a|) && OneToOne(y, |b|)
    requires forall i :: 0 <= i < |x| ==> EntryCost(a, processes, p + i, x[i]) == EntryCost(b, processes, p + i, y[i])
    ensures Total(a, processes, p, x) == Total(b, processes, p, y)
    decreases |x|
  {
    if |x| > 0 {
      forall i | 0 <= i < |x[1..]|
        ensures EntryCost(a, processes, p + 1 + i, x[1..][i]) == EntryCost(b, processes, p + 1 + i, y[1..][i])
      {
        assert x[1..][i] == x[i + 1] && y[1..][i] == y[i + 1];
        assert EntryCost(a, processes, p + (i + 1), x[i + 1]) == EntryCost(b, processes, p + (i + 1), y[i + 1]);
      }
      SameEntriesSameTotal(a, b, processes, p + 1, x[1..], y[1..]);
    }
  }

  /** An optimal plan never uses sessions out of reach, so leaving those out costs nothing. */
  lemma OptimumMoves(metas: seq<PairingMeta>, others: seq<PairingMeta>, starts: seq<int>)
    requires DistinctMetas(metas)
    requires forall m, i :: m in metas && m !in others && 0 <= i < |starts| ==>
               PairingCost(m, starts[i]) >= UNMATCHED_PROCESS_PENALTY
    ensures Optimum(others, starts) <= Optimum(metas, starts)
  {
    hide PairingCost, Total;
    var cost := CostMatrix(metas, starts);
    var plan := Follow(cost, |starts|, 0, 0);
    FollowAttains(cost, |starts|, 0, 0);
    FollowBeatsPenalty(cost, |starts|, 0, 0);
    assert NamesOnly(metas, plan, others);
    var moved := Moved(metas, plan, others);
    SameEntriesSameTotal(cost, CostMatrix(others, starts), |starts|, 0, plan, moved);
    OptimumAtMost(others, starts, moved);
  }

  lemma AllMetasAreDistinct(sessions: seq<Session>, now: int)
    requires DistinctIds(sessions)
    ensures DistinctMetas(AllMetas(sessions, now))
    ensures forall s :: s in sessions ==> BuildPairingMeta(s, now) in AllMetas(sessions, now)
  {
    forall i | 0 <= i < |sessions| ensures BuildPairingMeta(sessions[i], now) in AllMetas(sessions, now) {
      assert AllMetas(sessions, now)[i] == BuildPairingMeta(sessions[i], now);
    }
  }

  /** For any number of processes: when no more sessions are within reach than are kept, the optimum over the kept sessions
    * is the optimum over all sessions. */
  lemma CutIsLossless(collate: Collation, sessions: seq<Session>, starts: seq<int>, now: int)
    requires TotalOrder(collate) && DistinctIds(sessions)
    requires |ReachableIds(sessions, starts, now)| <= CandidateLimit(|sessions|, |starts|)
    ensures Optimum(KeptMetas(collate, sessions, starts, now), starts) == Optimum(AllMetas(sessions, now), starts)
  {
    hide KeptMetas, Optimum, PairingCost, BuildPairingMeta, CandidateLimit;
    var all, kept := AllMetas(sessions, now), KeptMetas(collate, sessions, starts, now);
    AllMetasAreDistinct(sessions, now);
    KeptMetasAreSessions(collate, sessions, starts, now);
    forall m, i | m in all && m !in kept && 0 <= i < |starts| ensures PairingCost(m, starts[i]) >= UNMATCHED_PROCESS_PENALTY {
      var k :| 0 <= k < |sessions| && m == BuildPairingMeta(sessions[k], now);
      if PairingCost(m, starts[i]) < UNMATCHED_PROCESS_PENALTY {
        ReachableAreKept(collate, sessions, starts, now, sessions[k]);
      }
    }
    OptimumMoves(all, kept, starts);
    OptimumMoves(kept, all, starts);
  }

  /** One process: the plan over the kept sessions uses it exactly when some session is within reach. */
  lemma ReachedIff(collate: Collation, sessions: seq<Session>, start: int, now: int, entry: Option<nat>)
    requires TotalOrder(collate) && DistinctIds(sessions)
    requires var kept := KeptMetas(collate, sessions, [start], now);
             && OneToOne([entry], |kept|)
             && Total(CostMatrix(kept, [start]), 1, 0, [entry]) == Optimum(kept, [start])
             && (entry.Some? ==> PairingCost(kept[entry.value], start) < UNMATCHED_PROCESS_PENALTY)
    ensures entry.Some? <==> exists s :: s in sessions && Reachable(s, [start], now)
  {
    hide KeptMetas, Optimum, PairingCost, BuildPairingMeta, Total;
    var all, kept := AllMetas(sessions, now), KeptMetas(collate, sessions, [start], now);
    KeptMetasAreSessions(collate, sessions, [start], now);
    var plan: Plan := [entry];
    if plan[0].Some? {
      assert kept[entry.value] in kept;
      assert [start][0] == start;
      assert Reachable(kept[entry.value].session, [start], now);
    } else {
      SinglePlanTotal(kept, start, None);
      SingleProcessCutIsLossless(collate, sessions, start, now);
      forall s | s in sessions ensures !Reachable(s, [start], now) {
        var k :| 0 <= k < |sessions| && sessions[k] == s;
        SinglePlanTotal(all, start, Some(k));
        OptimumAtMost(all, [start], [Some(k)]);
      }
    }
  }

  // ----- Two processes: four sessions crowd out the only session near the second process -----

  function Nearby(id: string, startedAt: int): Session {
    Session(id, None, "/repo", Some(startedAt), 5000, None)
  }

  const CROWD: seq<Session> := [Nearby("a", 0), Nearby("b", 1), Nearby("c", 2), Nearby("d", 3), Nearby("e", 1010)]
  const TWO_STARTS: seq<int> := [0, 1000]

  lemma CrowdCosts(s: Session)
    requires s in CROWD
    ensures MakeCandidate(s, TWO_STARTS, 5000).bestCost == Finite(if s == CROWD[4] then 100 else 10 * s.startedAt.value)
    ensures s != CROWD[4] ==> PairingCost(BuildPairingMeta(s, 5000), 1000) >= 9970
  {
    var meta := BuildPairingMeta(s, 5000);
    assert TWO_STARTS[..1] == [0] && [0][..0] == [];
    assert BestCost(meta, []) == Infinite;
    assert BestCost(meta, [0]) == Finite(PairingCost(meta, 0));
  }

  lemma FarIsWorse(collate: Collation, s: Session)
    requires s in CROWD && s != CROWD[4]
    ensures Before(collate, MakeCandidate(s, TWO_STARTS, 5000), MakeCandidate(CROWD[4], TWO_STARTS, 5000))
  {
    CrowdCosts(s);
    CrowdCosts(CROWD[4]);
  }

  lemma CrowdCutsTheFarSession(collate: Collation, m: PairingMeta)
    requires TotalOrder(collate)
    requires m in KeptMetas(collate, CROWD, TWO_STARTS, 5000)
    ensures m.session in CROWD && m.session != CROWD[4] && m == BuildPairingMeta(m.session, 5000)
  {
    hide Sort, Before, BestCost, PairingCost;
    var sorted := Sort(collate, CROWD, TWO_STARTS, 5000);
    SortIsSorted(collate, CROWD, TWO_STARTS, 5000);
    SortKeepsSessions(collate, CROWD, TWO_STARTS, 5000);
    var j :| 0 <= j < 4 && sorted[j].meta == m;
    assert sorted[j] in sorted && sorted[4] in sorted;
    assert !Before(collate, sorted[4], sorted[j]);
    if sorted[4].meta.session != CROWD[4] {
      FarIsWorse(collate, sorted[4].meta.session);
    }
  }

  /** With two processes the kept sessions can miss the optimum. */
  lemma TwoProcessCutCanLose(collate: Collation)
    requires TotalOrder(collate)
    ensures DistinctIds(CROWD)
    ensures Optimum(KeptMetas(collate, CROWD, TWO_STARTS, 5000), TWO_STARTS) >= 9970
    ensures Optimum(AllMetas(CROWD, 5000), TWO_STARTS) <= 100
  {
    var kept, all := KeptMetas(collate, CROWD, TWO_STARTS, 5000), AllMetas(CROWD, 5000);
    var best: Plan := [Some(0), Some(4)];
    OptimumAtMost(all, TWO_STARTS, best);
    assert best[1..] == [Some(4)];
    assert Total(CostMatrix(all, TWO_STARTS), 2, 0, best) == 0 + 100;

    var plan := OptimumAttained(kept, TWO_STARTS);
    var cost := CostMatrix(kept, TWO_STARTS);
    var tail: Plan := plan[1..];
    assert tail == [plan[1]] && tail[1..] == [];
    assert Total(cost, 2, 1, tail) == EntryCost(cost, 2, 1, plan[1]);
    assert Total(cost, 2, 0, plan) == EntryCost(cost, 2, 0, plan[0]) + EntryCost(cost, 2, 1, plan[1]);
    forall i | 0 <= i < 2 && plan[i].Some? ensures kept[plan[i].value].session in CROWD && kept[plan[i].value].session != CROWD[4]
      && kept[plan[i].value] == BuildPairingMeta(kept[plan[i].value].session, 5000)
    {
      CrowdCutsTheFarSession(collate, kept[plan[i].value]);
    }
    if plan[1].Some? {
      CrowdCosts(kept[plan[1].value].session);
    }
  }
}
