/** Which sessions compete for the unmatched processes of one directory: the first few in
  * `compareCandidates` order, kept by bounded insertion. */
module CandidateSelection {
  import opened Outcomes
  import opened Basics
  import Assignment

  const MAX_ACTIVITY_AGE_PENALTY: int := 24 * 60 * 60 * 1000
  const START_TIME_WEIGHT: int := 10

  datatype Client = Claude | Codex

  /** Times are milliseconds since the epoch. */
  datatype Session = Session(
    sessionId: string,
    client: Option<Client>,
    directory: string,
    startedAt: Option<int>,
    lastActiveAt: int,
    pid: Option<int>)

  datatype PairingMeta = PairingMeta(session: Session, referenceTime: int, activityAgePenalty: int)

  /** A best cost starts at positive infinity and stays there when there is no process. */
  datatype Cost = Finite(ms: int) | Infinite {
    predicate Less(other: Cost) {
      Finite? && (other.Infinite? || ms < other.ms)
    }
  }

  datatype Candidate = Candidate(meta: PairingMeta, bestCost: Cost)

  /** `localeCompare`, of which only the sign is used. */
  type Collation = (string, string) -> int

  ghost predicate TotalOrder(collate: Collation) {
    && (forall a: string, b: string :: collate(a, b) == 0 <==> a == b)
    && (forall a: string, b: string :: collate(a, b) < 0 <==> collate(b, a) > 0)
    && (forall a: string, b: string, c: string :: collate(a, b) < 0 && collate(b, c) < 0 ==> collate(a, c) < 0)
  }

  function Abs(x: int): int { if x < 0 then -x else x }

  function BuildPairingMeta(session: Session, now: int): PairingMeta {
    PairingMeta(session, session.startedAt.GetOr(session.lastActiveAt),
                Min(Max(0, now - session.lastActiveAt), MAX_ACTIVITY_AGE_PENALTY))
  }

  function PairingCost(meta: PairingMeta, processStart: int): int {
    Abs(meta.referenceTime - processStart) * START_TIME_WEIGHT + meta.activityAgePenalty
  }

  /** A pair the assignment prefers over no match started less than three days apart. */
  lemma CheaperThanPenaltyMeansCloseStart(session: Session, now: int, processStart: int)
    requires PairingCost(BuildPairingMeta(session, now), processStart) < Assignment.UNMATCHED_PROCESS_PENALTY
    ensures Abs(session.startedAt.GetOr(session.lastActiveAt) - processStart) < 3 * 24 * 60 * 60 * 1000
  {
  }

  /** A pair costs ten times the distance of the starts, and as much as the session was idle, up to a day: of two sessions
    * that started equally far away the one active later never costs more. */
  lemma CostMeans(a: Session, b: Session, now: int, start: int)
    ensures var idle := now - a.lastActiveAt;
            PairingCost(BuildPairingMeta(a, now), start)
            == 10 * Abs(a.startedAt.GetOr(a.lastActiveAt) - start)
               + if idle < 0 then 0 else if idle > 86400000 then 86400000 else idle
    ensures Abs(a.startedAt.GetOr(a.lastActiveAt) - start) == Abs(b.startedAt.GetOr(b.lastActiveAt) - start) && a.lastActiveAt >= b.lastActiveAt ==>
              PairingCost(BuildPairingMeta(a, now), start) <= PairingCost(BuildPairingMeta(b, now), start)
  {
  }

  /** `compareCandidates(left, right) < 0` */
  predicate Before(collate: Collation, left: Candidate, right: Candidate) {
    if left.bestCost != right.bestCost then left.bestCost.Less(right.bestCost)
    else if left.meta.session.lastActiveAt != right.meta.session.lastActiveAt then
      left.meta.session.lastActiveAt > right.meta.session.lastActiveAt
    else collate(left.meta.session.sessionId, right.meta.session.sessionId) < 0
  }

  /** The cheaper candidate comes first, of equally cheap ones the one active later, and of those the id decides. */
  lemma BeforeMeans(collate: Collation, a: Candidate, b: Candidate)
    ensures a.bestCost.Less(b.bestCost) ==> Before(collate, a, b) && !Before(collate, b, a)
    ensures a.bestCost == b.bestCost && a.meta.session.lastActiveAt > b.meta.session.lastActiveAt ==> Before(collate, a, b) && !Before(collate, b, a)
    ensures a.bestCost == b.bestCost && a.meta.session.lastActiveAt == b.meta.session.lastActiveAt ==>
              (Before(collate, a, b) <==> collate(a.meta.session.sessionId, b.meta.session.sessionId) < 0)
    ensures Finite(1).Less(Finite(2)) && !Finite(2).Less(Finite(1)) && Finite(1).Less(Infinite)
  {
  }

  lemma BeforeIsTransitive(collate: Collation, a: Candidate, b: Candidate, c: Candidate)
    requires TotalOrder(collate)
    requires Before(collate, a, b) && !Before(collate, c, b)
    ensures Before(collate, a, c)
  {
    var x, y, z := a.meta.session.sessionId, b.meta.session.sessionId, c.meta.session.sessionId;
    assert collate(c.meta.session.sessionId, y) >= 0 ==> y == z || collate(y, z) < 0;
  }

  lemma BeforeIsTotal(collate: Collation, a: Candidate, b: Candidate)
    requires TotalOrder(collate)
    ensures !(Before(collate, a, b) && Before(collate, b, a))
    ensures a.meta.session.sessionId != b.meta.session.sessionId ==> Before(collate, a, b) || Before(collate, b, a)
  {
    var x, y := a.meta.session.sessionId, b.meta.session.sessionId;
    assert collate(x, y) == 0 <==> x == y;
    assert collate(x, y) < 0 <==> collate(y, x) > 0;
    assert collate(y, x) < 0 <==> collate(x, y) > 0;
  }

  // ----- The reference: sort all candidates, then take the first ones -----

  function BestCost(meta: PairingMeta, starts: seq<int>): Cost {
    if |starts| == 0 then Infinite
    else
      var before := BestCost(meta, starts[..|starts| - 1]);
      var cost := Finite(PairingCost(meta, starts[|starts| - 1]));
      if cost.Less(before) then cost else before
  }

  /** The best cost is the smallest pairing cost over the processes. */
  lemma {:induction false} BestCostIsMinimum(meta: PairingMeta, starts: seq<int>, i: nat)
    requires i < |starts|
    ensures BestCost(meta, starts).Finite?
    ensures BestCost(meta, starts).ms <= PairingCost(meta, starts[i])
    ensures exists k :: 0 <= k < |starts| && BestCost(meta, starts).ms == PairingCost(meta, starts[k])
  {
    var init := starts[..|starts| - 1];
    if |init| > 0 {
      BestCostIsMinimum(meta, init, if i < |init| then i else 0);
      var k :| 0 <= k < |init| && BestCost(meta, init).ms == PairingCost(meta, init[k]);
      assert init[k] == starts[k];
    } else {
      assert BestCost(meta, starts) == Finite(PairingCost(meta, starts[0]));
    }
  }

  function MakeCandidate(session: Session, starts: seq<int>, now: int): Candidate {
    var meta := BuildPairingMeta(session, now);
    Candidate(meta, BestCost(meta, starts))
  }

  /** The first place whose occupant the candidate precedes. */
  function Position(collate: Collation, c: Candidate, sorted: seq<Candidate>): (i: nat)
    ensures i <= |sorted|
    ensures forall k :: 0 <= k < i ==> !Before(collate, c, sorted[k])
    ensures i < |sorted| ==> Before(collate, c, sorted[i])
  {
    if |sorted| == 0 || Before(collate, c, sorted[0]) then 0
    else 1 + Position(collate, c, sorted[1..])
  }

  function InsertAt(sorted: seq<Candidate>, i: nat, c: Candidate): seq<Candidate>
    requires i <= |sorted|
  {
    sorted[..i] + [c] + sorted[i..]
  }

  /** Stable insertion sort of all candidates. */
  function Sort(collate: Collation, sessions: seq<Session>, starts: seq<int>, now: int): (sorted: seq<Candidate>)
    ensures |sorted| == |sessions|
  {
    if |sessions| == 0 then []
    else
      var sorted := Sort(collate, sessions[..|sessions| - 1], starts, now);
      var c := MakeCandidate(sessions[|sessions| - 1], starts, now);
      InsertAt(sorted, Position(collate, c, sorted), c)
  }

  function Take(s: seq<Candidate>, limit: nat): seq<Candidate> {
    if |s| <= limit then s else s[..limit]
  }

  function MetasOf(s: seq<Candidate>): seq<PairingMeta> {
    seq(|s|, i requires 0 <= i < |s| => s[i].meta)
  }

  ghost predicate Sorted(collate: Collation, s: seq<Candidate>) {
    forall i, j :: 0 <= i < j < |s| ==> !Before(collate, s[j], s[i])
  }

  lemma {:induction false} SortIsSorted(collate: Collation, sessions: seq<Session>, starts: seq<int>, now: int)
    requires TotalOrder(collate)
    ensures Sorted(collate, Sort(collate, sessions, starts, now))
    decreases |sessions|
  {
    if |sessions| > 0 {
      var init := sessions[..|sessions| - 1];
      SortIsSorted(collate, init, starts, now);
      InsertKeepsSorted(collate, Sort(collate, init, starts, now), MakeCandidate(sessions[|sessions| - 1], starts, now));
    }
  }

  lemma InsertKeepsSorted(collate: Collation, sorted: seq<Candidate>, c: Candidate)
    requires TotalOrder(collate) && Sorted(collate, sorted)
    ensures Sorted(collate, InsertAt(sorted, Position(collate, c, sorted), c))
  {
    var at := Position(collate, c, sorted);
    forall k | at <= k < |sorted| ensures !Before(collate, sorted[k], c) {
      assert at == k || !Before(collate, sorted[k], sorted[at]);
      if at != k {
        BeforeIsTransitive(collate, c, sorted[at], sorted[k]);
      }
      BeforeIsTotal(collate, c, sorted[k]);
    }
  }

  predicate DistinctIds(sessions: seq<Session>) {
    forall i, j :: 0 <= i < j < |sessions| ==> sessions[i].sessionId != sessions[j].sessionId
  }

  predicate DistinctCandidates(s: seq<Candidate>) {
    forall i, j :: 0 <= i < j < |s| ==> s[i].meta.session.sessionId != s[j].meta.session.sessionId
  }

  lemma InsertAtMembers(sorted: seq<Candidate>, at: nat, c: Candidate, x: Candidate)
    requires at <= |sorted|
    ensures x in InsertAt(sorted, at, c) <==> x == c || x in sorted
  {
    assert sorted == sorted[..at] + sorted[at..];
    assert x in sorted <==> x in sorted[..at] || x in sorted[at..];
    assert x in InsertAt(sorted, at, c) <==> x in sorted[..at] || x == c || x in sorted[at..];
  }

  lemma InsertAtDistinct(sorted: seq<Candidate>, at: nat, c: Candidate)
    requires at <= |sorted| && DistinctCandidates(sorted)
    requires forall k :: 0 <= k < |sorted| ==> sorted[k].meta.session.sessionId != c.meta.session.sessionId
    ensures DistinctCandidates(InsertAt(sorted, at, c))
  {
  }

  lemma MadeFrom(s: Session, starts: seq<int>, now: int)
    ensures MakeCandidate(s, starts, now).meta.session == s
  {
  }

  /** Sorting keeps exactly the given sessions, each once. */
  lemma {:induction false} SortKeepsSessions(collate: Collation, sessions: seq<Session>, starts: seq<int>, now: int)
    requires DistinctIds(sessions)
    ensures DistinctCandidates(Sort(collate, sessions, starts, now))
    ensures forall c :: c in Sort(collate, sessions, starts, now) <==>
              c.meta.session in sessions && c == MakeCandidate(c.meta.session, starts, now)
    decreases |sessions|
  {
    hide MakeCandidate, Position, InsertAt;
    if |sessions| > 0 {
      var n := |sessions| - 1;
      var init, last := sessions[..n], sessions[n];
      var sorted := Sort(collate, init, starts, now);
      var c := MakeCandidate(last, starts, now);
      var at := Position(collate, c, sorted);
      SortKeepsSessions(collate, init, starts, now);
      MadeFrom(last, starts, now);
      forall k | 0 <= k < |sorted| ensures sorted[k].meta.session.sessionId != last.sessionId {
        assert sorted[k] in sorted;
        var i :| 0 <= i < n && init[i] == sorted[k].meta.session;
        assert sessions[i] == init[i];
      }
      InsertAtDistinct(sorted, at, c);
      forall x {
        InsertAtMembers(sorted, at, c, x);
      }
      assert sessions == init + [last];
    }
  }

  lemma TakeIsPrefix(s: seq<Candidate>, limit: nat)
    ensures |Take(s, limit)| == Min(|s|, limit) && Take(s, limit) <= s
    ensures forall j :: 0 <= j < |s| && j < limit ==> s[j] in Take(s, limit)
  {
    forall j | 0 <= j < |s| && j < limit ensures s[j] in Take(s, limit) {
      assert Take(s, limit)[j] == s[j];
    }
  }

  // ----- Bounded insertion computes the same prefix -----

  lemma BoundedInsertion(collate: Collation, sorted: seq<Candidate>, limit: nat, c: Candidate)
    ensures var kept := Take(sorted, limit);
            var at := Position(collate, c, kept);
            Take(InsertAt(sorted, Position(collate, c, sorted), c), limit)
            == if at >= limit then kept else Take(InsertAt(kept, at, c), limit)
  {
    var kept := Take(sorted, limit);
    var at := Position(collate, c, sorted);
    var keptAt := Position(collate, c, kept);
    if at < |kept| {
      assert kept[at] == sorted[at];
      assert keptAt == at;
    } else {
      assert keptAt == |kept|;
    }
  }

  /** The first inner loop of `selectCandidateSessions`. */
  method LowestCost(meta: PairingMeta, starts: seq<int>) returns (bestCost: Cost)
    ensures bestCost == BestCost(meta, starts)
  {
    bestCost := Infinite;
    for k := 0 to |starts|
      invariant bestCost == BestCost(meta, starts[..k])
    {
      assert starts[..k + 1][..k] == starts[..k];
      var cost := Finite(PairingCost(meta, starts[k]));
      if cost.Less(bestCost) { bestCost := cost; }
    }
    assert starts[..|starts|] == starts;
  }

  /** The second inner loop of `selectCandidateSessions`. */
  method FindInsertAt(collate: Collation, candidate: Candidate, selected: seq<Candidate>) returns (insertAt: nat)
    ensures insertAt == Position(collate, candidate, selected)
  {
    insertAt := |selected|;
    for i := 0 to |selected|
      invariant insertAt == |selected|
      invariant forall k :: 0 <= k < i ==> !Before(collate, candidate, selected[k])
    {
      if Before(collate, candidate, selected[i]) { return i; }
    }
  }

  /** `selectCandidateSessions` */
  lemma NothingSorted(collate: Collation, starts: seq<int>, now: int)
    ensures Sort(collate, [], starts, now) == []
  {
  }

  lemma SortOneMore(collate: Collation, sessions: seq<Session>, n: nat, starts: seq<int>, now: int)
    requires n < |sessions|
    ensures var sorted, c := Sort(collate, sessions[..n], starts, now), MakeCandidate(sessions[n], starts, now);
            Sort(collate, sessions[..n + 1], starts, now) == InsertAt(sorted, Position(collate, c, sorted), c)
  {
    assert sessions[..n + 1][..n] == sessions[..n];
  }

  method SelectCandidateSessions(collate: Collation, sessions: seq<Session>, starts: seq<int>, now: int, limit: nat)
    returns (metas: seq<PairingMeta>)
    ensures metas == MetasOf(Take(Sort(collate, sessions, starts, now), limit))
  {
    hide Before, BuildPairingMeta, Position, BestCost, Sort;
    NothingSorted(collate, starts, now);
    assert sessions[..0] == [];
    var selected: seq<Candidate> := [];
    for n := 0 to |sessions|
      invariant selected == Take(Sort(collate, sessions[..n], starts, now), limit)
    {
      var meta := BuildPairingMeta(sessions[n], now);
      var bestCost := LowestCost(meta, starts);
      var candidate := Candidate(meta, bestCost);
      SortOneMore(collate, sessions, n, starts, now);
      BoundedInsertion(collate, Sort(collate, sessions[..n], starts, now), limit, candidate);
      var insertAt := FindInsertAt(collate, candidate, selected);
      if insertAt >= limit { continue; }
      selected := selected[..insertAt] + [candidate] + selected[insertAt..];
      if |selected| > limit { selected := selected[..|selected| - 1]; }
    }
    assert sessions[..|sessions|] == sessions;
    metas := seq(|selected|, i requires 0 <= i < |selected| => selected[i].meta);
  }

  /** What the cut means: every kept session strictly precedes every session that was cut. */
  lemma SelectionKeepsTheNearest(collate: Collation, sessions: seq<Session>, starts: seq<int>, now: int, limit: nat,
                                 kept: Candidate, cut: Candidate)
    requires TotalOrder(collate) && DistinctIds(sessions)
    requires kept in Take(Sort(collate, sessions, starts, now), limit)
    requires cut in Sort(collate, sessions, starts, now) && cut !in Take(Sort(collate, sessions, starts, now), limit)
    ensures Before(collate, kept, cut)
  {
    var sorted := Sort(collate, sessions, starts, now);
    SortIsSorted(collate, sessions, starts, now);
    SortKeepsSessions(collate, sessions, starts, now);
    var i :| 0 <= i < |Take(sorted, limit)| && Take(sorted, limit)[i] == kept;
    var j :| 0 <= j < |sorted| && sorted[j] == cut;
    assert sorted[i] == kept;
    TakeIsPrefix(sorted, limit);
    assert limit <= j;
    BeforeIsTotal(collate, kept, cut);
  }
}
