/** `matchProcessesToSessions`: identity, then PID continuity, then optimal assignment. */
module ProcessMatcher {
  import opened Outcomes
  import opened Basics
  import opened CandidateSelection
  import opened CandidateCut
  import opened MatchBasis
  import opened NamedIdentity
  import opened IdentityMatch
  import opened DirectoryMatch

  // ----- What each session is matched with -----

  /** What the assignment of the directory `key` yields: its open sessions against its free processes. */
  function InDirectory(collate: Collation, sessions: seq<Session>, processes: seq<Process>, now: int, key: string): Matches
    requires DistinctPids(processes)
  {
    var open, free := OpenIn(sessions, processes, |sessions|, key), FreeIn(sessions, processes, |processes|, key);
    if |free| == 0 || |open| == 0 then map[] else DirectoryMatches(collate, open, free, now)
  }

  /** Session i has the last process that names it; unnamed, the live process of its recorded PID if it is the first to want
    * it; nothing if that PID was reused; and otherwise what the assignment of its directory gives it. */
  function MatchOf(collate: Collation, sessions: seq<Session>, processes: seq<Process>, now: int, i: nat): Option<Process>
    requires DistinctPids(processes) && i < |sessions|
  {
    if Competes(sessions, processes, i)
    then At(InDirectory(collate, sessions, processes, now, KeyOf(sessions[i])), sessions[i].sessionId)
    else ByIdentity(sessions, processes, |sessions|, i)
  }

  predicate MatchesAre(collate: Collation, sessions: seq<Session>, processes: seq<Process>, now: int, m: Matches)
    requires DistinctPids(processes)
  {
    && m.Keys <= IdsOf(sessions)
    && forall i :: 0 <= i < |sessions| ==> At(m, sessions[i].sessionId) == MatchOf(collate, sessions, processes, now, i)
  }

  /** What a directory adds: only its own open sessions and its own free processes, both at most once. */
  lemma DirectoryIsItsOwn(collate: Collation, sessions: seq<Session>, processes: seq<Process>, now: int, key: string)
    requires DistinctIds(sessions) && DistinctPids(processes)
    ensures var added := InDirectory(collate, sessions, processes, now, key);
            && OneToOne(added)
            && forall id :: id in added ==>
                 && added[id] in processes && IsFree(sessions, processes, added[id])
                 && GroupKey(added[id].client, added[id].cwd) == key
                 && exists i :: OpenUnder(sessions, processes, key, id, i) && StartedWithinThreeDays(sessions[i], added[id])
  {
    hide Competes, GroupKey, DirectoryMatches, IsFree, StartedWithinThreeDays;
    var open, free := OpenIn(sessions, processes, |sessions|, key), FreeIn(sessions, processes, |processes|, key);
    var added := InDirectory(collate, sessions, processes, now, key);
    OpenAreDistinct(sessions, processes, |sessions|, key);
    FreeAreDistinct(sessions, processes, |processes|, key);
    DirectoryMatchesJustified(collate, open, free, now);
    forall id | id in added
      ensures added[id] in free
        && exists i :: OpenUnder(sessions, processes, key, id, i) && StartedWithinThreeDays(sessions[i], added[id])
    {
      var s :| s in open && s.sessionId == id && StartedWithinThreeDays(s, added[id]);
      var i :| 0 <= i < |sessions| && s == sessions[i] && Competes(sessions, processes, i) && KeyOf(s) == key;
      assert OpenUnder(sessions, processes, key, id, i);
    }
  }

  predicate OpenUnder(sessions: seq<Session>, processes: seq<Process>, key: string, id: string, i: int)
    requires DistinctPids(processes)
  {
    0 <= i < |sessions| && sessions[i].sessionId == id && Competes(sessions, processes, i) && KeyOf(sessions[i]) == key
  }

  // ----- The directory loop -----

  function Unmatched(sessions: seq<Session>, m: Matches): (r: seq<Session>)
    ensures forall s :: s in r <==> s in sessions && s.sessionId !in m
    ensures (forall s :: s in sessions ==> s.sessionId !in m) ==> r == sessions
  {
    if |sessions| == 0 then []
    else
      var n := |sessions| - 1;
      assert sessions == sessions[..n] + [sessions[n]];
      var rest := Unmatched(sessions[..n], m);
      if sessions[n].sessionId in m then rest else rest + [sessions[n]]
  }

  function Unreserved(ps: seq<Process>, reserved: set<int>): (r: seq<Process>)
    ensures forall p :: p in r <==> p in ps && p.pid !in reserved
    ensures (forall p :: p in ps ==> p.pid !in reserved) ==> r == ps
  {
    if |ps| == 0 then []
    else
      var n := |ps| - 1;
      assert ps == ps[..n] + [ps[n]];
      var rest := Unreserved(ps[..n], reserved);
      if ps[n].pid in reserved then rest else rest + [ps[n]]
  }

  /** Where session i stands when the directories in `done` have been worked off. */
  function MatchSoFar(collate: Collation, sessions: seq<Session>, processes: seq<Process>, now: int, done: seq<string>, i: nat)
    : Option<Process>
    requires DistinctPids(processes) && i < |sessions|
  {
    if Competes(sessions, processes, i) && KeyOf(sessions[i]) !in done then None
    else MatchOf(collate, sessions, processes, now, i)
  }

  predicate MatchedSoFar(collate: Collation, sessions: seq<Session>, processes: seq<Process>, now: int, done: seq<string>, m: Matches)
    requires DistinctPids(processes)
  {
    && m.Keys <= IdsOf(sessions)
    && forall i :: 0 <= i < |sessions| ==> At(m, sessions[i].sessionId) == MatchSoFar(collate, sessions, processes, now, done, i)
  }

  lemma OpenStayUnmatched(collate: Collation, sessions: seq<Session>, processes: seq<Process>, now: int, done: seq<string>,
                          key: string, m: Matches)
    requires DistinctPids(processes) && MatchedSoFar(collate, sessions, processes, now, done, m) && key !in done
    ensures Unmatched(OpenIn(sessions, processes, |sessions|, key), m) == OpenIn(sessions, processes, |sessions|, key)
  {
    hide Competes, KeyOf, MatchOf;
    var open := OpenIn(sessions, processes, |sessions|, key);
    forall s | s in open ensures s.sessionId !in m {
      var i :| 0 <= i < |sessions| && s == sessions[i] && Competes(sessions, processes, i) && KeyOf(s) == key;
      assert At(m, sessions[i].sessionId) == MatchSoFar(collate, sessions, processes, now, done, i);
    }
  }

  lemma FreeStayUnreserved(sessions: seq<Session>, processes: seq<Process>, reserved: set<int>, key: string)
    requires forall p :: p in processes ==> (p.pid in reserved <==> IsReserved(p))
    ensures Unreserved(FreeIn(sessions, processes, |processes|, key), reserved) == FreeIn(sessions, processes, |processes|, key)
  {
    hide IsReserved, Wanted;
  }

  /** Sessions of other directories are left alone, and those of this one get what its assignment gives them. */
  lemma DirectoryStep(collate: Collation, sessions: seq<Session>, processes: seq<Process>, now: int, done: seq<string>,
                      key: string, m: Matches)
    requires DistinctIds(sessions) && DistinctPids(processes) && key !in done
    requires MatchedSoFar(collate, sessions, processes, now, done, m)
    ensures MatchedSoFar(collate, sessions, processes, now, done + [key],
                         m + InDirectory(collate, sessions, processes, now, key))
  {
    hide Competes, KeyOf, InDirectory, IsFree, StartedWithinThreeDays, OneToOne;
    var added := InDirectory(collate, sessions, processes, now, key);
    DirectoryIsItsOwn(collate, sessions, processes, now, key);
    forall id | id in added ensures id in IdsOf(sessions) {
      var j :| OpenUnder(sessions, processes, key, id, j);
      assert sessions[j] in sessions;
    }
    forall i | 0 <= i < |sessions|
      ensures At(m + added, sessions[i].sessionId) == MatchSoFar(collate, sessions, processes, now, done + [key], i)
    {
      assert At(m, sessions[i].sessionId) == MatchSoFar(collate, sessions, processes, now, done, i);
      if sessions[i].sessionId in added {
        var j :| OpenUnder(sessions, processes, key, sessions[i].sessionId, j);
        assert i == j;
      }
    }
  }

  /** One turn of the directory loop. */
  method AssignKey(collate: Collation, ghost sessions: seq<Session>, ghost processes: seq<Process>, ghost done: seq<string>,
                   sg: Groups<Session>, pg: Groups<Process>, reserved: set<int>, now: int, key: string, m: Matches)
    returns (m': Matches)
    requires DistinctIds(sessions) && DistinctPids(processes) && key !in done
    requires forall p :: p in processes ==> (p.pid in reserved <==> IsReserved(p))
    requires sg.At(key) == OpenIn(sessions, processes, |sessions|, key)
    requires pg.At(key) == FreeIn(sessions, processes, |processes|, key)
    requires MatchedSoFar(collate, sessions, processes, now, done, m)
    ensures MatchedSoFar(collate, sessions, processes, now, done + [key], m')
  {
    hide MatchedSoFar, IsReserved, DirectoryMatches, OpenIn, FreeIn, Unmatched, Unreserved;
    OpenStayUnmatched(collate, sessions, processes, now, done, key, m);
    FreeStayUnreserved(sessions, processes, reserved, key);
    DirectoryStep(collate, sessions, processes, now, done, key, m);
    var ps := Unreserved(pg.At(key), reserved);
    var open := Unmatched(sg.At(key), m);
    if |ps| == 0 || |open| == 0 {
      m' := m;
      assert m' == m + map[];
    } else {
      m' := AssignDirectory(collate, open, ps, now, m);
    }
  }

  method AssignDirectories(collate: Collation, ghost sessions: seq<Session>, ghost processes: seq<Process>, sg: Groups<Session>,
                           pg: Groups<Process>, reserved: set<int>, now: int, byIdentity: Matches)
    returns (m: Matches)
    requires DistinctIds(sessions) && DistinctPids(processes)
    requires forall p :: p in processes ==> (p.pid in reserved <==> IsReserved(p))
    requires sg.Valid() && forall k :: sg.At(k) == OpenIn(sessions, processes, |sessions|, k)
    requires pg.Valid() && forall k :: pg.At(k) == FreeIn(sessions, processes, |processes|, k)
    requires BoundByIdentity(sessions, processes, |sessions|, byIdentity)
    ensures MatchesAre(collate, sessions, processes, now, m)
  {
    hide MatchedSoFar, MatchesAre, BoundByIdentity, IsReserved, OpenIn, FreeIn;
    m := byIdentity;
    StartOfDirectories(collate, sessions, processes, now, m);
    for n := 0 to |sg.order|
      invariant MatchedSoFar(collate, sessions, processes, now, sg.order[..n], m)
    {
      m := AssignKey(collate, sessions, processes, sg.order[..n], sg, pg, reserved, now, sg.order[n], m);
      assert sg.order[..n + 1] == sg.order[..n] + [sg.order[n]];
    }
    assert sg.order[..|sg.order|] == sg.order;
    EndOfDirectories(collate, sessions, processes, now, sg, m);
  }

  lemma StartOfDirectories(collate: Collation, sessions: seq<Session>, processes: seq<Process>, now: int, m: Matches)
    requires DistinctPids(processes) && BoundByIdentity(sessions, processes, |sessions|, m)
    ensures MatchedSoFar(collate, sessions, processes, now, [], m)
  {
    hide ExplicitlyNamed, KeyOf, InDirectory, PidReused;
  }

  lemma EndOfDirectories(collate: Collation, sessions: seq<Session>, processes: seq<Process>, now: int, sg: Groups<Session>, m: Matches)
    requires DistinctPids(processes) && sg.Valid() && forall k :: sg.At(k) == OpenIn(sessions, processes, |sessions|, k)
    requires MatchedSoFar(collate, sessions, processes, now, sg.order, m)
    ensures MatchesAre(collate, sessions, processes, now, m)
  {
    hide Competes, KeyOf, MatchOf;
    forall i | 0 <= i < |sessions| && Competes(sessions, processes, i) ensures KeyOf(sessions[i]) in sg.order {
      assert sessions[i] in sg.At(KeyOf(sessions[i]));
    }
  }

  // ----- When a process serves two sessions -----

  /** A session is bound to the process by a name that does not reserve it, which an id starting with a dash does not. */
  predicate HoldsDashed(sessions: seq<Session>, processes: seq<Process>, p: Process) {
    !IsReserved(p) && exists s :: s in sessions && LastNamer(processes, s) == Some(p)
  }

  /** The assignment of the process's directory uses it. */
  predicate Picked(collate: Collation, sessions: seq<Session>, processes: seq<Process>, now: int, p: Process)
    requires DistinctPids(processes)
  {
    p in InDirectory(collate, sessions, processes, now, GroupKey(p.client, p.cwd)).Values
  }

  /** The processes that serve two sessions. */
  predicate ServesTwice(collate: Collation, sessions: seq<Session>, processes: seq<Process>, now: int, p: Process)
    requires DistinctPids(processes)
  {
    && HoldsDashed(sessions, processes, p)
    && (Wanted(sessions, processes, p) || Picked(collate, sessions, processes, now, p))
  }

  /** Why session i has process p. */
  lemma MatchIsJustified(collate: Collation, sessions: seq<Session>, processes: seq<Process>, now: int, i: nat, p: Process)
    requires DistinctIds(sessions) && DistinctPids(processes) && i < |sessions|
    requires MatchOf(collate, sessions, processes, now, i) == Some(p)
    ensures p in processes
    ensures exists basis :: Justified(sessions[i], p, basis)
  {
    hide InDirectory, IsReserved;
    var s := sessions[i];
    if ExplicitlyNamed(processes, s) {
      assert Justified(s, p, Explicit);
    } else if Keeps(sessions, processes, i).Some? {
      assert Justified(s, p, Continuity);
    } else {
      var key := KeyOf(s);
      DirectoryIsItsOwn(collate, sessions, processes, now, key);
      var j :| OpenUnder(sessions, processes, key, s.sessionId, j) && StartedWithinThreeDays(sessions[j], p);
      assert i == j;
      GroupKeyInjective(ClientOf(s), s.directory, p.client, p.cwd);
      assert Justified(s, p, Assigned);
    }
  }

  /** The three ways of being matched, which exclude each other for one session. */
  lemma HowMatched(collate: Collation, sessions: seq<Session>, processes: seq<Process>, now: int, i: nat, p: Process)
    requires DistinctIds(sessions) && DistinctPids(processes) && i < |sessions|
    requires MatchOf(collate, sessions, processes, now, i) == Some(p)
    ensures p in processes
    ensures || LastNamer(processes, sessions[i]) == Some(p)
            || FirstToWant(sessions, processes, i, p)
            || (&& IsFree(sessions, processes, p) && KeyOf(sessions[i]) == GroupKey(p.client, p.cwd)
                && At(InDirectory(collate, sessions, processes, now, KeyOf(sessions[i])), sessions[i].sessionId) == Some(p))
  {
    hide InDirectory, IsReserved, GroupKey, IsFree, FirstToWant;
    if Competes(sessions, processes, i) {
      DirectoryIsItsOwn(collate, sessions, processes, now, KeyOf(sessions[i]));
    }
  }

  lemma SharedServesTwice(collate: Collation, sessions: seq<Session>, processes: seq<Process>, now: int, i: nat, j: nat, p: Process)
    requires DistinctIds(sessions) && DistinctPids(processes) && i < |sessions| && j < |sessions| && i != j
    requires MatchOf(collate, sessions, processes, now, i) == Some(p) == MatchOf(collate, sessions, processes, now, j)
    ensures p in processes && ServesTwice(collate, sessions, processes, now, p)
  {
    hide InDirectory, IsReserved, GroupKey, ContinuityHolds, NamedId, MatchOf;
    HowMatched(collate, sessions, processes, now, i, p);
    HowMatched(collate, sessions, processes, now, j, p);
    DirectoryIsItsOwn(collate, sessions, processes, now, GroupKey(p.client, p.cwd));
    assert sessions[i] in sessions && sessions[j] in sessions;
  }

  lemma {:induction false} SomeoneIsFirst(sessions: seq<Session>, processes: seq<Process>, n: nat, p: Process)
    returns (i: nat)
    requires n <= |sessions| && WantedAmong(sessions, processes, n, p)
    ensures i < n && FirstToWant(sessions, processes, i, p)
    decreases n
  {
    i :| 0 <= i < n && Wants(processes, sessions[i], p);
    if WantedAmong(sessions, processes, i, p) { i := SomeoneIsFirst(sessions, processes, i, p); }
  }

  lemma KeptAsWanted(collate: Collation, sessions: seq<Session>, processes: seq<Process>, now: int, p: Process) returns (j: nat)
    requires DistinctPids(processes) && p in processes && Wanted(sessions, processes, p)
    ensures j < |sessions| && !ExplicitlyNamed(processes, sessions[j])
    ensures MatchOf(collate, sessions, processes, now, j) == Some(p)
  {
    j := SomeoneIsFirst(sessions, processes, |sessions|, p);
    hide InDirectory, ContinuityHolds, ExplicitlyNamed, PidReused, WantedAmong;
    assert Keeps(sessions, processes, j) == Some(p);
  }

  lemma PickedIsMatched(collate: Collation, sessions: seq<Session>, processes: seq<Process>, now: int, p: Process) returns (j: nat)
    requires DistinctIds(sessions) && DistinctPids(processes) && Picked(collate, sessions, processes, now, p)
    ensures j < |sessions| && !ExplicitlyNamed(processes, sessions[j])
    ensures MatchOf(collate, sessions, processes, now, j) == Some(p)
  {
    hide InDirectory, ExplicitlyNamed, Keeps, PidReused, KeyOf, GroupKey, IsFree;
    var key := GroupKey(p.client, p.cwd);
    var added := InDirectory(collate, sessions, processes, now, key);
    DirectoryIsItsOwn(collate, sessions, processes, now, key);
    var id :| id in added && added[id] == p;
    j :| OpenUnder(sessions, processes, key, id, j);
  }

  lemma ServingTwiceShares(collate: Collation, sessions: seq<Session>, processes: seq<Process>, now: int, p: Process)
    returns (i: nat, j: nat)
    requires DistinctIds(sessions) && DistinctPids(processes) && p in processes
    requires ServesTwice(collate, sessions, processes, now, p)
    ensures i < |sessions| && j < |sessions| && i != j
    ensures MatchOf(collate, sessions, processes, now, i) == Some(p) == MatchOf(collate, sessions, processes, now, j)
  {
    hide InDirectory, ExplicitlyNamed, Picked, WantedAmong;
    var s :| s in sessions && LastNamer(processes, s) == Some(p);
    i :| 0 <= i < |sessions| && sessions[i] == s;
    if Wanted(sessions, processes, p) {
      j := KeptAsWanted(collate, sessions, processes, now, p);
    } else {
      j := PickedIsMatched(collate, sessions, processes, now, p);
    }
  }

  /** A process serves two sessions exactly when it holds one by an id that starts with a dash and is also kept by PID
    * continuity for an unnamed session or used by the assignment of its directory. */
  lemma OneToOneIff(collate: Collation, sessions: seq<Session>, processes: seq<Process>, now: int, m: Matches)
    requires DistinctIds(sessions) && DistinctPids(processes) && MatchesAre(collate, sessions, processes, now, m)
    ensures OneToOne(m) <==> forall p :: p in processes ==> !ServesTwice(collate, sessions, processes, now, p)
  {
    hide ServesTwice, MatchOf;
    forall p | p in processes && ServesTwice(collate, sessions, processes, now, p) ensures !OneToOne(m) {
      var i, j := ServingTwiceShares(collate, sessions, processes, now, p);
      assert At(m, sessions[i].sessionId) == Some(p) == At(m, sessions[j].sessionId);
      assert sessions[i].sessionId != sessions[j].sessionId;
    }
    if !OneToOne(m) {
      var x, y :| x in m && y in m && x != y && m[x].pid == m[y].pid;
      var i, j := IndexOf(sessions, x), IndexOf(sessions, y);
      assert At(m, x) == MatchOf(collate, sessions, processes, now, i) && At(m, y) == MatchOf(collate, sessions, processes, now, j);
      HowMatched(collate, sessions, processes, now, i, m[x]);
      HowMatched(collate, sessions, processes, now, j, m[y]);
      SamePidSameProcess(processes, m[x], m[y]);
      SharedServesTwice(collate, sessions, processes, now, i, j, m[x]);
    }
  }

  ghost function IndexOf(sessions: seq<Session>, id: string): (i: nat)
    requires id in IdsOf(sessions)
    ensures i < |sessions| && sessions[i].sessionId == id
  {
    var s :| s in sessions && s.sessionId == id;
    var i :| 0 <= i < |sessions| && sessions[i] == s;
    i
  }

  // ----- Command lines are honoured -----

  /** Process i of the list names the session of its own client, and no later one does. */
  ghost predicate LastToName(processes: seq<Process>, s: Session, i: nat)
    requires i < |processes|
  {
    && Names(processes[i].args, s.sessionId) && processes[i].client == ClientOf(s)
    && forall j :: i < j < |processes| ==> !(Names(processes[j].args, s.sessionId) && processes[j].client == ClientOf(s))
  }

  /** A session is bound to the last process of its client that names it, and a process that names an undashed id serves no
    * session but the one of that id. */
  ghost predicate CommandLineHonoured(processes: seq<Process>, s: Session, m: Matches) {
    && (forall i :: 0 <= i < |processes| && LastToName(processes, s, i) ==> At(m, s.sessionId) == Some(processes[i]))
    && (At(m, s.sessionId).Some? ==>
          forall id :: Names(At(m, s.sessionId).value.args, id) && id != "" && id[0] != '-' ==> id == s.sessionId)
  }

  lemma CommandLinesBind(collate: Collation, sessions: seq<Session>, processes: seq<Process>, now: int, m: Matches, k: nat)
    requires DistinctIds(sessions) && DistinctPids(processes) && MatchesAre(collate, sessions, processes, now, m) && k < |sessions|
    ensures CommandLineHonoured(processes, sessions[k], m)
  {
    hide NamedId, Names, Competes, Keeps, InDirectory;
    var s := sessions[k];
    forall i | 0 <= i < |processes| && LastToName(processes, s, i) ensures At(m, s.sessionId) == Some(processes[i]) {
      forall j | 0 <= j < |processes| ensures IsNamedBy(s, processes[j]) <==> Names(processes[j].args, s.sessionId) && processes[j].client == ClientOf(s) {
        NamedIff(processes[j], s.sessionId);
      }
      LaterNamesWin(processes, s, i);
      NamedIsMatched(collate, sessions, processes, now, k);
    }
    if At(m, s.sessionId).Some? {
      var p := At(m, s.sessionId).value;
      assert MatchOf(collate, sessions, processes, now, k) == Some(p);
      forall id | Names(p.args, id) && id != "" && id[0] != '-' ensures id == s.sessionId {
        NamedIff(p, id);
        ReservedIff(p);
        ReservedServesItsOwn(collate, sessions, processes, now, k, p);
      }
    }
  }

  lemma NamedIsMatched(collate: Collation, sessions: seq<Session>, processes: seq<Process>, now: int, k: nat)
    requires DistinctPids(processes) && k < |sessions| && LastNamer(processes, sessions[k]).Some?
    ensures MatchOf(collate, sessions, processes, now, k) == LastNamer(processes, sessions[k])
  {
    hide InDirectory, Keeps, LastNamer;
  }

  lemma ReservedServesItsOwn(collate: Collation, sessions: seq<Session>, processes: seq<Process>, now: int, k: nat, p: Process)
    requires DistinctIds(sessions) && DistinctPids(processes) && k < |sessions|
    requires MatchOf(collate, sessions, processes, now, k) == Some(p) && IsReserved(p)
    ensures NamedId(p) == Some(sessions[k].sessionId)
  {
    hide NamedId, IsReserved, InDirectory, GroupKey, LastNamer;
    HowMatched(collate, sessions, processes, now, k, p);
  }

  /** What becomes of a session nobody names whose recorded PID is live, of its client and in its directory or in none: dropped
    * when the process began more than a minute after the session's last activity; otherwise kept, unless the process names
    * another session by an undashed id or an earlier session has the same PID. */
  lemma RecordedPidOutcome(collate: Collation, sessions: seq<Session>, processes: seq<Process>, now: int, m: Matches, k: nat, p: Process)
    requires DistinctIds(sessions) && DistinctPids(processes) && MatchesAre(collate, sessions, processes, now, m) && k < |sessions|
    requires p in processes && sessions[k].pid == Some(p.pid) && p.pid != 0
    requires p.client == (if sessions[k].client.Some? then sessions[k].client.value else Claude)
    requires p.cwd == "" || p.cwd == sessions[k].directory
    requires forall q :: q in processes && q.client == p.client ==> !Names(q.args, sessions[k].sessionId)
    ensures p.startTime > sessions[k].lastActiveAt + 60000 ==> At(m, sessions[k].sessionId) == None
    ensures p.startTime <= sessions[k].lastActiveAt + 60000
            && (forall id :: Names(p.args, id) && id != "" ==> id[0] == '-')
            && (forall j :: 0 <= j < k ==> sessions[j].pid != sessions[k].pid) ==>
              At(m, sessions[k].sessionId) == Some(p)
  {
    hide NamedId, IsReserved, Names, InDirectory;
    var s := sessions[k];
    forall q | q in processes ensures !IsNamedBy(s, q) {
      NamedIff(q, s.sessionId);
    }
    OnlyOwnerHolds(processes, s, p);
    MatchedAs(collate, sessions, processes, now, m, k);
    if p.startTime > s.lastActiveAt + 60000 {
      assert YoungerHolder(s, p);
    } else if (forall id :: Names(p.args, id) && id != "" ==> id[0] == '-') && forall j :: 0 <= j < k ==> sessions[j].pid != s.pid {
      ReservedNames(p);
      assert FirstToWant(sessions, processes, k, p);
    }
  }

  lemma ReservedNames(p: Process)
    requires forall id :: Names(p.args, id) && id != "" ==> id[0] == '-'
    ensures !IsReserved(p)
  {
    hide NamedId, IsReserved, Names;
    ReservedIff(p);
    forall id | Names(p.args, id) ensures id != "" { NamedIsNonempty(p.args, id); }
  }

  lemma MatchedAs(collate: Collation, sessions: seq<Session>, processes: seq<Process>, now: int, m: Matches, i: nat)
    requires DistinctPids(processes) && MatchesAre(collate, sessions, processes, now, m) && i < |sessions|
    ensures At(m, sessions[i].sessionId) == MatchOf(collate, sessions, processes, now, i)
  {
    hide MatchOf;
  }

  // ----- The whole matching -----

  /** `matchProcessesToSessions`. Session ids are unique in storage and PIDs are unique among live processes. */
  method MatchProcessesToSessions(collate: Collation, sessions: seq<Session>, processes: seq<Process>, now: int)
    returns (matches: Matches)
    requires DistinctIds(sessions) && DistinctPids(processes)
    ensures MatchesAre(collate, sessions, processes, now, matches)
    // what command lines name is bound first
    ensures forall k :: 0 <= k < |sessions| ==> CommandLineHonoured(processes, sessions[k], matches)
    // every match has a basis the source allows
    ensures forall i :: 0 <= i < |sessions| && sessions[i].sessionId in matches ==>
              exists basis :: Justified(sessions[i], matches[sessions[i].sessionId], basis)
    // no process serves two sessions, but for those that hold a session by an id starting with a dash
    ensures OneToOne(matches) <==> forall p :: p in processes ==> !ServesTwice(collate, sessions, processes, now, p)
  {
    var explicit, reserved := BindExplicit(sessions, processes);
    var byIdentity, used, sg := BindByPid(sessions, processes, explicit, reserved);
    var pg := GroupProcesses(sessions, processes, used);
    matches := AssignDirectories(collate, sessions, processes, sg, pg, reserved, now, byIdentity);
    hide MatchOf, Justified, ServesTwice, MatchesAre, CommandLineHonoured;
    forall k | 0 <= k < |sessions| ensures CommandLineHonoured(processes, sessions[k], matches) {
      CommandLinesBind(collate, sessions, processes, now, matches, k);
    }
    OneToOneIff(collate, sessions, processes, now, matches);
    forall i | 0 <= i < |sessions| && sessions[i].sessionId in matches
      ensures exists basis :: Justified(sessions[i], matches[sessions[i].sessionId], basis)
    {
      MatchedAs(collate, sessions, processes, now, matches, i);
      MatchIsJustified(collate, sessions, processes, now, i, matches[sessions[i].sessionId]);
    }
  }

  // ----- The two ways of serving twice -----

  /** When one process alone names a session by a dashed id and is also the recorded, compatible PID of another session that
    * nobody names, it serves two. */
  lemma DashedNameServesTwice(collate: Collation, sessions: seq<Session>, processes: seq<Process>, now: int,
                              named: Session, other: Session, p: Process)
    requires DistinctPids(processes) && p in processes && named in sessions && other in sessions
    requires IsNamedBy(named, p) && (forall q :: q in processes && IsNamedBy(named, q) ==> q == p)
    requires Wants(processes, other, p)
    ensures ServesTwice(collate, sessions, processes, now, p)
  {
    assert LastNamer(processes, named) == Some(p);
    var j :| 0 <= j < |sessions| && sessions[j] == other;
  }

  /** No other free process shares the directory of p. */
  predicate AloneFree(sessions: seq<Session>, processes: seq<Process>, p: Process) {
    forall q :: q in processes && IsFree(sessions, processes, q) && q.client == p.client && q.cwd == p.cwd ==> q == p
  }

  /** When a process holds a session by a dashed id and is alone in its directory, it serves two exactly when an unnamed
    * session wants it, or it has a directory and an open session there started close enough. */
  lemma LoneDashedServesTwiceIff(collate: Collation, sessions: seq<Session>, processes: seq<Process>, now: int, p: Process)
    requires TotalOrder(collate) && DistinctIds(sessions) && DistinctPids(processes) && p in processes
    requires HoldsDashed(sessions, processes, p)
    requires AloneFree(sessions, processes, p)
    ensures ServesTwice(collate, sessions, processes, now, p)
            <==> Wanted(sessions, processes, p)
                 || (p.cwd != "" && exists i :: 0 <= i < |sessions| && Within(sessions, processes, now, p, i))
  {
    hide KeyOf, GroupKey, Wanted, Competes, Reachable, InDirectory;
    if !Wanted(sessions, processes, p) {
      FreeAlone(collate, sessions, processes, now, p);
    }
  }

  /** Session i competes in the directory of p and started close enough for p. */
  predicate Within(sessions: seq<Session>, processes: seq<Process>, now: int, p: Process, i: nat)
    requires DistinctPids(processes) && i < |sessions|
  {
    && Competes(sessions, processes, i) && KeyOf(sessions[i]) == GroupKey(p.client, p.cwd)
    && Reachable(sessions[i], [p.startTime], now)
  }

  lemma FreeAlone(collate: Collation, sessions: seq<Session>, processes: seq<Process>, now: int, p: Process)
    requires TotalOrder(collate) && DistinctIds(sessions) && DistinctPids(processes) && p in processes
    requires !IsReserved(p) && !Wanted(sessions, processes, p)
    requires AloneFree(sessions, processes, p)
    ensures Picked(collate, sessions, processes, now, p)
            <==> p.cwd != "" && exists i :: 0 <= i < |sessions| && Within(sessions, processes, now, p, i)
  {
    hide KeyOf, GroupKey, Wanted, Competes, Reachable, DirectoryMatches;
    var key := GroupKey(p.client, p.cwd);
    var open, free := OpenIn(sessions, processes, |sessions|, key), FreeIn(sessions, processes, |processes|, key);
    assert processes[..|processes|] == processes;
    forall q | q in free ensures q == p && p.cwd != "" {
      GroupKeyInjective(q.client, q.cwd, p.client, p.cwd);
    }
    OpenAreDistinct(sessions, processes, |sessions|, key);
    FreeAreDistinct(sessions, processes, |processes|, key);
    if p.cwd != "" {
      OnlyMember(free, p);
      LoneProcess(collate, open, p, now);
      OpenReachable(sessions, processes, now, p);
    } else {
      DirectoryIsItsOwn(collate, sessions, processes, now, key);
    }
  }

  lemma PickedIsWithin(collate: Collation, sessions: seq<Session>, processes: seq<Process>, now: int, p: Process)
    requires DistinctIds(sessions) && DistinctPids(processes) && Picked(collate, sessions, processes, now, p)
    ensures exists i :: 0 <= i < |sessions| && Within(sessions, processes, now, p, i)
  {
    hide KeyOf, GroupKey, Competes, Reachable, DirectoryMatches, Within;
    var key := GroupKey(p.client, p.cwd);
    OpenAreDistinct(sessions, processes, |sessions|, key);
    FreeAreDistinct(sessions, processes, |processes|, key);
    UsedIsInReach(collate, OpenIn(sessions, processes, |sessions|, key), FreeIn(sessions, processes, |processes|, key), now, p);
    OpenReachable(sessions, processes, now, p);
  }

  /** For any number of processes, in data known before the assignment: the map is one-to-one while no process that holds a
    * session by a dashed id is wanted by an unnamed session or has an open session of its directory within reach. */
  lemma OutOfReachOneToOne(collate: Collation, sessions: seq<Session>, processes: seq<Process>, now: int, m: Matches)
    requires DistinctIds(sessions) && DistinctPids(processes) && MatchesAre(collate, sessions, processes, now, m)
    requires forall p :: p in processes && HoldsDashed(sessions, processes, p) ==>
               && !Wanted(sessions, processes, p)
               && forall i :: 0 <= i < |sessions| ==> !Within(sessions, processes, now, p, i)
    ensures OneToOne(m)
  {
    hide Wanted, Picked, MatchOf, HoldsDashed, Within;
    OneToOneIff(collate, sessions, processes, now, m);
    forall p | p in processes && HoldsDashed(sessions, processes, p) ensures !Picked(collate, sessions, processes, now, p) {
      if Picked(collate, sessions, processes, now, p) { PickedIsWithin(collate, sessions, processes, now, p); }
    }
  }

  lemma OpenReachable(sessions: seq<Session>, processes: seq<Process>, now: int, p: Process)
    requires DistinctPids(processes)
    ensures (exists s :: s in OpenIn(sessions, processes, |sessions|, GroupKey(p.client, p.cwd)) && Reachable(s, [p.startTime], now))
            <==> exists i :: 0 <= i < |sessions| && Within(sessions, processes, now, p, i)
  {
    hide KeyOf, GroupKey, Competes, Reachable;
    var open := OpenIn(sessions, processes, |sessions|, GroupKey(p.client, p.cwd));
    forall s | s in open && Reachable(s, [p.startTime], now)
      ensures exists i :: 0 <= i < |sessions| && Within(sessions, processes, now, p, i)
    {
      var i :| 0 <= i < |sessions| && s == sessions[i] && Competes(sessions, processes, i) && KeyOf(s) == GroupKey(p.client, p.cwd);
      assert Within(sessions, processes, now, p, i);
    }
    forall i | 0 <= i < |sessions| && Within(sessions, processes, now, p, i)
      ensures exists s :: s in open && Reachable(s, [p.startTime], now)
    {
      assert sessions[i] in open;
    }
  }

  lemma SomeOther(free: seq<Process>, p: Process)
    requires DistinctPids(free) && |free| > 1
    ensures exists q :: q in free && q != p
  {
    assert free[0] in free && free[1] in free;
  }

  lemma OnlyMember(free: seq<Process>, p: Process)
    requires DistinctPids(free) && p in free && forall q :: q in free ==> q == p
    ensures free == [p]
  {
    if |free| > 1 { SomeOther(free, p); }
  }

  /** The process names an existing session of its own client without being reserved by that. */
  predicate NamesDashedSession(sessions: seq<Session>, p: Process) {
    !IsReserved(p) && exists s :: s in sessions && IsNamedBy(s, p)
  }

  /** While no process names an existing session by a dashed id, every process serves at most one session. */
  lemma WithoutDashesOneToOne(collate: Collation, sessions: seq<Session>, processes: seq<Process>, now: int, m: Matches)
    requires DistinctIds(sessions) && DistinctPids(processes) && MatchesAre(collate, sessions, processes, now, m)
    requires forall p :: p in processes ==> !NamesDashedSession(sessions, p)
    ensures OneToOne(m)
  {
    hide Wanted, Picked, MatchOf;
    OneToOneIff(collate, sessions, processes, now, m);
  }

  const RESUMED := Session("-resumed1", None, "/repo", None, 0, None)
  const RECORDED := Session("session01", None, "/other", None, 0, Some(7))
  const BESIDE := Session("session02", None, "/repo", None, 0, None)
  const RESUMING := Process(Claude, 7, "/repo", 0, ["claude", "--resume", "-resumed1"])
  const RESUMING_ANYWHERE := RESUMING.(cwd := "")

  lemma NoFlagIn(arg: string)
    requires |arg| > 0 && arg[0] != '-'
    ensures !HasIdFlag(arg)
  {
    forall flag | flag in ID_FLAGS ensures flag[0] == '-' && arg != flag && !(flag + "=" <= arg) {
      NotAPrefix(flag + "=", arg, 0);
    }
  }

  lemma ResumingNamesDashed(p: Process)
    requires p.args == RESUMING.args
    ensures NamedId(p) == Some("-resumed1") && !IsReserved(p)
  {
    hide NamedId, IsReserved, HasIdFlag;
    NoFlagIn("claude");
    assert p.args == ["claude"] + ["--resume", "-resumed1"] + [];
    FlagForms(p, ["claude"], "--resume", "-resumed1", []);
    ReservedIff(p);
    NamedIff(p, "-resumed1");
    forall id | Names(p.args, id) ensures id == "-resumed1" { NamedIff(p, id); }
  }

  /** A concrete run by way of a recorded PID: session ids may start with a dash. */
  method DashedSessionExample(collate: Collation, now: int) returns (matches: Matches)
    ensures !OneToOne(matches)
  {
    var sessions, processes := [RESUMED, RECORDED], [RESUMING_ANYWHERE];
    matches := MatchProcessesToSessions(collate, sessions, processes, now);
    ResumingNamesDashed(RESUMING_ANYWHERE);
    hide NamedId, IsReserved;
    assert sessions[0] == RESUMED && sessions[1] == RECORDED && processes[0] == RESUMING_ANYWHERE;
    DashedNameServesTwice(collate, sessions, processes, now, RESUMED, RECORDED, RESUMING_ANYWHERE);
  }

  lemma BesideIsWithin(now: int)
    ensures var sessions, processes := [RESUMED, BESIDE], [RESUMING];
            HoldsDashed(sessions, processes, RESUMING) && Within(sessions, processes, now, RESUMING, 1)
  {
    var sessions, processes := [RESUMED, BESIDE], [RESUMING];
    ResumingNamesDashed(RESUMING);
    hide NamedId, IsReserved;
    assert processes[0] == RESUMING && sessions[0] == RESUMED;
    assert LastNamer(processes, RESUMED) == Some(RESUMING);
    assert PairingCost(BuildPairingMeta(BESIDE, now), [RESUMING.startTime][0]) < 30 * 24 * 60 * 60 * 1000;
  }

  /** A concrete run by way of the shared directory, where no PID is recorded at all. */
  method DashedDirectoryExample(collate: Collation, now: int) returns (matches: Matches)
    requires TotalOrder(collate)
    ensures !OneToOne(matches)
  {
    var sessions, processes := [RESUMED, BESIDE], [RESUMING];
    matches := MatchProcessesToSessions(collate, sessions, processes, now);
    BesideIsWithin(now);
    hide Within, HoldsDashed, NamedId, IsReserved;
    LoneDashedServesTwiceIff(collate, sessions, processes, now, RESUMING);
    assert RESUMING in processes;
  }
}
