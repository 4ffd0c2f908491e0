/** The first two stages of `matchProcessesToSessions`: explicit identity, then PID continuity. */
module IdentityMatch {
  import opened Outcomes
  import opened CandidateSelection
  import opened MatchBasis

  // ----- Stage 1: explicit identity -----

  function FindSession(sessions: seq<Session>, id: string, client: Client): (r: Option<Session>)
    ensures r.Some? ==> r.value in sessions && r.value.sessionId == id && ClientOf(r.value) == client
    ensures r.None? ==> forall s :: s in sessions ==> !(s.sessionId == id && ClientOf(s) == client)
  {
    if |sessions| == 0 then None
    else if sessions[0].sessionId == id && ClientOf(sessions[0]) == client then Some(sessions[0])
    else FindSession(sessions[1..], id, client)
  }

  /** The process a session is bound to when several name it: the last one in the list. */
  function LastNamer(processes: seq<Process>, s: Session): (r: Option<Process>)
    ensures r.Some? ==> r.value in processes && IsNamedBy(s, r.value)
    ensures r.Some? <==> ExplicitlyNamed(processes, s)
    decreases |processes|
  {
    if |processes| == 0 then None
    else if IsNamedBy(s, processes[|processes| - 1]) then Some(processes[|processes| - 1])
    else
      assert processes == processes[..|processes| - 1] + [processes[|processes| - 1]];
      LastNamer(processes[..|processes| - 1], s)
  }

  lemma {:induction false} LaterNamesWin(processes: seq<Process>, s: Session, i: nat)
    requires i < |processes| && IsNamedBy(s, processes[i])
    requires forall j :: i < j < |processes| ==> !IsNamedBy(s, processes[j])
    ensures LastNamer(processes, s) == Some(processes[i])
    decreases |processes|
  {
    if i + 1 < |processes| {
      LaterNamesWin(processes[..|processes| - 1], s, i);
    }
  }

  /** Sessions are bound to the last process that names them, and to nothing else. */
  predicate BoundByName(sessions: seq<Session>, processes: seq<Process>, m: Matches) {
    && m.Keys <= IdsOf(sessions)
    && forall s :: s in sessions ==> At(m, s.sessionId) == LastNamer(processes, s)
  }

  lemma NameOneMore(sessions: seq<Session>, processes: seq<Process>, i: nat, m: Matches)
    requires DistinctIds(sessions) && i < |processes| && BoundByName(sessions, processes[..i], m)
    ensures var p := processes[i];
            var found := if NamedId(p).Some? then FindSession(sessions, NamedId(p).value, p.client) else None;
            BoundByName(sessions, processes[..i + 1], if found.Some? then m[found.value.sessionId := p] else m)
  {
    hide NamedId;
    var p, more := processes[i], processes[..i + 1];
    assert more[..i] == processes[..i];
    var found := if NamedId(p).Some? then FindSession(sessions, NamedId(p).value, p.client) else None;
    var m' := if found.Some? then m[found.value.sessionId := p] else m;
    forall s | s in sessions ensures At(m', s.sessionId) == LastNamer(more, s) {
      assert LastNamer(more, s) == if IsNamedBy(s, p) then Some(p) else LastNamer(processes[..i], s);
      if found.Some? && s.sessionId == found.value.sessionId {
        assert s == found.value;
      }
    }
  }

  method BindExplicit(sessions: seq<Session>, processes: seq<Process>) returns (m: Matches, reserved: set<int>)
    requires DistinctIds(sessions) && DistinctPids(processes)
    ensures BoundByName(sessions, processes, m)
    ensures forall p :: p in processes ==> (p.pid in reserved <==> IsReserved(p))
  {
    m, reserved := map[], {};
    for i := 0 to |processes|
      invariant BoundByName(sessions, processes[..i], m)
      invariant forall j :: 0 <= j < i ==> (processes[j].pid in reserved <==> IsReserved(processes[j]))
      invariant forall j :: i <= j < |processes| ==> processes[j].pid !in reserved
    {
      var p := processes[i];
      NameOneMore(sessions, processes, i, m);
      if IsReserved(p) { reserved := reserved + {p.pid}; }
      if NamedId(p).Some? {
        var found := FindSession(sessions, NamedId(p).value, p.client);
        if found.Some? {
          m := m[found.value.sessionId := p];
        }
      }
    }
    assert processes[..|processes|] == processes;
  }

  // ----- Stage 2: PID continuity, and grouping of what is left -----

  function FindByPid(processes: seq<Process>, pid: int): (r: Option<Process>)
    ensures r.Some? ==> r.value in processes && r.value.pid == pid
    ensures r.None? ==> forall p :: p in processes ==> p.pid != pid
  {
    if |processes| == 0 then None
    else if processes[|processes| - 1].pid == pid then Some(processes[|processes| - 1])
    else FindByPid(processes[..|processes| - 1], pid)
  }

  /** The session, which nobody names, may keep its recorded PID: the process is live, compatible and not reserved. */
  predicate Wants(processes: seq<Process>, s: Session, p: Process) {
    !ExplicitlyNamed(processes, s) && !IsReserved(p) && ContinuityHolds(s, p)
  }

  predicate WantedAmong(sessions: seq<Session>, processes: seq<Process>, n: nat, p: Process)
    requires n <= |sessions|
  {
    exists j :: 0 <= j < n && Wants(processes, sessions[j], p)
  }

  predicate Wanted(sessions: seq<Session>, processes: seq<Process>, p: Process) {
    WantedAmong(sessions, processes, |sessions|, p)
  }

  predicate FirstToWant(sessions: seq<Session>, processes: seq<Process>, i: nat, p: Process)
    requires i < |sessions|
  {
    Wants(processes, sessions[i], p) && !WantedAmong(sessions, processes, i, p)
  }

  /** The process that session i keeps by its recorded PID: of the sessions that want a process, the first gets it. */
  function Keeps(sessions: seq<Session>, processes: seq<Process>, i: nat): (r: Option<Process>)
    requires DistinctPids(processes) && i < |sessions|
    ensures forall p :: p in processes ==> (r == Some(p) <==> FirstToWant(sessions, processes, i, p))
    ensures r.Some? ==> r.value in processes && FirstToWant(sessions, processes, i, r.value)
  {
    var s := sessions[i];
    var found := if s.pid.Some? then FindByPid(processes, s.pid.value) else None;
    assert forall p :: p in processes && ContinuityHolds(s, p) ==> found == Some(p);
    if found.Some? && FirstToWant(sessions, processes, i, found.value) then found else None
  }

  /** The session's PID now belongs to a compatible but younger process; such a session is dropped altogether. */
  predicate PidReused(processes: seq<Process>, s: Session) {
    exists p :: p in processes && YoungerHolder(s, p)
  }

  predicate YoungerHolder(s: Session, p: Process) {
    && s.pid == Some(p.pid) && p.pid != 0 && p.client == ClientOf(s) && (p.cwd == "" || p.cwd == s.directory)
    && p.startTime > s.lastActiveAt + PID_REUSE_START_TOLERANCE_MS
  }

  /** Session i goes on to compete in its directory. */
  predicate Competes(sessions: seq<Session>, processes: seq<Process>, i: nat)
    requires DistinctPids(processes) && i < |sessions|
  {
    && !ExplicitlyNamed(processes, sessions[i])
    && Keeps(sessions, processes, i).None?
    && !PidReused(processes, sessions[i])
  }

  function KeyOf(s: Session): string {
    GroupKey(ClientOf(s), s.directory)
  }

  /** Of the first n sessions, those that compete in the directory `key`, in order. */
  function OpenIn(sessions: seq<Session>, processes: seq<Process>, n: nat, key: string): (open: seq<Session>)
    requires DistinctPids(processes) && n <= |sessions|
    ensures forall s :: s in open ==> exists i :: 0 <= i < n && s == sessions[i] && Competes(sessions, processes, i) && KeyOf(s) == key
    ensures forall i :: 0 <= i < n && Competes(sessions, processes, i) && KeyOf(sessions[i]) == key ==> sessions[i] in open
  {
    if n == 0 then []
    else
      var rest := OpenIn(sessions, processes, n - 1, key);
      if Competes(sessions, processes, n - 1) && KeyOf(sessions[n - 1]) == key then rest + [sessions[n - 1]] else rest
  }

  lemma {:induction false} OpenAreDistinct(sessions: seq<Session>, processes: seq<Process>, n: nat, key: string)
    requires DistinctIds(sessions) && DistinctPids(processes) && n <= |sessions|
    ensures DistinctIds(OpenIn(sessions, processes, n, key))
  {
    hide Competes;
    if n > 0 {
      OpenAreDistinct(sessions, processes, n - 1, key);
      var rest := OpenIn(sessions, processes, n - 1, key);
      forall k | 0 <= k < |rest| ensures rest[k].sessionId != sessions[n - 1].sessionId {
        assert rest[k] in rest;
      }
    }
  }

  /** What session j is matched with once the first n sessions were offered their recorded PID. */
  function ByIdentity(sessions: seq<Session>, processes: seq<Process>, n: nat, j: nat): Option<Process>
    requires DistinctPids(processes) && j < |sessions|
  {
    if ExplicitlyNamed(processes, sessions[j]) then LastNamer(processes, sessions[j])
    else if j < n then Keeps(sessions, processes, j)
    else None
  }

  /** `usedProcessPids` */
  predicate UsedAre(sessions: seq<Session>, processes: seq<Process>, n: nat, used: set<int>)
    requires n <= |sessions|
  {
    forall p :: p in processes ==> (p.pid in used <==> IsReserved(p) || WantedAmong(sessions, processes, n, p))
  }

  predicate BoundByIdentity(sessions: seq<Session>, processes: seq<Process>, n: nat, m: Matches)
    requires DistinctPids(processes)
  {
    && m.Keys <= IdsOf(sessions)
    && forall j :: 0 <= j < |sessions| ==> At(m, sessions[j].sessionId) == ByIdentity(sessions, processes, n, j)
  }

  lemma WantedOneMore(sessions: seq<Session>, processes: seq<Process>, n: nat, p: Process)
    requires n < |sessions|
    ensures WantedAmong(sessions, processes, n + 1, p)
            <==> WantedAmong(sessions, processes, n, p) || Wants(processes, sessions[n], p)
  {
  }

  /** The next session gets no process by its PID. */
  lemma OfferSkipped(sessions: seq<Session>, processes: seq<Process>, n: nat, m: Matches, used: set<int>)
    requires DistinctPids(processes) && n < |sessions|
    requires BoundByIdentity(sessions, processes, n, m) && UsedAre(sessions, processes, n, used)
    requires forall p :: p in processes && Wants(processes, sessions[n], p) ==> p.pid in used
    ensures BoundByIdentity(sessions, processes, n + 1, m) && UsedAre(sessions, processes, n + 1, used)
    ensures Keeps(sessions, processes, n).None?
  {
    hide Wants, WantedAmong, ExplicitlyNamed, IsReserved;
    forall p | p in processes ensures !FirstToWant(sessions, processes, n, p) {
      if Wants(processes, sessions[n], p) { WantIsNotReserved(processes, sessions[n], p); }
    }
    forall p | p in processes ensures p.pid in used <==> IsReserved(p) || WantedAmong(sessions, processes, n + 1, p) {
      WantedOneMore(sessions, processes, n, p);
    }
  }

  lemma WantIsNotReserved(processes: seq<Process>, s: Session, p: Process)
    requires Wants(processes, s, p)
    ensures !IsReserved(p) && s.pid == Some(p.pid) && !ExplicitlyNamed(processes, s)
  {
  }

  /** The next session keeps its recorded PID. */
  lemma OfferTaken(sessions: seq<Session>, processes: seq<Process>, n: nat, m: Matches, used: set<int>, p: Process)
    requires DistinctIds(sessions) && DistinctPids(processes) && n < |sessions| && p in processes
    requires BoundByIdentity(sessions, processes, n, m) && UsedAre(sessions, processes, n, used)
    requires Wants(processes, sessions[n], p) && p.pid !in used
    ensures BoundByIdentity(sessions, processes, n + 1, m[sessions[n].sessionId := p])
    ensures UsedAre(sessions, processes, n + 1, used + {p.pid})
    ensures Keeps(sessions, processes, n) == Some(p)
  {
    hide Wants, WantedAmong, ExplicitlyNamed;
    WantIsNotReserved(processes, sessions[n], p);
    assert FirstToWant(sessions, processes, n, p);
    assert sessions[n] in sessions;
    forall q | q in processes
      ensures q.pid in used + {p.pid} <==> IsReserved(q) || WantedAmong(sessions, processes, n + 1, q)
    {
      WantedOneMore(sessions, processes, n, q);
      if Wants(processes, sessions[n], q) { WantIsNotReserved(processes, sessions[n], q); }
      if q.pid == p.pid { SamePidSameProcess(processes, q, p); }
    }
  }

  /** One turn of the continuity loop; `grouped` says that the session goes on to compete in its directory. */
  method OfferRecordedPid(sessions: seq<Session>, processes: seq<Process>, i: nat, m: Matches, used: set<int>)
    returns (m': Matches, used': set<int>, grouped: bool)
    requires DistinctIds(sessions) && DistinctPids(processes) && i < |sessions|
    requires BoundByIdentity(sessions, processes, i, m) && UsedAre(sessions, processes, i, used)
    ensures BoundByIdentity(sessions, processes, i + 1, m') && UsedAre(sessions, processes, i + 1, used')
    ensures grouped <==> Competes(sessions, processes, i)
  {
    hide BoundByIdentity, UsedAre, WantedAmong, IsReserved;
    var s := sessions[i];
    m', used', grouped := m, used, false;
    if s.sessionId in m {
      MatchedIsNamed(sessions, processes, i, m);
      OfferSkipped(sessions, processes, i, m, used);
      return;
    }
    UnmatchedIsUnnamed(sessions, processes, i, m);
    var found := if s.pid.Some? && s.pid.value != 0 then FindByPid(processes, s.pid.value) else None;
    if found.Some? && found.value.client == ClientOf(s) && (found.value.cwd == "" || found.value.cwd == s.directory) {
      var p := found.value;
      OnlyOwnerHolds(processes, s, p);
      if !(p.startTime <= s.lastActiveAt + PID_REUSE_START_TOLERANCE_MS) {
        assert YoungerHolder(s, p);
        OfferSkipped(sessions, processes, i, m, used);
        return;
      }
      if p.pid !in used {
        UnusedIsUnreserved(sessions, processes, i, used, p);
        OfferTaken(sessions, processes, i, m, used, p);
        m', used' := m[s.sessionId := p], used + {p.pid};
        return;
      }
    }
    OfferSkipped(sessions, processes, i, m, used);
    grouped := true;
  }

  lemma OnlyOwnerHolds(processes: seq<Process>, s: Session, p: Process)
    requires DistinctPids(processes) && p in processes && s.pid == Some(p.pid)
    ensures forall q :: q in processes && (ContinuityHolds(s, q) || YoungerHolder(s, q)) ==> q == p
  {
  }

  lemma MatchedIsNamed(sessions: seq<Session>, processes: seq<Process>, i: nat, m: Matches)
    requires DistinctPids(processes) && i < |sessions| && BoundByIdentity(sessions, processes, i, m)
    requires sessions[i].sessionId in m
    ensures ExplicitlyNamed(processes, sessions[i])
  {
    hide ExplicitlyNamed;
    assert At(m, sessions[i].sessionId) == ByIdentity(sessions, processes, i, i);
  }

  lemma UnmatchedIsUnnamed(sessions: seq<Session>, processes: seq<Process>, i: nat, m: Matches)
    requires DistinctPids(processes) && i < |sessions| && BoundByIdentity(sessions, processes, i, m)
    requires sessions[i].sessionId !in m
    ensures !ExplicitlyNamed(processes, sessions[i])
  {
    hide ExplicitlyNamed;
    assert At(m, sessions[i].sessionId) == ByIdentity(sessions, processes, i, i);
  }

  lemma UnusedIsUnreserved(sessions: seq<Session>, processes: seq<Process>, n: nat, used: set<int>, p: Process)
    requires n <= |sessions| && UsedAre(sessions, processes, n, used) && p in processes && p.pid !in used
    ensures !IsReserved(p)
  {
  }

  lemma BeforeOffers(sessions: seq<Session>, processes: seq<Process>, explicit: Matches, reserved: set<int>)
    requires DistinctPids(processes) && BoundByName(sessions, processes, explicit)
    requires forall p :: p in processes ==> (p.pid in reserved <==> IsReserved(p))
    ensures BoundByIdentity(sessions, processes, 0, explicit) && UsedAre(sessions, processes, 0, reserved)
  {
    hide IsReserved, Wants, ExplicitlyNamed;
    assert forall j :: 0 <= j < |sessions| ==> sessions[j] in sessions;
  }

  method BindByPid(sessions: seq<Session>, processes: seq<Process>, explicit: Matches, reserved: set<int>)
    returns (m: Matches, used: set<int>, groups: Groups<Session>)
    requires DistinctIds(sessions) && DistinctPids(processes)
    requires BoundByName(sessions, processes, explicit)
    requires forall p :: p in processes ==> (p.pid in reserved <==> IsReserved(p))
    ensures BoundByIdentity(sessions, processes, |sessions|, m)
    ensures UsedAre(sessions, processes, |sessions|, used)
    ensures groups.Valid() && forall k :: groups.At(k) == OpenIn(sessions, processes, |sessions|, k)
  {
    hide BoundByIdentity, UsedAre, BoundByName, Competes, IsReserved;
    BeforeOffers(sessions, processes, explicit, reserved);
    m, used, groups := explicit, reserved, Groups([], map[]);
    for i := 0 to |sessions|
      invariant BoundByIdentity(sessions, processes, i, m)
      invariant UsedAre(sessions, processes, i, used)
      invariant groups.Valid() && forall k :: groups.At(k) == OpenIn(sessions, processes, i, k)
    {
      var grouped;
      m, used, grouped := OfferRecordedPid(sessions, processes, i, m, used);
      if grouped {
        groups := groups.Add(KeyOf(sessions[i]), sessions[i]);
      }
    }
  }
}
