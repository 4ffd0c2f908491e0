/** What a match may rest on: the session id a process names, a recorded PID, or a shared directory. */
module MatchBasis {
  import opened Outcomes
  import opened Basics
  import opened CandidateSelection

  const PID_REUSE_START_TOLERANCE_MS: int := 60 * 1000

  datatype Process = Process(client: Client, pid: int, cwd: string, startTime: int, args: seq<string>)

  // ----- Explicit identity on the command line -----

  /** `/^(?:--session-id|--resume)(?:=|$)/` */
  predicate IsIdFlag(arg: string) {
    arg == "--session-id" || arg == "--resume" || StartsWith(arg, "--session-id=") || StartsWith(arg, "--resume=")
  }

  /** The prefix before the first `=`, or the whole string. */
  function UpToEquals(s: string): (r: string)
    ensures |r| <= |s|
  {
    if |s| == 0 || s[0] == '=' then "" else [s[0]] + UpToEquals(s[1..])
  }

  /** `arg.split('=')[1]` */
  function SecondPart(arg: string): Option<string> {
    var head := |UpToEquals(arg)|;
    if head == |arg| then None else Some(UpToEquals(arg[head + 1..]))
  }

  function RawId(args: seq<string>): Option<string> {
    if |args| == 0 then None
    else if !IsIdFlag(args[0]) then RawId(args[1..])
    else if SecondPart(args[0]).Some? then SecondPart(args[0])
    else if |args| > 1 then Some(args[1])
    else None
  }

  /** The nonempty session id a process names, if any. */
  function NamedId(p: Process): Option<string> {
    if RawId(p.args) == Some("") then None else RawId(p.args)
  }

  /** The process is kept out of heuristic matching: it is recorded in `explicitPids`. */
  predicate IsReserved(p: Process) {
    NamedId(p).Some? && NamedId(p).value[..1] != "-"
  }

  // ----- What a match may rest on -----

  datatype Basis = Explicit | Continuity | Assigned

  function ClientOf(s: Session): Client { s.client.GetOr(Claude) }

  /** `isPidContinuityCompatible` together with the checks around it. */
  predicate ContinuityHolds(s: Session, p: Process) {
    && s.pid == Some(p.pid) && p.pid != 0
    && p.client == ClientOf(s)
    && (p.cwd == "" || p.cwd == s.directory)
    && p.startTime <= s.lastActiveAt + PID_REUSE_START_TOLERANCE_MS
  }

  predicate StartedWithinThreeDays(s: Session, p: Process) {
    Abs(s.startedAt.GetOr(s.lastActiveAt) - p.startTime) < 3 * 24 * 60 * 60 * 1000
  }

  predicate Justified(s: Session, p: Process, basis: Basis) {
    && p.client == ClientOf(s)
    && match basis
       case Explicit => NamedId(p) == Some(s.sessionId)
       case Continuity => !IsReserved(p) && ContinuityHolds(s, p)
       case Assigned => !IsReserved(p) && p.cwd != "" && p.cwd == s.directory && StartedWithinThreeDays(s, p)
  }

  type Matches = map<string, Process>

  /** `matches.get(id)` */
  function At(m: Matches, id: string): Option<Process> {
    if id in m then Some(m[id]) else None
  }

  function IdsOf(sessions: seq<Session>): set<string> {
    set s | s in sessions :: s.sessionId
  }

  predicate DistinctPids(processes: seq<Process>) {
    forall i, j :: 0 <= i < j < |processes| ==> processes[i].pid != processes[j].pid
  }

  predicate OneToOne(m: Matches) {
    forall a, b :: a in m && b in m && a != b ==> m[a].pid != m[b].pid
  }

  predicate IsNamedBy(s: Session, p: Process) {
    NamedId(p) == Some(s.sessionId) && ClientOf(s) == p.client
  }

  predicate ExplicitlyNamed(processes: seq<Process>, s: Session) {
    exists p :: p in processes && IsNamedBy(s, p)
  }

  lemma SamePidSameProcess(processes: seq<Process>, p: Process, q: Process)
    requires DistinctPids(processes) && p in processes && q in processes && p.pid == q.pid
    ensures p == q
  {
  }

  // ----- Groups by client and directory -----

  /** `${client ?? 'claude'}\u0000${directory}` */
  function GroupKey(client: Client, directory: string): string {
    (match client case Claude => "claude" case Codex => "codex") + [NUL] + directory
  }

  lemma GroupKeyInjective(c: Client, d: string, c': Client, d': string)
    requires GroupKey(c, d) == GroupKey(c', d')
    ensures c == c' && d == d'
  {
    assert GroupKey(c, d)[1] == GroupKey(c', d')[1];
    assert c == c';
    var n := if c.Claude? then 7 else 6;
    assert GroupKey(c, d)[n..] == d && GroupKey(c', d')[n..] == d';
  }

  /** Groups remember the order in which their keys first appeared. */
  datatype Groups<T> = Groups(order: seq<string>, members: map<string, seq<T>>) {
    ghost predicate Valid() {
      && (forall i, j :: 0 <= i < j < |order| ==> order[i] != order[j])
      && (forall k :: k in order <==> k in members)
    }

    function Add(key: string, x: T): (g: Groups<T>)
      requires Valid()
      ensures g.Valid()
      ensures forall k :: k in g.members <==> k == key || k in members
      ensures forall k :: k in g.members ==> g.members[k] == At(k) + if k == key then [x] else []
    {
      Groups(if key in members then order else order + [key], members[key := At(key) + [x]])
    }

    function At(key: string): seq<T> {
      if key in members then members[key] else []
    }
  }
}
