/** The rules of dispatching, read off their inputs: which requests are accepted, which are the same, who is a candidate,
  * and what a scan or a user's choice makes of a row. */
module DispatchRules {
  import opened Outcomes
  import opened Basics
  import opened TaskDispatch

  /** A request is accepted exactly when everything it names exists and is within its bounds, and then stored trimmed. */
  lemma AcceptedIff(t: Text, itemExists: bool, i: Input)
    ensures Checked(t, itemExists, i).Ok? <==>
              && itemExists && t.trim(i.key) != "" && |i.key| <= 240 && t.trim(i.prompt) != "" && |i.prompt| <= 20000
              && i.cwd != "" && |i.cwd| <= 2048 && t.canonical(i.cwd).Some?
    ensures Checked(t, itemExists, i).Ok? ==>
              var q := Checked(t, itemExists, i).value;
              && q.workItemId == i.workItemId && q.runtime == i.runtime && Some(q.cwd) == t.canonical(i.cwd)
              && q.prompt == t.trim(i.prompt) && q.key == t.trim(i.key)
              && q.terminal == if i.terminal.Some? then i.terminal.value else "auto"
  {
  }

  /** A row made for one request answers another of the same key exactly when that asks for the same. */
  lemma SameRequestIff(q: Request, other: Request, preLaunch: set<string>, deadline: int)
    requires q.key == other.key
    ensures SamePayload(NewRow(q, preLaunch, deadline), other) <==> q == other
  {
  }

  /** The row of a request: what was asked for, the sessions there before, the deadline; failed if nothing opened or the work
    * item could not be updated, else awaiting; launched exactly if a terminal opened. */
  lemma LaunchedRowMeans(q: Request, a: Attempt)
    ensures var d := LaunchedRow(q, a);
            && d.workItemId == q.workItemId && d.runtime == q.runtime && d.cwd == q.cwd && d.prompt == q.prompt
            && d.terminal == q.terminal && d.key == q.key && d.preLaunch == a.preLaunch && d.deadline == a.now + a.timeout
            && d.state == (if a.opens && a.updates then AwaitingSession else Failed)
            && d.launchedAt == (if a.opens then Some(a.launchedAt) else None)
            && d.linked.None? && d.candidates == []
  {
  }

  /** The candidates of a dispatch in a scan: root sessions of its runtime and directory that are new since the launch and
    * were active after it; none before the launch is recorded or after the deadline. */
  lemma CandidateIff(d: Dispatch, sessions: seq<Session>, now: int, s: Session)
    ensures s in CandidatesOf(d, sessions, now) <==>
              && s in sessions && d.launchedAt.Some? && now <= d.deadline
              && !s.isSubAgent && !("agent-" <= s.sessionId) && s.sessionId !in d.preLaunch
              && s.runtime == d.runtime && s.directory == Some(d.cwd) && s.lastActiveAt >= d.launchedAt.value
  {
    assert "agent-" <= s.sessionId <==> StartsWith(s.sessionId, "agent-");
  }

  /** What a scan makes of an unfinished dispatch: failed past its deadline, untouched before its launch is recorded, and
    * otherwise linked, ambiguous with the ids of its candidates, or awaiting if it has none. */
  lemma ScanOutcome(rows: Rows, plan: Plan, id: string, later: int)
    requires id in rows && rows[id].state !in {Linked, Failed}
    ensures var d, after := rows[id], Reconciled(rows, plan, id, later);
            var late := if Unique(rows, plan, id) then plan.now > d.deadline else later > d.deadline;
            && (late <==> after.state == Failed)
            && (!late && d.launchedAt.None? ==> after == d)
            && (!late && d.launchedAt.Some? ==> after.state in {Linked, Ambiguous, AwaitingSession})
            && (!late && d.launchedAt.Some? && !Unique(rows, plan, id) ==>
                  && (after.state == Ambiguous <==> plan.Candidates(id) != [])
                  && |after.candidates| == |plan.Candidates(id)|
                  && (forall i :: 0 <= i < |after.candidates| ==> after.candidates[i] == plan.Candidates(id)[i].sessionId)
                  && after.linked == d.linked)
            && after.key == d.key && after.prompt == d.prompt && after.workItemId == d.workItemId
  {
    hide Unique, HeldElsewhere;
  }

  /** A user's choice is taken exactly while the dispatch awaits one in time, for an existing candidate that nobody else holds. */
  lemma ChoiceIff(rows: Rows, id: string, session: string, found: Option<Session>, now: int)
    ensures Resolve(rows, id, session, found, now).Ok? <==>
              && id in rows && rows[id].state in {Ambiguous, AwaitingSession} && now <= rows[id].deadline
              && session in rows[id].candidates && found.Some?
              && !exists other :: other in rows && other != id && rows[other].linked == Some(Agent(found.value.runtime, found.value.sessionId))
    ensures Resolve(rows, id, session, found, now).Ok? ==>
              var after := Resolve(rows, id, session, found, now).value;
              && after.state == Linked && after.linked == Some(Agent(found.value.runtime, found.value.sessionId))
              && after.candidates == [found.value.sessionId]
              && after == rows[id].(state := Linked, linked := after.linked, candidates := after.candidates)
  {
  }
}
