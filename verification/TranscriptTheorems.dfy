/** The fact log over whole record streams: invariants, snapshots, termination, order. */
module TranscriptTheorems {
  import opened Outcomes
  import opened Basics
  import opened TranscriptLog
  import opened TranscriptInvariants

  // ----- Every record stream -----

  ghost predicate NoReuseAll(env: Env, since: int, log: Log, rs: seq<Record>, depth: nat) {
    |rs| == 0 ||
    var n := |rs| - 1;
    && NoReuseAll(env, since, log, rs[..n], depth)
    && (AddAll(env, since, log, rs[..n], depth).Some? ==>
          NoReuse(env, since, AddAll(env, since, log, rs[..n], depth).value, rs[n], depth))
  }

  lemma {:induction false} StreamKeeps(strict: bool, env: Env, since: int, rs: seq<Record>, depth: nat)
    requires AddAll(env, since, EMPTY, rs, depth).Some?
    requires strict ==> NoReuseAll(env, since, EMPTY, rs, depth)
    ensures Inv(strict, since, AddAll(env, since, EMPTY, rs, depth).value)
    decreases |rs|
  {
    if |rs| > 0 {
      var n := |rs| - 1;
      StreamKeeps(strict, env, since, rs[..n], depth);
      AddKeeps(strict, env, since, AddAll(env, since, EMPTY, rs[..n], depth).value, rs[n], depth);
    }
  }

  /** What the invariant says to a reader, after any stream of records. */
  lemma StreamFacts(env: Env, since: int, rs: seq<Record>, depth: nat, i: nat, j: nat)
    requires AddAll(env, since, EMPTY, rs, depth).Some?
    ensures var log := AddAll(env, since, EMPTY, rs, depth).value;
            && (forall f :: f in log.facts && f.ToolFact? ==>
                  && f.tool.startedOrder <= log.order
                  && (f.tool.completedOrder.Some? ==> f.tool.startedOrder <= f.tool.completedOrder.value <= log.order))
            && (forall k :: k in log.sessions ==> LastTool(log.facts, log.sessions[k]) >= 0)
            && (i < j < |log.facts| ==>
                  && !(log.facts[i].ContextFact? && log.facts[j].ContextFact?)
                  && !(log.facts[i].UserMessage? && log.facts[j].UserMessage?
                       && log.facts[i].text == log.facts[j].text && log.facts[i].userTurn == log.facts[j].userTurn))
  {
    StreamKeeps(false, env, since, rs, depth);
    var log := AddAll(env, since, EMPTY, rs, depth).value;
    SessionsAreKnown(since, log);
    if i < j < |log.facts| {
      NoClash(false, since, log, i, j);
    }
  }

  // ----- Snapshot and restore -----

  lemma {:induction false} NothingExpired(facts: seq<Fact>, since: int)
    requires forall f :: f in facts ==> f.At().ms >= since
    ensures Unexpired(facts, since) == facts
  {
    if |facts| > 0 {
      NothingExpired(facts[..|facts| - 1], since);
      assert facts[|facts| - 1] in facts;
    }
  }

  lemma {:induction false} OrderIsMax(facts: seq<Fact>, order: nat)
    requires forall f :: f in facts && f.ToolFact? ==> f.tool.startedOrder <= order && f.tool.completedOrder.GetOr(0) <= order
    ensures MaxOrder(facts, order) == order
  {
    if |facts| > 0 {
      OrderIsMax(facts[..|facts| - 1], order);
      assert facts[|facts| - 1] in facts;
    }
  }

  lemma SessionsAreKnown(since: int, log: Log)
    requires Inv(false, since, log)
    ensures forall k :: k in log.sessions ==> LastTool(log.facts, log.sessions[k]) >= 0
  {
    forall k | k in log.sessions ensures LastTool(log.facts, log.sessions[k]) >= 0 {
      assert log.sessions[k] in log.sessions.Values;
      LastToolIsKnown(log.facts, log.sessions[k]);
    }
  }

  lemma KeptSessions(facts: seq<Fact>, sessions: map<string, string>)
    requires forall k :: k in sessions ==> LastTool(facts, sessions[k]) >= 0
    ensures (map k | k in sessions && LastTool(facts, sessions[k]) >= 0 :: sessions[k]) == sessions
  {
  }

  /** Restoring a snapshot with the same retention bound gives back the log it was taken from. */
  lemma RestoreIsIdentity(since: int, log: Log)
    requires Inv(false, since, log)
    ensures Restore(Save(log), since) == log
  {
    var restored := Restore(Save(log), since);
    assert restored.facts == log.facts by { NothingExpired(log.facts, since); }
    assert restored.order == log.order by { OrderIsMax(log.facts, log.order); }
    assert restored.sessions == log.sessions by {
      SessionsAreKnown(since, log);
      KeptSessions(log.facts, log.sessions);
    }
  }

  lemma AddAllOneMore(env: Env, since: int, log: Log, rs: seq<Record>, r: Record, depth: nat)
    ensures AddAll(env, since, log, rs + [r], depth)
            == var before := AddAll(env, since, log, rs, depth);
               if before.None? then None else Add(env, since, before.value, r, depth)
  {
    hide Add;
    assert (rs + [r])[..|rs|] == rs;
  }

  lemma AddNothing(env: Env, since: int, depth: nat)
    ensures forall log :: AddAll(env, since, log, [], depth) == Some(log)
  {
  }

  lemma {:induction false} AddAllConcat(env: Env, since: int, log: Log, a: seq<Record>, b: seq<Record>, depth: nat)
    ensures AddAll(env, since, log, a + b, depth)
            == var first := AddAll(env, since, log, a, depth);
               if first.None? then None else AddAll(env, since, first.value, b, depth)
    decreases |b|
  {
    hide Add, AddAll;
    if |b| == 0 {
      assert b == [] && a + b == a;
      AddNothing(env, since, depth);
    } else {
      var init, r := b[..|b| - 1], b[|b| - 1];
      AddAllConcat(env, since, log, a, init, depth);
      assert b == init + [r];
      ConcatAssociates(a, init, [r]);
      AddAllOneMore(env, since, log, a + init, r, depth);
      var first := AddAll(env, since, log, a, depth);
      if first.Some? { AddAllOneMore(env, since, first.value, init, r, depth); }
    }
  }

  /** Stopping after any records, saving, restoring and continuing is the same as never having stopped. */
  lemma SnapshotLosesNothing(env: Env, since: int, before: seq<Record>, after: seq<Record>, depth: nat)
    requires AddAll(env, since, EMPTY, before, depth).Some?
    ensures var saved := Save(AddAll(env, since, EMPTY, before, depth).value);
            AddAll(env, since, Restore(saved, since), after, depth) == AddAll(env, since, EMPTY, before + after, depth)
  {
    StreamKeeps(false, env, since, before, depth);
    RestoreIsIdentity(since, AddAll(env, since, EMPTY, before, depth).value);
    AddAllConcat(env, since, EMPTY, before, after, depth);
  }

  // ----- Termination of results -----

  /** Following forwards from a call reaches a call that is not forwarded, within `depth` hops. */
  predicate ChainEnds(env: Env, log: Log, id: string, depth: nat)
    decreases depth
  {
    var target := Forward(env, log, id);
    target.None? || (depth > 0 && ChainEnds(env, log, target.value, depth - 1))
  }

  /** The calls as forwarding sees them: names and inputs of the last tool facts. */
  ghost predicate SameCalls(a: seq<Fact>, b: seq<Fact>) {
    && |a| == |b|
    && forall i :: 0 <= i < |a| ==>
         a[i] == b[i]
         || (a[i].ToolFact? && b[i].ToolFact? && a[i].tool.callId == b[i].tool.callId
             && a[i].tool.name == b[i].tool.name && a[i].tool.input == b[i].tool.input)
  }

  lemma {:induction false} SameCallsSameLast(a: seq<Fact>, b: seq<Fact>, id: string)
    requires SameCalls(a, b)
    ensures LastTool(a, id) == LastTool(b, id)
  {
    forall k | 0 <= k < |a|
      ensures (a[k].ToolFact? && a[k].tool.callId == id) <==> (b[k].ToolFact? && b[k].tool.callId == id)
    {
    }
  }

  lemma {:induction false} SameCallsSameChain(env: Env, a: Log, b: Log, id: string, depth: nat)
    requires SameCalls(a.facts, b.facts) && a.sessions == b.sessions
    ensures ChainEnds(env, a, id, depth) <==> ChainEnds(env, b, id, depth)
    decreases depth
  {
    SameCallsSameLast(a.facts, b.facts, id);
    if depth > 0 && Forward(env, a, id).Some? {
      SameCallsSameChain(env, a, b, Forward(env, a, id).value, depth - 1);
    }
  }

  /** A forwarding call changes nothing that forwarding looks at. */
  lemma BeginKeepsCalls(env: Env, log: Log, id: string, o: Outcome)
    requires LastTool(log.facts, id) >= 0
    ensures SameCalls(log.facts, BeginResult(env, log, id, o).facts)
    ensures IsWriteStdin(log.facts[LastTool(log.facts, id)].tool.name) ==> BeginResult(env, log, id, o).sessions == log.sessions
  {
    ExecIsNotWriteStdin(log.facts[LastTool(log.facts, id)].tool.name);
  }

  lemma {:induction false} ResultKeepsIds(env: Env, log: Log, id: string, o: Outcome, depth: nat)
    requires ApplyResult(env, log, id, o, depth).Some?
    ensures ToolIds(log.facts) <= ToolIds(ApplyResult(env, log, id, o, depth).value.facts)
    decreases depth
  {
    if LastTool(log.facts, id) >= 0 {
      var begun := BeginResult(env, log, id, o);
      var target := Forward(env, begun, id);
      BeginKeepsIds(env, log, id, o);
      var forwarded := begun;
      if target.Some? {
        ResultKeepsIds(env, begun, target.value, o, depth - 1);
        forwarded := ApplyResult(env, begun, target.value, o, depth - 1).value;
      }
      FinishKeepsIds(env, forwarded, id, o, log.facts[LastTool(log.facts, id)].tool.exitCode);
    }
  }

  lemma ReplaceKeepsIds(facts: seq<Fact>, i: nat, f: Fact)
    requires i < |facts| && facts[i].ToolFact? && f.ToolFact? && facts[i].tool.callId == f.tool.callId
    ensures ToolIds(facts) <= ToolIds(facts[i := f])
    ensures ToolIds(facts) <= ToolIds(MoveToEnd(facts, i, f))
  {
    var replaced, moved := facts[i := f], MoveToEnd(facts, i, f);
    WithoutMembers(facts, i);
    assert moved == Without(facts, i) + [f];
    forall id | id in ToolIds(facts) ensures id in ToolIds(replaced) && id in ToolIds(moved) {
      var g :| g in facts && g.ToolFact? && g.tool.callId == id;
      var j :| 0 <= j < |facts| && facts[j] == g;
      assert replaced[j] in replaced && replaced[i] == f;
      assert f in moved && (g == facts[i] || g in moved);
    }
  }

  lemma BeginKeepsIds(env: Env, log: Log, id: string, o: Outcome)
    requires LastTool(log.facts, id) >= 0
    ensures ToolIds(log.facts) <= ToolIds(BeginResult(env, log, id, o).facts)
  {
    var i := LastTool(log.facts, id);
    ReplaceKeepsIds(log.facts, i, ToolFact(log.facts[i].tool.(completed := true)));
  }

  lemma FinishKeepsIds(env: Env, log: Log, id: string, o: Outcome, previousExit: Option<int>)
    requires LastTool(log.facts, id) >= 0
    ensures ToolIds(log.facts) <= ToolIds(FinishResult(env, log, id, o, previousExit).facts)
  {
    var i := LastTool(log.facts, id);
    ReplaceKeepsIds(log.facts, i, ToolFact(Judge(env, log.facts[i].tool, o, previousExit, log.order)));
  }

  /** A result is processed within `depth` nested calls exactly when its chain of forwards ends within `depth` hops:
    * a caller can tell from the log whether `result` returns at all. */
  lemma {:induction false} ResultTerminatesIff(env: Env, log: Log, id: string, o: Outcome, depth: nat)
    ensures ApplyResult(env, log, id, o, depth).Some? <==> ChainEnds(env, log, id, depth)
    decreases depth
  {
    var i := LastTool(log.facts, id);
    if i >= 0 {
      var begun := BeginResult(env, log, id, o);
      BeginKeepsCalls(env, log, id, o);
      SameCallsSameLast(log.facts, begun.facts, id);
      var target := Forward(env, begun, id);
      if IsWriteStdin(log.facts[i].tool.name) {
        assert Forward(env, log, id) == target;
        if target.Some? && depth > 0 {
          ResultTerminatesIff(env, begun, target.value, o, depth - 1);
          SameCallsSameChain(env, log, begun, target.value, depth - 1);
          if ApplyResult(env, begun, target.value, o, depth - 1).Some? {
            ResultKeepsIds(env, begun, target.value, o, depth - 1);
            LastToolIsKnown(begun.facts, id);
            LastToolIsKnown(ApplyResult(env, begun, target.value, o, depth - 1).value.facts, id);
          }
        }
      }
    }
  }

  /** Without reused call ids a terminal session leads to an exec call, so one forward is always enough. */
  lemma OneForwardIsEnough(env: Env, since: int, log: Log, id: string, o: Outcome, depth: nat)
    requires Inv(true, since, log) && depth >= 1
    ensures ApplyResult(env, log, id, o, depth).Some?
  {
    var target := Forward(env, log, id);
    if target.Some? {
      var session := env.inputSession(log.facts[LastTool(log.facts, id)].tool.input);
      assert log.sessions[session] == target.value && target.value in log.sessions.Values;
      LastToolIsKnown(log.facts, target.value);
      var j := LastTool(log.facts, target.value);
      assert log.facts[j] in log.facts && IsExec(log.facts[j].tool.name);
      ExecIsNotWriteStdin(log.facts[j].tool.name);
      assert ChainEnds(env, log, target.value, depth - 1);
    }
    ResultTerminatesIff(env, log, id, o, depth);
  }

  lemma {:induction false} BlocksTerminate(env: Env, since: int, log: Log, blocks: seq<Block>, at: Instant, depth: nat)
    requires Inv(true, since, log) && at.ms >= since && depth >= 1 && NewCalls(env, log, blocks, at, depth)
    ensures AddBlocks(env, log, blocks, at, depth).Some?
    decreases |blocks|
  {
    if |blocks| > 0 {
      var n := |blocks| - 1;
      BlocksTerminate(env, since, log, blocks[..n], at, depth);
      BlocksKeep(true, env, since, log, blocks[..n], at, depth);
      var before := AddBlocks(env, log, blocks[..n], at, depth).value;
      if blocks[n].ResultBlock? {
        OneForwardIsEnough(env, since, before, blocks[n].callId, Outcome(blocks[n].output, BlockCode(before, blocks[n]), true, at), depth);
      }
    }
  }

  lemma ItemTerminates(env: Env, since: int, log: Log, item: Item, at: Instant, depth: nat)
    requires Inv(true, since, log) && at.ms >= since && depth >= 1
    ensures AddItem(env, log, item, at, depth).Some?
  {
    match item
    case CommandExecution(id, command, output, code) =>
      LastToolIsKnown(log.facts, id);
      var known := log;
      if LastTool(log.facts, id) < 0 && command.Some? {
        ToolKeeps(true, env, since, log, id, "exec_command", command.value, at);
        known := AddTool(env, log, id, "exec_command", command.value, at);
      }
      OneForwardIsEnough(env, since, known, id, Outcome(output, code, false, at), depth);
    case ToolOutput(id, output, code) => OneForwardIsEnough(env, since, log, id, Outcome(output, code, false, at), depth);
    case _ =>
  }

  lemma ClaudeTerminates(env: Env, since: int, log: Log, b: Body, at: Instant, depth: nat)
    requires Inv(true, since, log) && at.ms >= since && depth >= 1 && b.ClaudeRecord?
    requires NewCalls(env, ClaudeHead(env, log, b, at), b.blocks, at, depth)
    ensures AddClaude(env, log, b, at, depth).Some?
  {
    HeadKeeps(true, env, since, log, b, at);
    BlocksTerminate(env, since, ClaudeHead(env, log, b, at), b.blocks, at, depth);
  }

  lemma RecordTerminates(env: Env, since: int, log: Log, r: Record, depth: nat)
    requires Inv(true, since, log) && depth >= 1 && NoReuse(env, since, log, r, depth)
    ensures Add(env, since, log, r, depth).Some?
  {
    if r.at.Some? && r.at.value.ms >= since {
      var counted := log.(order := log.order + 1);
      assert Inv(true, since, counted) by { OrderKeeps(true, since, log); }
      if r.body.ClaudeRecord? {
        ClaudeTerminates(env, since, counted, r.body, r.at.value, depth);
      } else if r.body.ItemRecord? {
        ItemTerminates(env, since, counted, r.body.item, r.at.value, depth);
      } else if r.body.ItemCompletedEvent? {
        OrderKeeps(true, since, counted);
        ItemTerminates(env, since, counted.(order := counted.order + 1), r.body.item, r.at.value, depth);
      }
    }
  }

  /** Every stream that reuses no call id is processed, with at most one nested result per result. */
  lemma {:induction false} StreamTerminates(env: Env, since: int, rs: seq<Record>, depth: nat)
    requires depth >= 1 && NoReuseAll(env, since, EMPTY, rs, depth)
    ensures AddAll(env, since, EMPTY, rs, depth).Some?
    decreases |rs|
  {
    if |rs| > 0 {
      var n := |rs| - 1;
      StreamTerminates(env, since, rs[..n], depth);
      StreamKeeps(true, env, since, rs[..n], depth);
      RecordTerminates(env, since, AddAll(env, since, EMPTY, rs[..n], depth).value, rs[n], depth);
    }
  }

  /** A call that is forwarded to itself is never processed, at any depth. */
  lemma {:induction false} SelfForwardNeverEnds(env: Env, log: Log, id: string, o: Outcome, depth: nat)
    requires Forward(env, log, id) == Some(id)
    ensures ApplyResult(env, log, id, o, depth).None?
    decreases depth
  {
    if depth > 0 {
      SelfForwardNeverEnds(env, log, id, o, depth - 1);
      ResultTerminatesIff(env, log, id, o, depth - 1);
    }
    ResultTerminatesIff(env, log, id, o, depth);
  }

  /** The assumption is needed: when the id of a call that owns a terminal session is reused for a `write_stdin` on that
    * session, its result never ends. */
  lemma ReusedIdNeverEnds(env: Env, log: Log, session: string, id: string, name: string, input: Json, at: Instant, o: Outcome, depth: nat)
    requires session in log.sessions && log.sessions[session] == id && id != "" && IsWriteStdin(name)
    requires env.inputSession(input) == session
    ensures ApplyResult(env, AddTool(env, log, id, name, input, at), id, o, depth).None?
  {
    var after := AddTool(env, log, id, name, input, at);
    assert name != "";
    assert after.facts[|after.facts| - 1].tool.callId == id && LastTool(after.facts, id) == |after.facts| - 1;
    SelfForwardNeverEnds(env, after, id, o, depth);
  }

  lemma OneExecCall(env: Env, since: int, at: Instant, command: Json, depth: nat) returns (log: Log)
    requires at.ms >= since
    ensures Add(env, since, EMPTY, Record(Some(at), ItemRecord(ToolUse("c", "exec_command", command))), depth) == Some(log)
    ensures |log.facts| == 1 && log.facts[0].ToolFact? && log.facts[0].tool.callId == "c" && log.facts[0].tool.name == "exec_command"
  {
    log := AddTool(env, EMPTY.(order := 1), "c", "exec_command", command, at);
  }

  lemma OnlyCall(facts: seq<Fact>)
    requires |facts| == 1 && facts[0].ToolFact? && facts[0].tool.callId == "c"
    ensures LastTool(facts, "c") == 0
  {
  }

  lemma FinishKeepsSessions(env: Env, log: Log, id: string, o: Outcome, previousExit: Option<int>)
    requires LastTool(log.facts, id) >= 0
    ensures FinishResult(env, log, id, o, previousExit).sessions == log.sessions
  {
    hide Judge, Moves, MoveToEnd;
  }

  lemma SessionAnnounced(env: Env, since: int, log: Log, at: Instant, announced: Json, depth: nat) returns (after: Log)
    requires at.ms >= since && env.startedSession(announced) == Some("1")
    requires |log.facts| == 1 && log.facts[0].ToolFact? && log.facts[0].tool.callId == "c" && log.facts[0].tool.name == "exec_command"
    ensures Add(env, since, log, Record(Some(at), ItemRecord(ToolOutput("c", announced, None))), depth) == Some(after)
    ensures "1" in after.sessions && after.sessions["1"] == "c"
  {
    hide FinishResult, LastTool;
    var o := Outcome(announced, None, false, at);
    var counted := log.(order := log.order + 1);
    assert IsExec("exec_command");
    ExecIsNotWriteStdin("exec_command");
    OnlyCall(counted.facts);
    var begun := BeginResult(env, counted, "c", o);
    OnlyCall(begun.facts);
    after := FinishResult(env, begun, "c", o, log.facts[0].tool.exitCode);
    FinishKeepsSessions(env, begun, "c", o, log.facts[0].tool.exitCode);
  }

  lemma ReuseStops(env: Env, since: int, log: Log, at: Instant, poll: Json, output: Json, depth: nat)
    requires at.ms >= since && env.inputSession(poll) == "1" && "1" in log.sessions && log.sessions["1"] == "c"
    ensures var r3, r4 := Record(Some(at), ItemRecord(ToolUse("c", "write_stdin", poll))), Record(Some(at), ItemRecord(ToolOutput("c", output, None)));
            && Add(env, since, log, r3, depth).Some?
            && Add(env, since, Add(env, since, log, r3, depth).value, r4, depth).None?
  {
    hide BeginResult, FinishResult, Forward, LastTool;
    var counted := log.(order := log.order + 1);
    var called := AddTool(env, counted, "c", "write_stdin", poll, at);
    assert IsWriteStdin("write_stdin");
    var o := Outcome(output, None, false, at);
    ReusedIdNeverEnds(env, counted, "1", "c", "write_stdin", poll, at, o, depth);
    SameLogSameEnd(env, called, "c", o, depth);
  }

  /** Whether a result ends does not depend on the record count. */
  lemma SameLogSameEnd(env: Env, log: Log, id: string, o: Outcome, depth: nat)
    ensures ApplyResult(env, log.(order := log.order + 1), id, o, depth).None? <==> ApplyResult(env, log, id, o, depth).None?
  {
    hide ChainEnds, ApplyResult;
    var later := log.(order := log.order + 1);
    ResultTerminatesIff(env, log, id, o, depth);
    ResultTerminatesIff(env, later, id, o, depth);
    SameCallsSameChain(env, later, log, id, depth);
  }

  /** Such a log arises from four records: an exec call, its output announcing a terminal session, a write on that session
    * under the same id, and the output of the write, which is then processed at no depth. */
  lemma ReusedIdStream(env: Env, since: int, at: Instant, command: Json, announced: Json, poll: Json, output: Json, depth: nat)
    requires at.ms >= since && env.startedSession(announced) == Some("1") && env.inputSession(poll) == "1"
    ensures var start := [Record(Some(at), ItemRecord(ToolUse("c", "exec_command", command))),
                          Record(Some(at), ItemRecord(ToolOutput("c", announced, None))),
                          Record(Some(at), ItemRecord(ToolUse("c", "write_stdin", poll)))];
            && AddAll(env, since, EMPTY, start, depth).Some?
            && AddAll(env, since, EMPTY, start + [Record(Some(at), ItemRecord(ToolOutput("c", output, None)))], depth).None?
  {
    var r1 := Record(Some(at), ItemRecord(ToolUse("c", "exec_command", command)));
    var r2 := Record(Some(at), ItemRecord(ToolOutput("c", announced, None)));
    var r3 := Record(Some(at), ItemRecord(ToolUse("c", "write_stdin", poll)));
    var r4 := Record(Some(at), ItemRecord(ToolOutput("c", output, None)));
    AddNothing(env, since, depth);
    AddAllOneMore(env, since, EMPTY, [], r1, depth);
    AddAllOneMore(env, since, EMPTY, [r1], r2, depth);
    AddAllOneMore(env, since, EMPTY, [r1, r2], r3, depth);
    AddAllOneMore(env, since, EMPTY, [r1, r2, r3], r4, depth);
    assert [] + [r1] == [r1] && [r1] + [r2] == [r1, r2] && [r1, r2] + [r3] == [r1, r2, r3];
    var l1 := OneExecCall(env, since, at, command, depth);
    var l2 := SessionAnnounced(env, since, l1, at, announced, depth);
    ReuseStops(env, since, l2, at, poll, output, depth);
  }

  // ----- Repeated results and order by time -----

  /** The calls a result reaches by being forwarded, and the last of them. */
  function ChainCalls(env: Env, log: Log, id: string, depth: nat): set<string>
    decreases depth
  {
    var target := Forward(env, log, id);
    {id} + if target.None? || depth == 0 then {} else ChainCalls(env, log, target.value, depth - 1)
  }

  function ChainLast(env: Env, log: Log, id: string, depth: nat): string
    decreases depth
  {
    var target := Forward(env, log, id);
    if target.None? || depth == 0 then id else ChainLast(env, log, target.value, depth - 1)
  }

  lemma {:induction false} ChainLastIsNotForwarded(env: Env, log: Log, id: string, depth: nat)
    requires ChainEnds(env, log, id, depth)
    ensures Forward(env, log, ChainLast(env, log, id, depth)).None?
    decreases depth
  {
    if Forward(env, log, id).Some? {
      ChainLastIsNotForwarded(env, log, Forward(env, log, id).value, depth - 1);
    }
  }

  lemma {:induction false} SameCallsSameReach(env: Env, a: Log, b: Log, id: string, depth: nat)
    requires SameCalls(a.facts, b.facts) && a.sessions == b.sessions
    ensures ChainCalls(env, a, id, depth) == ChainCalls(env, b, id, depth)
    ensures ChainLast(env, a, id, depth) == ChainLast(env, b, id, depth)
    decreases depth
  {
    SameCallsSameLast(a.facts, b.facts, id);
    if depth > 0 && Forward(env, a, id).Some? {
      SameCallsSameReach(env, a, b, Forward(env, a, id).value, depth - 1);
    }
  }

  /** A version of the same call at the same time. */
  predicate SameReceipt(a: Fact, b: Fact) {
    && a.ToolFact? && b.ToolFact? && a.tool.callId == b.tool.callId && a.tool.name == b.tool.name
    && a.tool.input == b.tool.input && a.tool.at == b.tool.at
  }

  /** No fact moved or changed its time, and only the calls that `ids` refer to changed at all. */
  predicate OnlyCallsChanged(a: seq<Fact>, b: seq<Fact>, ids: set<string>) {
    && |a| == |b|
    && forall j :: 0 <= j < |a| ==>
         a[j] == b[j] || (SameReceipt(a[j], b[j]) && a[j].tool.callId in ids && j == LastTool(a, a[j].tool.callId))
  }

  /** The call is completed, and the result leaves its exit code as it is. */
  predicate Settled(env: Env, t: Tool, o: Outcome) {
    && t.completedOrder.Some?
    && (t.mutating || IsExecution(t.name) ==>
          env.outputEvidence(o.output, t.input, t.name, o.code, o.implicit).exitCode == t.exitCode)
  }

  lemma OnlyCallsChangedTwice(a: seq<Fact>, b: seq<Fact>, c: seq<Fact>, ids: set<string>, more: set<string>)
    requires OnlyCallsChanged(a, b, ids) && OnlyCallsChanged(b, c, more)
    ensures OnlyCallsChanged(a, c, ids + more)
  {
    forall j | 0 <= j < |a| && b[j].ToolFact? ensures LastTool(a, b[j].tool.callId) == LastTool(b, b[j].tool.callId) {
      SameCallsSameLast(a, b, b[j].tool.callId);
    }
  }

  /** A polled or settled call is judged where it stands. */
  lemma FinishInPlace(env: Env, log: Log, id: string, o: Outcome, previousExit: Option<int>)
    requires LastTool(log.facts, id) >= 0
    requires var t := log.facts[LastTool(log.facts, id)].tool;
             IsWriteStdin(t.name) || (Settled(env, t, o) && t.exitCode == previousExit)
    ensures var after := FinishResult(env, log, id, o, previousExit).facts;
            && OnlyCallsChanged(log.facts, after, {id}) && SameCalls(log.facts, after)
            && var t := log.facts[LastTool(log.facts, id)].tool;
               (Settled(env, t, o) && t.exitCode == previousExit ==> after[LastTool(log.facts, id)].tool.completedOrder == t.completedOrder)
  {
    var t := log.facts[LastTool(log.facts, id)].tool;
    ExecIsNotWriteStdin(t.name);
  }

  lemma BeginInPlace(env: Env, log: Log, id: string, o: Outcome)
    requires LastTool(log.facts, id) >= 0
    ensures OnlyCallsChanged(log.facts, BeginResult(env, log, id, o).facts, {id})
    ensures LastTool(BeginResult(env, log, id, o).facts, id) == LastTool(log.facts, id)
  {
    BeginKeepsCalls(env, log, id, o);
    SameCallsSameLast(log.facts, BeginResult(env, log, id, o).facts, id);
  }

  /** What a repeated result leaves of the log. */
  predicate Stays(log: Log, after: Log, ids: set<string>, last: string) {
    && OnlyCallsChanged(log.facts, after.facts, ids)
    && var i := LastTool(log.facts, last);
       i >= 0 ==> after.facts[i].ToolFact? && after.facts[i].tool.completedOrder == log.facts[i].tool.completedOrder
  }

  lemma PollKeeps(env: Env, log: Log, begun: Log, forwarded: Log, id: string, o: Outcome, previousExit: Option<int>,
                  ids: set<string>, last: string)
    requires OnlyCallsChanged(log.facts, begun.facts, {id}) && Stays(begun, forwarded, ids, last)
    requires LastTool(log.facts, id) >= 0 && IsWriteStdin(log.facts[LastTool(log.facts, id)].tool.name) && id != last
    requires LastTool(begun.facts, last) >= 0 ==> begun.facts[LastTool(begun.facts, last)] == log.facts[LastTool(begun.facts, last)]
    ensures LastTool(forwarded.facts, id) >= 0
    ensures Stays(log, FinishResult(env, forwarded, id, o, previousExit), {id} + ids, last)
  {
    hide Settled, FinishResult;
    SameCallsSameLast(log.facts, begun.facts, id);
    SameCallsSameLast(log.facts, begun.facts, last);
    SameCallsSameLast(begun.facts, forwarded.facts, id);
    SameCallsSameLast(begun.facts, forwarded.facts, last);
    FinishInPlace(env, forwarded, id, o, previousExit);
    OnlyCallsChangedTwice(log.facts, begun.facts, forwarded.facts, {id}, ids);
    OnlyCallsChangedTwice(log.facts, forwarded.facts, FinishResult(env, forwarded, id, o, previousExit).facts, {id} + ids, {id});
    assert {id} + ids + {id} == {id} + ids;
  }

  /** A repeated result, also one that polls a terminal session, whose chain of forwards ends in a call that is completed and
    * keeps its exit code: no fact moves or changes its time, only the calls of the chain change at all, and the last of them
    * keeps its completion order. */
  lemma {:induction false} RepeatedResultStays(env: Env, log: Log, id: string, o: Outcome, depth: nat)
    requires ChainEnds(env, log, id, depth)
    requires var i := LastTool(log.facts, ChainLast(env, log, id, depth));
             i >= 0 ==> Settled(env, log.facts[i].tool, o)
    ensures ApplyResult(env, log, id, o, depth).Some?
    ensures Stays(log, ApplyResult(env, log, id, o, depth).value, ChainCalls(env, log, id, depth), ChainLast(env, log, id, depth))
    decreases depth
  {
    hide FinishResult, BeginResult, Forward, Stays, Settled;
    var i := LastTool(log.facts, id);
    ResultTerminatesIff(env, log, id, o, depth);
    if i < 0 {
      NothingStays(env, log, id);
      assert ChainCalls(env, log, id, depth) == {id};
    } else {
      var begun := BeginResult(env, log, id, o);
      BeginForwards(env, log, id, o);
      var target := Forward(env, log, id);
      if target.None? {
        LastResultStays(env, log, id, o);
        assert ChainCalls(env, log, id, depth) == {id};
      } else {
        var last := ChainLast(env, log, id, depth);
        ChainLastIsNotForwarded(env, log, id, depth);
        PollBegins(env, log, id, o, target.value, depth - 1, last);
        RepeatedResultStays(env, begun, target.value, o, depth - 1);
        PollKeeps(env, log, begun, ApplyResult(env, begun, target.value, o, depth - 1).value, id, o, log.facts[i].tool.exitCode,
                  ChainCalls(env, begun, target.value, depth - 1), last);
      }
    }
  }

  lemma NothingStays(env: Env, log: Log, id: string)
    requires LastTool(log.facts, id) < 0
    ensures Forward(env, log, id).None? && Stays(log, log, {id}, id)
  {
  }

  /** Marking a call completed does not change what its result is forwarded to. */
  lemma BeginForwards(env: Env, log: Log, id: string, o: Outcome)
    requires LastTool(log.facts, id) >= 0
    ensures Forward(env, BeginResult(env, log, id, o), id) == Forward(env, log, id)
    ensures Forward(env, log, id).Some? ==> IsWriteStdin(log.facts[LastTool(log.facts, id)].tool.name)
  {
    BeginKeepsCalls(env, log, id, o);
    SameCallsSameLast(log.facts, BeginResult(env, log, id, o).facts, id);
  }

  /** What the nested result of a poll finds. */
  lemma PollBegins(env: Env, log: Log, id: string, o: Outcome, target: string, depth: nat, last: string)
    requires LastTool(log.facts, id) >= 0 && IsWriteStdin(log.facts[LastTool(log.facts, id)].tool.name) && id != last
    ensures var begun := BeginResult(env, log, id, o);
            && OnlyCallsChanged(log.facts, begun.facts, {id})
            && (ChainEnds(env, log, target, depth) <==> ChainEnds(env, begun, target, depth))
            && ChainCalls(env, log, target, depth) == ChainCalls(env, begun, target, depth)
            && ChainLast(env, log, target, depth) == ChainLast(env, begun, target, depth)
            && LastTool(begun.facts, last) == LastTool(log.facts, last)
            && (LastTool(log.facts, last) >= 0 ==> begun.facts[LastTool(log.facts, last)] == log.facts[LastTool(log.facts, last)])
  {
    hide ChainEnds, ChainCalls, ChainLast;
    var begun := BeginResult(env, log, id, o);
    BeginKeepsCalls(env, log, id, o);
    BeginInPlace(env, log, id, o);
    SameCallsSameChain(env, log, begun, target, depth);
    SameCallsSameReach(env, log, begun, target, depth);
    SameCallsSameLast(log.facts, begun.facts, last);
  }

  /** The result of a call that is not forwarded. */
  lemma LastResultStays(env: Env, log: Log, id: string, o: Outcome)
    requires LastTool(log.facts, id) >= 0 && Settled(env, log.facts[LastTool(log.facts, id)].tool, o)
    ensures var begun := BeginResult(env, log, id, o);
            && LastTool(begun.facts, id) >= 0
            && Stays(log, FinishResult(env, begun, id, o, log.facts[LastTool(log.facts, id)].tool.exitCode), {id}, id)
  {
    hide FinishResult;
    var begun := BeginResult(env, log, id, o);
    BeginInPlace(env, log, id, o);
    FinishInPlace(env, begun, id, o, log.facts[LastTool(log.facts, id)].tool.exitCode);
    OnlyCallsChangedTwice(log.facts, begun.facts,
                          FinishResult(env, begun, id, o, log.facts[LastTool(log.facts, id)].tool.exitCode).facts, {id}, {id});
    assert {id} + {id} == {id};
  }

  /** Facts are in time order and none is later than `ms`. */
  predicate InTimeOrder(facts: seq<Fact>, ms: int) {
    && (forall i :: 0 <= i < |facts| ==> facts[i].At().ms <= ms)
    && (forall i, j :: 0 <= i < j < |facts| ==> facts[i].At().ms <= facts[j].At().ms)
  }

  lemma DropInOrder(facts: seq<Fact>, ms: int)
    requires InTimeOrder(facts, ms)
    ensures InTimeOrder(RemoveContext(facts), ms)
  {
    var i := FirstContext(facts);
    if i < |facts| {
      WithoutMembers(facts, i);
      var rest := Without(facts, i);
      assert RemoveContext(facts) == rest;
      forall a, b | 0 <= a < b < |rest| ensures rest[a].At().ms <= rest[b].At().ms {
        assert rest[a] == facts[if a < i then a else a + 1];
        assert rest[b] == facts[if b < i then b else b + 1];
      }
    }
  }

  lemma AppendInOrder(facts: seq<Fact>, f: Fact)
    requires InTimeOrder(facts, f.At().ms)
    ensures InTimeOrder(facts + [f], f.At().ms)
  {
  }

  lemma ReplaceInOrder(facts: seq<Fact>, i: nat, f: Fact, ms: int)
    requires InTimeOrder(facts, ms) && i < |facts|
    ensures facts[i].At() == f.At() ==> InTimeOrder(facts[i := f], ms)
    ensures f.At().ms == ms ==> InTimeOrder(MoveToEnd(facts, i, f), ms)
  {
    WithoutMembers(facts, i);
    assert MoveToEnd(facts, i, f) == Without(facts, i) + [f];
  }

  lemma MessageInOrder(env: Env, log: Log, fromUser: bool, text: string, at: Instant, final: bool)
    requires InTimeOrder(log.facts, at.ms)
    ensures InTimeOrder(AddMessage(env, log, fromUser, text, at, final).facts, at.ms)
  {
    var after := AddMessage(env, log, fromUser, text, at, final);
    if after != log {
      AppendInOrder(log.facts, after.facts[|log.facts|]);
    }
  }

  lemma ContextInOrder(log: Log, used: int, window: int, at: Instant)
    requires InTimeOrder(log.facts, at.ms)
    ensures InTimeOrder(SetContext(log, used, window, at).facts, at.ms)
  {
    DropInOrder(log.facts, at.ms);
    AppendInOrder(RemoveContext(log.facts), ContextFact(used, window, at));
  }

  lemma ToolInOrder(env: Env, log: Log, id: string, name: string, input: Json, at: Instant)
    requires InTimeOrder(log.facts, at.ms)
    ensures InTimeOrder(AddTool(env, log, id, name, input, at).facts, at.ms)
  {
    var after := AddTool(env, log, id, name, input, at);
    if id != "" && name != "" {
      AppendInOrder(log.facts, after.facts[|log.facts|]);
    }
  }

  lemma BeginInOrder(env: Env, log: Log, id: string, o: Outcome)
    requires LastTool(log.facts, id) >= 0 && InTimeOrder(log.facts, o.at.ms)
    ensures InTimeOrder(BeginResult(env, log, id, o).facts, o.at.ms)
  {
    var i := LastTool(log.facts, id);
    ReplaceInOrder(log.facts, i, ToolFact(log.facts[i].tool.(completed := true)), o.at.ms);
  }

  lemma FinishInOrder(env: Env, log: Log, id: string, o: Outcome, previousExit: Option<int>)
    requires LastTool(log.facts, id) >= 0 && InTimeOrder(log.facts, o.at.ms)
    ensures InTimeOrder(FinishResult(env, log, id, o, previousExit).facts, o.at.ms)
  {
    var i := LastTool(log.facts, id);
    ReplaceInOrder(log.facts, i, ToolFact(Judge(env, log.facts[i].tool, o, previousExit, log.order)), o.at.ms);
  }

  lemma {:induction false} ResultInOrder(env: Env, log: Log, id: string, o: Outcome, depth: nat)
    requires InTimeOrder(log.facts, o.at.ms) && ApplyResult(env, log, id, o, depth).Some?
    ensures InTimeOrder(ApplyResult(env, log, id, o, depth).value.facts, o.at.ms)
    decreases depth
  {
    if LastTool(log.facts, id) >= 0 {
      var begun := BeginResult(env, log, id, o);
      assert InTimeOrder(begun.facts, o.at.ms) by { BeginInOrder(env, log, id, o); }
      var target := Forward(env, begun, id);
      var forwarded := begun;
      if target.Some? {
        ResultInOrder(env, begun, target.value, o, depth - 1);
        forwarded := ApplyResult(env, begun, target.value, o, depth - 1).value;
      }
      FinishInOrder(env, forwarded, id, o, log.facts[LastTool(log.facts, id)].tool.exitCode);
    }
  }

  lemma ItemInOrder(env: Env, log: Log, item: Item, at: Instant, depth: nat)
    requires InTimeOrder(log.facts, at.ms) && AddItem(env, log, item, at, depth).Some?
    ensures InTimeOrder(AddItem(env, log, item, at, depth).value.facts, at.ms)
  {
    match item
    case AgentText(text, final) => MessageInOrder(env, log, false, text, at, final);
    case UserText(text) => MessageInOrder(env, log, true, text, at, false);
    case ToolUse(id, name, input) => ToolInOrder(env, log, id, name, input, at);
    case CommandExecution(id, command, output, code) =>
      var known := log;
      if LastTool(log.facts, id) < 0 && command.Some? {
        ToolInOrder(env, log, id, "exec_command", command.value, at);
        known := AddTool(env, log, id, "exec_command", command.value, at);
      }
      ResultInOrder(env, known, id, Outcome(output, code, false, at), depth);
    case ToolOutput(id, output, code) => ResultInOrder(env, log, id, Outcome(output, code, false, at), depth);
    case OtherItem =>
  }

  lemma {:induction false} BlocksInOrder(env: Env, log: Log, blocks: seq<Block>, at: Instant, depth: nat)
    requires InTimeOrder(log.facts, at.ms) && AddBlocks(env, log, blocks, at, depth).Some?
    ensures InTimeOrder(AddBlocks(env, log, blocks, at, depth).value.facts, at.ms)
    decreases |blocks|
  {
    if |blocks| > 0 {
      var n := |blocks| - 1;
      BlocksInOrder(env, log, blocks[..n], at, depth);
      var before := AddBlocks(env, log, blocks[..n], at, depth).value;
      match blocks[n]
      case TextBlock =>
      case UseBlock(id, name, input) => ToolInOrder(env, before, id, name, input, at);
      case ResultBlock(id, output, _, _, _) =>
        ResultInOrder(env, before, id, Outcome(output, BlockCode(before, blocks[n]), true, at), depth);
    }
  }

  lemma HeadInOrder(env: Env, log: Log, b: Body, at: Instant)
    requires b.ClaudeRecord? && InTimeOrder(log.facts, at.ms)
    ensures InTimeOrder(ClaudeHead(env, log, b, at).facts, at.ms)
  {
    hide InTimeOrder, AddMessage, RemoveContext, SetContext;
    DropInOrder(log.facts, at.ms);
    var l2 := if b.compactBoundary then log.(facts := RemoveContext(log.facts)) else log;
    if b.usedTokens.Some? {
      ContextInOrder(l2, b.usedTokens.value, 1000000, at);
      l2 := SetContext(l2, b.usedTokens.value, 1000000, at);
    }
    if b.prompt != "" {
      var turn := b.uuid.GetOr(at.text);
      AppendInOrder(l2.facts, TurnFact(Started, at, turn, None));
      MessageInOrder(env, AddFact(l2.(turnId := turn), TurnFact(Started, at, turn, None)), true, b.prompt, at, false);
    }
  }

  lemma MarkInOrder(facts: seq<Fact>, ms: int)
    requires InTimeOrder(facts, ms)
    ensures InTimeOrder(MarkLastReplyFinal(facts), ms)
  {
    MarkedReplies(facts);
  }

  lemma TailInOrder(env: Env, log: Log, b: Body, at: Instant)
    requires b.ClaudeRecord? && InTimeOrder(log.facts, at.ms)
    ensures InTimeOrder(ClaudeTail(env, log, b, at).facts, at.ms)
  {
    var l1 := log;
    if b.reply.Some? {
      MessageInOrder(env, log, false, b.reply.value.0, at, b.reply.value.1);
      l1 := AddMessage(env, log, false, b.reply.value.0, at, b.reply.value.1);
      if b.reply.value.1 {
        AppendInOrder(l1.facts, TurnFact(Completed, at, CurrentTurn(l1, at), None));
        l1 := AddFact(l1, TurnFact(Completed, at, CurrentTurn(l1, at), None));
      }
    }
    if b.stop {
      MarkInOrder(l1.facts, at.ms);
      var l2 := l1.(facts := MarkLastReplyFinal(l1.facts));
      AppendInOrder(l2.facts, TurnFact(Completed, at, CurrentTurn(l2, at), None));
    }
  }

  lemma ClaudeInOrder(env: Env, log: Log, b: Body, at: Instant, depth: nat)
    requires b.ClaudeRecord? && InTimeOrder(log.facts, at.ms) && AddClaude(env, log, b, at, depth).Some?
    ensures InTimeOrder(AddClaude(env, log, b, at, depth).value.facts, at.ms)
  {
    var head := ClaudeHead(env, log, b, at);
    HeadInOrder(env, log, b, at);
    BlocksInOrder(env, head, b.blocks, at, depth);
    TailInOrder(env, AddBlocks(env, head, b.blocks, at, depth).value, b, at);
  }

  lemma EventInOrder(env: Env, log: Log, b: Body, at: Instant)
    requires InTimeOrder(log.facts, at.ms)
    ensures InTimeOrder(AddEvent(env, log, b, at).facts, at.ms)
  {
    match b
    case Compacted => DropInOrder(log.facts, at.ms);
    case TurnEvent(phase, turnId, reason, last) =>
      var turn := turnId.GetOr(CurrentTurn(log, at));
      AppendInOrder(log.facts, TurnFact(phase, at, turn, reason));
      MessageInOrder(env, AddFact(log.(turnId := turn), TurnFact(phase, at, turn, reason)), false, last, at, true);
    case UserMessageEvent(text) => MessageInOrder(env, log, true, text, at, false);
    case TokenCount(tokens) => if tokens.Some? { ContextInOrder(log, tokens.value.0, tokens.value.1, at); }
    case LimitEvent(scope) => AppendInOrder(log.facts, LimitFact(scope, at));
    case _ =>
  }

  lemma BodyInOrder(env: Env, log: Log, b: Body, at: Instant, depth: nat)
    requires InTimeOrder(log.facts, at.ms) && AddBody(env, log, b, at, depth).Some?
    ensures InTimeOrder(AddBody(env, log, b, at, depth).value.facts, at.ms)
  {
    hide AddItem, AddClaude, AddEvent;
    if b.ClaudeRecord? {
      ClaudeInOrder(env, log, b, at, depth);
    } else if b.ItemRecord? {
      ItemInOrder(env, log, b.item, at, depth);
    } else if b.ItemCompletedEvent? {
      ItemInOrder(env, log.(order := log.order + 1), b.item, at, depth);
    } else {
      EventInOrder(env, log, b, at);
    }
  }

  /** The timestamps of the dated records never decrease. */
  predicate NonDecreasing(rs: seq<Record>) {
    forall i, j :: 0 <= i < j < |rs| && rs[i].at.Some? && rs[j].at.Some? ==> rs[i].at.value.ms <= rs[j].at.value.ms
  }

  lemma RecordInOrder(env: Env, since: int, log: Log, r: Record, depth: nat)
    requires r.at.Some? && r.at.value.ms >= since && InTimeOrder(log.facts, r.at.value.ms)
    requires Add(env, since, log, r, depth).Some?
    ensures InTimeOrder(Add(env, since, log, r, depth).value.facts, r.at.value.ms)
  {
    hide AddBody;
    BodyInOrder(env, log.(order := log.order + 1), r.body, r.at.value, depth);
  }

  lemma NothingInOrder(ms: int)
    ensures InTimeOrder([], ms)
  {
  }

  lemma SkippedRecord(env: Env, since: int, log: Log, r: Record, depth: nat)
    requires r.at.None? || r.at.value.ms < since
    ensures Add(env, since, log, r, depth) == Some(log)
  {
  }

  lemma LaterInOrder(facts: seq<Fact>, ms: int, later: int)
    requires InTimeOrder(facts, ms) && ms <= later
    ensures InTimeOrder(facts, later)
  {
  }

  /** Facts stay in time order although completed executions move to the end. */
  lemma {:induction false} StreamInOrder(env: Env, since: int, rs: seq<Record>, depth: nat, ms: int)
    requires NonDecreasing(rs) && AddAll(env, since, EMPTY, rs, depth).Some?
    requires forall i :: 0 <= i < |rs| && rs[i].at.Some? ==> rs[i].at.value.ms <= ms
    ensures InTimeOrder(AddAll(env, since, EMPTY, rs, depth).value.facts, ms)
    decreases |rs|
  {
    hide Add, InTimeOrder;
    if |rs| == 0 {
      NothingInOrder(ms);
    } else {
      var n := |rs| - 1;
      var r := rs[n];
      if r.at.None? || r.at.value.ms < since {
        StreamInOrder(env, since, rs[..n], depth, ms);
        SkippedRecord(env, since, AddAll(env, since, EMPTY, rs[..n], depth).value, r, depth);
      } else {
        StreamInOrder(env, since, rs[..n], depth, r.at.value.ms);
        RecordInOrder(env, since, AddAll(env, since, EMPTY, rs[..n], depth).value, r, depth);
        LaterInOrder(AddAll(env, since, EMPTY, rs, depth).value.facts, r.at.value.ms, ms);
      }
    }
  }
}
