/** What a result does to the calls it reaches: completion, exit code, output, evidence and time,
  * after any chain of forwards. */
module Completions {
  import opened Outcomes
  import opened TranscriptLog
  import opened TranscriptTheorems
  import opened LogCounts

  // ----- Finding a call by its id -----

  function ToolAt(facts: seq<Fact>, id: string): Option<Tool> {
    if LastTool(facts, id) < 0 then None else Some(facts[LastTool(facts, id)].tool)
  }

  predicate IsCall(f: Fact, id: string) {
    f.ToolFact? && f.tool.callId == id
  }

  lemma ToolAtIs(facts: seq<Fact>, id: string, i: nat)
    requires i < |facts| && IsCall(facts[i], id) && forall j :: i < j < |facts| ==> !IsCall(facts[j], id)
    ensures LastTool(facts, id) == i && ToolAt(facts, id) == Some(facts[i].tool)
  {
  }

  lemma NoToolAt(facts: seq<Fact>, id: string)
    requires forall j :: 0 <= j < |facts| ==> !IsCall(facts[j], id)
    ensures ToolAt(facts, id) == None
  {
  }

  lemma AppendedTool(facts: seq<Fact>, f: Fact, id: string)
    ensures ToolAt(facts + [f], id) == if IsCall(f, id) then Some(f.tool) else ToolAt(facts, id)
  {
    assert (facts + [f])[..|facts|] == facts;
  }

  lemma ReplacedTool(facts: seq<Fact>, i: nat, f: Fact, id: string)
    requires i < |facts| && facts[i].ToolFact? && f.ToolFact? && f.tool.callId == facts[i].tool.callId
    requires i == LastTool(facts, f.tool.callId)
    ensures ToolAt(facts[i := f], id) == if IsCall(f, id) then Some(f.tool) else ToolAt(facts, id)
  {
    hide LastTool;
    var k := LastTool(facts, id);
    if IsCall(f, id) {
      ToolAtIs(facts[i := f], id, i);
    } else if k >= 0 {
      ToolAtIs(facts[i := f], id, k);
    } else {
      NoToolAt(facts[i := f], id);
    }
  }

  lemma RemovedTool(facts: seq<Fact>, i: nat, id: string)
    requires i < |facts| && !IsCall(facts[i], id)
    ensures ToolAt(facts[..i] + facts[i + 1..], id) == ToolAt(facts, id)
  {
    hide LastTool;
    var k, rest := LastTool(facts, id), facts[..i] + facts[i + 1..];
    if k >= 0 {
      ToolAtIs(rest, id, if k < i then k else k - 1);
    } else {
      NoToolAt(rest, id);
    }
  }

  lemma MovedTool(facts: seq<Fact>, i: nat, f: Fact, id: string)
    requires i < |facts| && facts[i].ToolFact? && f.ToolFact? && f.tool.callId == facts[i].tool.callId
    ensures ToolAt(MoveToEnd(facts, i, f), id) == if IsCall(f, id) then Some(f.tool) else ToolAt(facts, id)
  {
    hide LastTool, ToolAt;
    AppendedTool(facts[..i] + facts[i + 1..], f, id);
    if !IsCall(f, id) { RemovedTool(facts, i, id); }
  }

  // ----- One call -----

  lemma BegunTool(env: Env, log: Log, id: string, o: Outcome, y: string)
    requires LastTool(log.facts, id) >= 0
    ensures var before := ToolAt(log.facts, id).value;
            ToolAt(BeginResult(env, log, id, o).facts, y) == if y == id then Some(before.(completed := true)) else ToolAt(log.facts, y)
  {
    hide LastTool, ToolAt;
    var i := LastTool(log.facts, id);
    ReplacedTool(log.facts, i, ToolFact(log.facts[i].tool.(completed := true)), y);
    ToolAtLast(log.facts, id);
  }

  lemma ToolAtLast(facts: seq<Fact>, id: string)
    ensures LastTool(facts, id) >= 0 <==> ToolAt(facts, id).Some?
    ensures LastTool(facts, id) >= 0 ==> ToolAt(facts, id) == Some(facts[LastTool(facts, id)].tool)
  {
  }

  lemma FinishedTool(env: Env, log: Log, id: string, o: Outcome, previousExit: Option<int>, y: string)
    requires LastTool(log.facts, id) >= 0
    ensures var before := ToolAt(log.facts, id).value;
            ToolAt(FinishResult(env, log, id, o, previousExit).facts, y)
            == if y == id then Some(Judge(env, before, o, previousExit, log.order)) else ToolAt(log.facts, y)
  {
    hide LastTool, ToolAt, Judge, Moves, MoveToEnd;
    var i := LastTool(log.facts, id);
    var t := log.facts[i].tool;
    var judged := Judge(env, t, o, previousExit, log.order);
    ToolAtLast(log.facts, id);
    JudgeKeepsCall(env, t, o, previousExit, log.order);
    if Moves(t, previousExit, judged.exitCode) {
      MovedTool(log.facts, i, ToolFact(judged), y);
    } else {
      ReplacedTool(log.facts, i, ToolFact(judged), y);
    }
  }

  lemma JudgeKeepsCall(env: Env, t: Tool, o: Outcome, previousExit: Option<int>, order: nat)
    ensures var after := Judge(env, t, o, previousExit, order);
            && after.callId == t.callId && after.name == t.name && after.input == t.input && after.turnId == t.turnId
            && after.mutating == t.mutating && after.startedOrder == t.startedOrder && after.completed == t.completed
  {
    hide PriorFailure, CommandsOnly, Moves;
  }

  // ----- Chains do not come back -----

  lemma {:induction false} ReachedEnds(env: Env, log: Log, id: string, depth: nat, y: string)
    requires ChainEnds(env, log, id, depth) && y in ChainCalls(env, log, id, depth)
    ensures ChainEnds(env, log, y, depth)
    decreases depth
  {
    if y != id {
      var target := Forward(env, log, id).value;
      ReachedEnds(env, log, target, depth - 1, y);
      DeeperEnds(env, log, y, depth - 1);
    }
  }

  lemma {:induction false} DeeperEnds(env: Env, log: Log, id: string, depth: nat)
    requires ChainEnds(env, log, id, depth)
    ensures ChainEnds(env, log, id, depth + 1)
    decreases depth
  {
    if Forward(env, log, id).Some? { DeeperEnds(env, log, Forward(env, log, id).value, depth - 1); }
  }

  /** A chain that ends never reaches the call it starts from again. */
  lemma {:induction false} ChainIsAcyclic(env: Env, log: Log, id: string, depth: nat)
    requires ChainEnds(env, log, id, depth) && Forward(env, log, id).Some?
    requires id in ChainCalls(env, log, Forward(env, log, id).value, depth - 1)
    ensures false
    decreases depth
  {
    var target := Forward(env, log, id).value;
    ReachedEnds(env, log, target, depth - 1, id);
    assert ChainEnds(env, log, id, depth - 1);
    SameReach(env, log, target, depth - 1);
    ChainIsAcyclic(env, log, id, depth - 1);
  }

  /** Where a chain ends, more depth reaches no more calls. */
  lemma {:induction false} SameReach(env: Env, log: Log, id: string, depth: nat)
    requires ChainEnds(env, log, id, depth)
    ensures depth > 0 && ChainEnds(env, log, id, depth - 1) ==> ChainCalls(env, log, id, depth) == ChainCalls(env, log, id, depth - 1)
    decreases depth
  {
    if depth > 0 && ChainEnds(env, log, id, depth - 1) && Forward(env, log, id).Some? {
      SameReach(env, log, Forward(env, log, id).value, depth - 1);
    }
  }

  // ----- What a result means for a call -----

  /** The call is judged by the evidence of its output. */
  predicate IsJudged(t: Tool) {
    t.mutating || IsExecution(t.name)
  }

  function EvidenceOf(env: Env, t: Tool, o: Outcome): EvidenceResult {
    env.outputEvidence(o.output, t.input, t.name, o.code, o.implicit)
  }

  predicate IsFailedTest(e: Evidence) {
    e.kind.TestEvidence? && e.exitCode.Some? && e.exitCode.value != 0
  }

  /** The first failed test of the evidence. */
  predicate FirstFailedTest(evidence: seq<Evidence>, e: Evidence) {
    exists i :: 0 <= i < |evidence| && evidence[i] == e && IsFailedTest(e) && forall j :: 0 <= j < i ==> !IsFailedTest(evidence[j])
  }

  /** The call comes to an end: with an exit code, or, if it is no execution, with evidence of a file. */
  predicate Ends(env: Env, t: Tool, o: Outcome) {
    && IsJudged(t)
    && (EvidenceOf(env, t, o).exitCode.Some?
        || (!IsExecution(t.name) && exists e :: e in EvidenceOf(env, t, o).facts && e.kind.FileEvidence?))
  }

  /** The completion is recorded when the call ends for the first time or with another exit code; otherwise the old one stays. */
  predicate Completes(env: Env, t: Tool, after: Tool, o: Outcome, order: nat) {
    && after.completed
    && after.completedOrder == if Ends(env, t, o) && (t.completedOrder.None? || t.exitCode != EvidenceOf(env, t, o).exitCode)
                               then Some(order) else t.completedOrder
  }

  /** The output, its exit code and the evidence: a change keeps everything and its first failed test, a mere execution only
    * the commands, any other call nothing. */
  ghost predicate Proves(env: Env, t: Tool, after: Tool, o: Outcome) {
    var r := EvidenceOf(env, t, o);
    && after.exitCode == (if IsJudged(t) then r.exitCode else o.code)
    && after.outputHead == Some(if IsJudged(t) then r.outputHead else env.textHead(o.output))
    && (t.mutating ==> r.facts <= after.evidence)
    && (!IsJudged(t) ==> after.evidence == [])
    && forall e :: e in after.evidence <==>
         IsJudged(t) && ((e in r.facts && (t.mutating || e.kind.CommandEvidence?)) || (t.mutating && FirstFailedTest(t.evidence, e)))
  }

  /** An execution takes the time of the result that gives it a new exit code; everything else about a call stays. */
  predicate StaysItself(env: Env, t: Tool, after: Tool, o: Outcome) {
    && after.callId == t.callId && after.name == t.name && after.input == t.input && after.turnId == t.turnId
    && after.mutating == t.mutating && after.startedOrder == t.startedOrder
    && after.at == if IsExecution(t.name) && EvidenceOf(env, t, o).exitCode.Some? && t.exitCode != EvidenceOf(env, t, o).exitCode
                   then o.at else t.at
  }

  ghost predicate Received(env: Env, t: Tool, after: Tool, o: Outcome, order: nat) {
    Completes(env, t, after, o, order) && Proves(env, t, after, o) && StaysItself(env, t, after, o)
  }

  lemma {:induction false} PriorFailureIs(evidence: seq<Evidence>, e: Evidence)
    ensures e in PriorFailure(evidence) <==> FirstFailedTest(evidence, e)
    ensures e in PriorFailure(evidence) ==> e.kind.TestEvidence?
  {
    if |evidence| > 0 {
      PriorFailureIs(evidence[1..], e);
      if IsFailedTest(evidence[0]) {
        assert FirstFailedTest(evidence, evidence[0]);
      } else {
        if FirstFailedTest(evidence[1..], e) {
          var i :| 0 <= i < |evidence[1..]| && evidence[1..][i] == e && IsFailedTest(e) && forall j :: 0 <= j < i ==> !IsFailedTest(evidence[1..][j]);
          assert evidence[i + 1] == e && forall j :: 0 < j < |evidence| ==> evidence[j] == evidence[1..][j - 1];
        }
        if FirstFailedTest(evidence, e) {
          var i :| 0 <= i < |evidence| && evidence[i] == e && IsFailedTest(e) && forall j :: 0 <= j < i ==> !IsFailedTest(evidence[j]);
          assert i > 0 && evidence[1..][i - 1] == e && forall j :: 0 <= j < i - 1 ==> evidence[1..][j] == evidence[j + 1];
        }
      }
    }
  }

  lemma {:induction false} CommandsOnlyAre(evidence: seq<Evidence>, e: Evidence)
    ensures e in CommandsOnly(evidence) <==> e in evidence && e.kind.CommandEvidence?
  {
    if |evidence| > 0 {
      CommandsOnlyAre(evidence[1..], e);
      assert evidence == [evidence[0]] + evidence[1..];
    }
  }

  lemma JudgedProves(env: Env, t: Tool, o: Outcome, order: nat)
    ensures Proves(env, t, Judge(env, t.(completed := true), o, t.exitCode, order), o)
  {
    hide PriorFailure, CommandsOnly, FirstFailedTest, Moves;
    var r := EvidenceOf(env, t, o);
    var all := r.facts + PriorFailure(t.evidence);
    forall e
      ensures e in all <==> e in r.facts || FirstFailedTest(t.evidence, e)
      ensures e in CommandsOnly(all) <==> e in r.facts && e.kind.CommandEvidence?
    {
      PriorFailureIs(t.evidence, e);
      CommandsOnlyAre(all, e);
    }
  }

  lemma JudgedCompletes(env: Env, t: Tool, o: Outcome, order: nat)
    ensures Completes(env, t, Judge(env, t.(completed := true), o, t.exitCode, order), o, order)
  {
    hide PriorFailure, CommandsOnly, Moves;
    var r := EvidenceOf(env, t, o);
    var all := r.facts + PriorFailure(t.evidence);
    forall e ensures e in PriorFailure(t.evidence) ==> !e.kind.FileEvidence? { PriorFailureIs(t.evidence, e); }
    if exists e :: e in r.facts && e.kind.FileEvidence? {
      var e :| e in r.facts && e.kind.FileEvidence?;
      assert e in all;
    }
  }

  lemma JudgedIsReceived(env: Env, t: Tool, o: Outcome, order: nat)
    ensures Received(env, t, Judge(env, t.(completed := true), o, t.exitCode, order), o, order)
  {
    hide PriorFailure, CommandsOnly, FirstFailedTest, Completes, Proves;
    JudgedCompletes(env, t, o, order);
    JudgedProves(env, t, o, order);
  }

  // ----- A whole result -----

  /** Every call that a result reaches receives it, and every other call stays as it was. */
  lemma {:induction false} ResultIsReceived(env: Env, log: Log, id: string, o: Outcome, depth: nat, y: string)
    requires ChainEnds(env, log, id, depth)
    ensures ApplyResult(env, log, id, o, depth).Some?
    ensures var after := ApplyResult(env, log, id, o, depth).value;
            && (ToolAt(after.facts, y).Some? <==> ToolAt(log.facts, y).Some?)
            && (ToolAt(log.facts, y).Some? ==>
                  if y in ChainCalls(env, log, id, depth)
                  then Received(env, ToolAt(log.facts, y).value, ToolAt(after.facts, y).value, o, log.order)
                  else ToolAt(after.facts, y) == ToolAt(log.facts, y))
    decreases depth
  {
    hide Received, Judge, BeginResult, FinishResult, Forward, LastTool, ToolAt;
    ResultTerminatesIff(env, log, id, o, depth);
    ToolAtLast(log.facts, id);
    if LastTool(log.facts, id) < 0 {
      NoForward(env, log, id);
    } else {
      var t := ToolAt(log.facts, id).value;
      var begun := BeginResult(env, log, id, o);
      BegunTool(env, log, id, o, y);
      BegunTool(env, log, id, o, id);
      BeginForwards(env, log, id, o);
      var target, middle := Forward(env, log, id), begun;
      if target.Some? {
        ChainOfBegun(env, log, id, o, depth - 1);
        ResultIsReceived(env, begun, target.value, o, depth - 1, y);
        ResultIsReceived(env, begun, target.value, o, depth - 1, id);
        middle := ApplyResult(env, begun, target.value, o, depth - 1).value;
        ResultKeepsCounts(env, begun, target.value, o, depth - 1);
        if id in ChainCalls(env, log, target.value, depth - 1) { ChainIsAcyclic(env, log, id, depth); }
      }
      BegunCounts(env, log, id, o);
      ToolAtLast(middle.facts, id);
      FinishedTool(env, middle, id, o, t.exitCode, y);
      JudgedIsReceived(env, t, o, log.order);
    }
  }

  lemma NoForward(env: Env, log: Log, id: string)
    requires LastTool(log.facts, id) < 0
    ensures Forward(env, log, id).None?
  {
  }

  lemma BegunCounts(env: Env, log: Log, id: string, o: Outcome)
    requires LastTool(log.facts, id) >= 0
    ensures BeginResult(env, log, id, o).order == log.order
  {
  }

  /** A call that is forwarded announces no session, so the rest of the chain is the same for the call once begun. */
  lemma ChainOfBegun(env: Env, log: Log, id: string, o: Outcome, depth: nat)
    requires LastTool(log.facts, id) >= 0 && Forward(env, log, id).Some?
    ensures var begun, target := BeginResult(env, log, id, o), Forward(env, log, id).value;
            && ChainCalls(env, begun, target, depth) == ChainCalls(env, log, target, depth)
            && (ChainEnds(env, begun, target, depth) <==> ChainEnds(env, log, target, depth))
  {
    BeginForwards(env, log, id, o);
    BeginKeepsCalls(env, log, id, o);
    SameCallsSameReach(env, BeginResult(env, log, id, o), log, Forward(env, log, id).value, depth);
    SameCallsSameChain(env, BeginResult(env, log, id, o), log, Forward(env, log, id).value, depth);
  }

  // ----- Whole records -----

  /** Both logs know the same calls and sessions. */
  ghost predicate SameTools(a: Log, b: Log) {
    a.sessions == b.sessions && forall y :: ToolAt(a.facts, y) == ToolAt(b.facts, y)
  }

  lemma SameToolsForward(env: Env, a: Log, b: Log, id: string)
    requires SameTools(a, b)
    ensures Forward(env, a, id) == Forward(env, b, id)
  {
    assert ToolAt(a.facts, id) == ToolAt(b.facts, id);
  }

  lemma {:induction false} SameToolsSameChain(env: Env, a: Log, b: Log, id: string, depth: nat)
    requires SameTools(a, b)
    ensures ChainCalls(env, a, id, depth) == ChainCalls(env, b, id, depth)
    ensures ChainEnds(env, a, id, depth) <==> ChainEnds(env, b, id, depth)
    decreases depth
  {
    hide Forward, SameTools;
    SameToolsForward(env, a, b, id);
    if depth > 0 && Forward(env, a, id).Some? { SameToolsSameChain(env, a, b, Forward(env, a, id).value, depth - 1); }
  }

  /** The result o of the call id was received, under the given order number, by exactly the calls its chain reaches. */
  ghost predicate ReceivedBy(env: Env, log: Log, after: Log, id: string, o: Outcome, depth: nat, order: nat) {
    forall y :: ToolAt(log.facts, y).Some? ==>
      && ToolAt(after.facts, y).Some?
      && if y in ChainCalls(env, log, id, depth)
         then Received(env, ToolAt(log.facts, y).value, ToolAt(after.facts, y).value, o, order)
         else ToolAt(after.facts, y) == ToolAt(log.facts, y)
  }

  lemma AppliedIsReceived(env: Env, log: Log, counted: Log, id: string, o: Outcome, depth: nat)
    requires SameTools(log, counted) && ChainEnds(env, log, id, depth)
    ensures ApplyResult(env, counted, id, o, depth).Some?
    ensures ReceivedBy(env, log, ApplyResult(env, counted, id, o, depth).value, id, o, depth, counted.order)
  {
    hide Received, ToolAt;
    SameToolsSameChain(env, log, counted, id, depth);
    ResultIsReceived(env, counted, id, o, depth, id);
    forall y ensures ToolAt(log.facts, y) == ToolAt(counted.facts, y) { }
    forall y | ToolAt(log.facts, y).Some? { ResultIsReceived(env, counted, id, o, depth, y); }
  }

  /** A tool output of a Codex transcript, as a response item or as a completed item. */
  lemma OutputIsReceived(env: Env, since: int, log: Log, at: Instant, id: string, output: Json, code: Option<int>, depth: nat)
    requires at.ms >= since && ChainEnds(env, log, id, depth)
    ensures var o := Outcome(output, code, false, at);
            var item := Add(env, since, log, Record(Some(at), ItemRecord(ToolOutput(id, output, code))), depth);
            var completed := Add(env, since, log, Record(Some(at), ItemCompletedEvent(ToolOutput(id, output, code))), depth);
            && item.Some? && ReceivedBy(env, log, item.value, id, o, depth, log.order + 1)
            && completed.Some? && ReceivedBy(env, log, completed.value, id, o, depth, log.order + 2)
  {
    hide ReceivedBy, ApplyResult, ToolAt;
    var o := Outcome(output, code, false, at);
    AppliedIsReceived(env, log, log.(order := log.order + 1), id, o, depth);
    AppliedIsReceived(env, log, log.(order := log.order + 2), id, o, depth);
  }

  /** The log once a command ran that no call announced: it is a call of its own from then on. */
  function WithCommand(env: Env, log: Log, id: string, command: Json, at: Instant): Log {
    var t := Tool(id, "exec_command", command, at, log.turnId, env.isMutatingTool("exec_command", command), log.order + 1,
                  false, None, None, None, []);
    log.(facts := log.facts + [ToolFact(t)])
  }

  lemma CommandEnds(env: Env, log: Log, id: string, command: Json, at: Instant, depth: nat)
    ensures ChainEnds(env, WithCommand(env, log, id, command, at), id, depth)
    ensures ChainCalls(env, WithCommand(env, log, id, command, at), id, depth) == {id}
  {
    ExecIsNotWriteStdin("exec_command");
  }

  /** An executed command of a Codex transcript: a result for its call, which is made up first if there is none. */
  lemma CommandIsReceived(env: Env, since: int, log: Log, at: Instant, id: string, command: Option<Json>, output: Json, code: Option<int>, depth: nat)
    requires at.ms >= since
    ensures var o := Outcome(output, code, false, at);
            var after := Add(env, since, log, Record(Some(at), ItemRecord(CommandExecution(id, command, output, code))), depth);
            if ToolAt(log.facts, id).None? && command.Some? && id != ""
            then after.Some? && ReceivedBy(env, WithCommand(env, log, id, command.value, at), after.value, id, o, depth, log.order + 1)
                 && ChainCalls(env, WithCommand(env, log, id, command.value, at), id, depth) == {id}
            else ChainEnds(env, log, id, depth) ==> after.Some? && ReceivedBy(env, log, after.value, id, o, depth, log.order + 1)
  {
    hide ReceivedBy, ApplyResult, ToolAt, ChainEnds, ChainCalls;
    var o, counted := Outcome(output, code, false, at), log.(order := log.order + 1);
    ToolAtLast(log.facts, id);
    if ToolAt(log.facts, id).None? && command.Some? && id != "" {
      var made := WithCommand(env, log, id, command.value, at);
      CommandEnds(env, log, id, command.value, at, depth);
      AppliedIsReceived(env, made, made.(order := log.order + 1), id, o, depth);
      assert AddTool(env, counted, id, "exec_command", command.value, at) == made.(order := log.order + 1);
    } else if ChainEnds(env, log, id, depth) {
      AppliedIsReceived(env, log, counted, id, o, depth);
    }
  }

  lemma ContextKeepsTools(facts: seq<Fact>, y: string)
    ensures ToolAt(RemoveContext(facts), y) == ToolAt(facts, y)
  {
    var i := FirstContext(facts);
    if i < |facts| { RemovedTool(facts, i, y); }
  }

  lemma MessageKeepsTools(env: Env, log: Log, fromUser: bool, text: string, at: Instant, final: bool)
    ensures SameTools(log, AddMessage(env, log, fromUser, text, at, final))
  {
    hide ToolAt;
    var after := AddMessage(env, log, fromUser, text, at, final);
    if after != log {
      forall y ensures ToolAt(after.facts, y) == ToolAt(log.facts, y) {
        AppendedTool(log.facts, after.facts[|log.facts|], y);
      }
    }
  }

  lemma FactKeepsTools(log: Log, f: Fact)
    requires !f.ToolFact?
    ensures SameTools(log, AddFact(log, f))
  {
    hide ToolAt;
    forall y ensures ToolAt(AddFact(log, f).facts, y) == ToolAt(log.facts, y) {
      AppendedTool(log.facts, f, y);
    }
  }

  lemma SameToolsTwice(a: Log, b: Log, c: Log)
    requires SameTools(a, b) && SameTools(b, c)
    ensures SameTools(a, c)
  {
  }

  lemma ContextChangeKeepsTools(log: Log, used: int, window: int, at: Instant)
    ensures SameTools(log, log.(facts := RemoveContext(log.facts)))
    ensures SameTools(log, SetContext(log, used, window, at))
  {
    hide ToolAt, RemoveContext;
    forall y
      ensures ToolAt(RemoveContext(log.facts), y) == ToolAt(log.facts, y)
      ensures ToolAt(SetContext(log, used, window, at).facts, y) == ToolAt(log.facts, y)
    {
      ContextKeepsTools(log.facts, y);
      AppendedTool(RemoveContext(log.facts), ContextFact(used, window, at), y);
    }
  }

  lemma HeadKeepsTools(env: Env, log: Log, b: Body, at: Instant)
    requires b.ClaudeRecord?
    ensures SameTools(log, ClaudeHead(env, log, b, at)) && ClaudeHead(env, log, b, at).order == log.order
  {
    hide SameTools, RemoveContext, SetContext, AddMessage;
    ContextChangeKeepsTools(log, 0, 0, at);
    var l1 := if b.compactBoundary then log.(facts := RemoveContext(log.facts)) else log;
    KnowsItself(log);
    ContextChangeKeepsTools(l1, b.usedTokens.GetOr(0), 1000000, at);
    KnowsItself(l1);
    var l2 := if b.usedTokens.Some? then SetContext(l1, b.usedTokens.value, 1000000, at) else l1;
    SameToolsTwice(log, l1, l2);
    HeadCounts(env, log, b, at);
    if b.prompt != "" {
      var turn := b.uuid.GetOr(at.text);
      var l3 := l2.(turnId := turn);
      TurnKeepsTools(l2, turn);
      var started := TurnFact(Started, at, turn, None);
      FactKeepsTools(l3, started);
      MessageKeepsTools(env, AddFact(l3, started), true, b.prompt, at, false);
      SameToolsTwice(log, l2, l3);
      SameToolsTwice(log, l3, AddFact(l3, started));
      SameToolsTwice(log, AddFact(l3, started), ClaudeHead(env, log, b, at));
    }
  }

  lemma KnowsItself(log: Log)
    ensures SameTools(log, log)
  {
  }

  lemma TurnKeepsTools(log: Log, turn: string)
    ensures SameTools(log, log.(turnId := turn))
  {
  }

  lemma {:induction false} MarkKeepsTools(facts: seq<Fact>, y: string)
    ensures ToolAt(MarkLastReplyFinal(facts), y) == ToolAt(facts, y)
  {
    hide ToolAt;
    if |facts| > 0 {
      var n := |facts| - 1;
      var marked := if facts[n].AgentMessage? then facts[n].(final := true) else facts[n];
      AppendedTool(facts[..n], facts[n], y);
      AppendedTool(facts[..n], marked, y);
      AppendedTool(MarkLastReplyFinal(facts[..n]), facts[n], y);
      MarkKeepsTools(facts[..n], y);
      assert facts == facts[..n] + [facts[n]];
    }
  }

  lemma MarkedKeepsTools(log: Log)
    ensures SameTools(log, log.(facts := MarkLastReplyFinal(log.facts)))
  {
    hide ToolAt, MarkLastReplyFinal;
    forall y ensures ToolAt(MarkLastReplyFinal(log.facts), y) == ToolAt(log.facts, y) { MarkKeepsTools(log.facts, y); }
  }

  lemma TailKeepsTools(env: Env, log: Log, b: Body, at: Instant)
    requires b.ClaudeRecord?
    ensures SameTools(log, ClaudeTail(env, log, b, at))
  {
    hide SameTools, MarkLastReplyFinal, AddMessage, TurnClosed;
    KnowsItself(log);
    var l1 := log;
    if b.reply.Some? {
      var said := AddMessage(env, log, false, b.reply.value.0, at, b.reply.value.1);
      MessageKeepsTools(env, log, false, b.reply.value.0, at, b.reply.value.1);
      var done := TurnFact(Completed, at, CurrentTurn(said, at), None);
      FactKeepsTools(said, done);
      SameToolsTwice(log, said, AddFact(said, done));
      l1 := if b.reply.value.1 then AddFact(said, done) else said;
    }
    if b.stop {
      var l2 := l1.(facts := MarkLastReplyFinal(l1.facts));
      MarkedKeepsTools(l1);
      SameToolsTwice(log, l1, l2);
      var done := TurnFact(Completed, at, CurrentTurn(l2, at), None);
      FactKeepsTools(l2, done);
      SameToolsTwice(log, l2, AddFact(l2, done));
    }
  }

  /** A tool result of a Claude transcript. */
  lemma BlockIsReceived(env: Env, since: int, log: Log, at: Instant, body: Body, depth: nat)
    requires at.ms >= since && body.ClaudeRecord? && |body.blocks| == 1 && body.blocks[0].ResultBlock?
    requires ChainEnds(env, log, body.blocks[0].callId, depth)
    ensures var b := body.blocks[0];
            var after := Add(env, since, log, Record(Some(at), body), depth);
            after.Some? && ReceivedBy(env, log, after.value, b.callId, Outcome(b.output, BlockCode(log, b), true, at), depth, log.order + 1)
  {
    hide ReceivedBy, ApplyResult, ClaudeHead, ClaudeTail, SameTools, BlockCode, ToolAt;
    var b := body.blocks[0];
    var counted := log.(order := log.order + 1);
    var head := ClaudeHead(env, counted, body, at);
    CountedKeepsTools(log);
    HeadKeepsTools(env, counted, body, at);
    SameToolsTwice(log, counted, head);
    SameCode(log, head, b);
    var o := Outcome(b.output, BlockCode(log, b), true, at);
    AppliedIsReceived(env, log, head, b.callId, o, depth);
    var applied := ApplyResult(env, head, b.callId, o, depth).value;
    assert body.blocks == [b] && body.blocks[..0] == [];
    assert AddBlocks(env, head, [], at, depth) == Some(head);
    assert AddBlocks(env, head, body.blocks, at, depth) == Some(applied);
    TailKeepsTools(env, applied, body, at);
    ReceivedInTail(env, log, applied, ClaudeTail(env, applied, body, at), b.callId, o, depth, log.order + 1);
  }

  lemma CountedKeepsTools(log: Log)
    ensures SameTools(log, log.(order := log.order + 1))
  {
  }

  lemma SameCode(a: Log, b: Log, block: Block)
    requires SameTools(a, b) && block.ResultBlock?
    ensures BlockCode(a, block) == BlockCode(b, block)
  {
    assert ToolAt(a.facts, block.callId) == ToolAt(b.facts, block.callId);
  }

  lemma ReceivedInTail(env: Env, log: Log, after: Log, tail: Log, id: string, o: Outcome, depth: nat, order: nat)
    requires ReceivedBy(env, log, after, id, o, depth, order) && SameTools(after, tail)
    ensures ReceivedBy(env, log, tail, id, o, depth, order)
  {
    hide Received, ToolAt, ChainCalls;
    forall y ensures ToolAt(tail.facts, y) == ToolAt(after.facts, y) { }
  }

  /** The first successful result of a Bash call records the order of its own record. */
  lemma FirstResultCompletes(env: Env, since: int, log: Log, at: Instant, body: Body, depth: nat)
    requires at.ms >= since && body.ClaudeRecord? && |body.blocks| == 1 && body.blocks[0].ResultBlock?
    requires var t := ToolAt(log.facts, body.blocks[0].callId);
             && t.Some? && t.value.name == "Bash" && t.value.completedOrder.None?
             && EvidenceOf(env, t.value, Outcome(body.blocks[0].output, BlockCode(log, body.blocks[0]), true, at)).exitCode == Some(0)
    ensures var id := body.blocks[0].callId;
            var after := Add(env, since, log, Record(Some(at), body), depth);
            after.Some? && ToolAt(after.value.facts, id).Some? && ToolAt(after.value.facts, id).value.completedOrder == Some(log.order + 1)
  {
    hide ToolAt, Add, BlockCode;
    var id := body.blocks[0].callId;
    BashIsNotForwarded(env, log, id);
    BlockIsReceived(env, since, log, at, body, depth);
  }

  lemma BashIsNotForwarded(env: Env, log: Log, id: string)
    requires ToolAt(log.facts, id).Some? && ToolAt(log.facts, id).value.name == "Bash"
    ensures Forward(env, log, id).None?
  {
    assert "Bash"[3] == 'h' && "_write_stdin"[11] == 'n' && ".write_stdin"[11] == 'n';
  }
}
