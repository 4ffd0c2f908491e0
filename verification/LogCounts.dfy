/** What a fact log keeps of the records fed to it besides their facts: how many there were, how many were unknown, and the
  * turn; and that turn facts stay. */
module LogCounts {
  import opened Outcomes
  import opened TranscriptLog
  import opened LedgerFacts

  // ----- What a log remembers of the number of records -----

  /** How often a record is counted: a completed item arrives as a record inside a record. */
  function Weight(since: int, step: Step): nat {
    if !step.Taken? || step.record.at.None? || step.record.at.value.ms < since then 0
    else if step.record.body.ItemCompletedEvent? then 2 else 1
  }

  function Weights(since: int, steps: seq<Step>): nat
    decreases |steps|
  {
    if |steps| == 0 then 0 else Weights(since, steps[..|steps| - 1]) + Weight(since, steps[|steps| - 1])
  }

  lemma {:induction false} ResultKeepsCounts(env: Env, log: Log, id: string, o: Outcome, depth: nat)
    requires ApplyResult(env, log, id, o, depth).Some?
    ensures var after := ApplyResult(env, log, id, o, depth).value;
            after.order == log.order && after.unknownRecords == log.unknownRecords && after.turnId == log.turnId
    decreases depth
  {
    hide Judge, Moves, MoveToEnd, Forward, LastTool;
    if LastTool(log.facts, id) >= 0 {
      var begun := BeginResult(env, log, id, o);
      var target := Forward(env, begun, id);
      if target.Some? { ResultKeepsCounts(env, begun, target.value, o, depth - 1); }
    }
  }

  lemma ItemKeepsCounts(env: Env, log: Log, item: Item, at: Instant, depth: nat)
    requires AddItem(env, log, item, at, depth).Some?
    ensures var after := AddItem(env, log, item, at, depth).value;
            after.order == log.order && after.unknownRecords == log.unknownRecords && after.turnId == log.turnId
  {
    hide ApplyResult;
    match item
    case CommandExecution(id, command, output, code) =>
      var known := if LastTool(log.facts, id) < 0 && command.Some? then AddTool(env, log, id, "exec_command", command.value, at)
                   else log;
      ResultKeepsCounts(env, known, id, Outcome(output, code, false, at), depth);
    case ToolOutput(id, output, code) => ResultKeepsCounts(env, log, id, Outcome(output, code, false, at), depth);
    case _ =>
  }

  lemma {:induction false} BlocksKeepCounts(env: Env, log: Log, blocks: seq<Block>, at: Instant, depth: nat)
    requires AddBlocks(env, log, blocks, at, depth).Some?
    ensures var after := AddBlocks(env, log, blocks, at, depth).value;
            after.order == log.order && after.unknownRecords == log.unknownRecords && after.turnId == log.turnId
    decreases |blocks|
  {
    hide ApplyResult;
    if |blocks| > 0 {
      var n := |blocks| - 1;
      BlocksKeepCounts(env, log, blocks[..n], at, depth);
      var before := AddBlocks(env, log, blocks[..n], at, depth).value;
      match blocks[n]
      case ResultBlock(id, output, _, _, _) =>
        ResultKeepsCounts(env, before, id, Outcome(output, BlockCode(before, blocks[n]), true, at), depth);
      case _ =>
    }
  }

  /** The turn a record leaves behind. */
  function NextTurn(turn: string, b: Body, at: Instant): string {
    if b.TurnEvent? then b.turnId.GetOr(if turn == "" then at.text else turn)
    else if b.ClaudeRecord? && b.prompt != "" then b.uuid.GetOr(at.text)
    else turn
  }

  lemma HeadCounts(env: Env, log: Log, b: Body, at: Instant)
    requires b.ClaudeRecord?
    ensures var after := ClaudeHead(env, log, b, at);
            after.order == log.order && after.unknownRecords == log.unknownRecords && after.turnId == NextTurn(log.turnId, b, at)
  {
    hide RemoveContext;
  }

  lemma TailCounts(env: Env, log: Log, b: Body, at: Instant)
    requires b.ClaudeRecord?
    ensures var after := ClaudeTail(env, log, b, at);
            after.order == log.order && after.unknownRecords == log.unknownRecords && after.turnId == log.turnId
  {
    hide MarkLastReplyFinal, TurnClosed;
  }

  lemma ClaudeCounts(env: Env, log: Log, b: Body, at: Instant, depth: nat)
    requires b.ClaudeRecord? && AddClaude(env, log, b, at, depth).Some?
    ensures var after := AddClaude(env, log, b, at, depth).value;
            after.order == log.order && after.unknownRecords == log.unknownRecords && after.turnId == NextTurn(log.turnId, b, at)
  {
    hide AddBlocks, ClaudeHead, ClaudeTail, NextTurn;
    var head := ClaudeHead(env, log, b, at);
    HeadCounts(env, log, b, at);
    BlocksKeepCounts(env, head, b.blocks, at, depth);
    TailCounts(env, AddBlocks(env, head, b.blocks, at, depth).value, b, at);
  }

  lemma BodyCounts(env: Env, log: Log, b: Body, at: Instant, depth: nat)
    requires AddBody(env, log, b, at, depth).Some?
    ensures var after := AddBody(env, log, b, at, depth).value;
            && after.order == log.order + (if b.ItemCompletedEvent? then 1 else 0)
            && after.unknownRecords == log.unknownRecords + (if b.UnknownRecord? then 1 else 0)
            && after.turnId == NextTurn(log.turnId, b, at)
  {
    hide AddClaude, RemoveContext, AddItem;
    if b.ClaudeRecord? {
      ClaudeCounts(env, log, b, at, depth);
    } else if b.ItemRecord? {
      ItemKeepsCounts(env, log, b.item, at, depth);
    } else if b.ItemCompletedEvent? {
      ItemKeepsCounts(env, log.(order := log.order + 1), b.item, at, depth);
    }
  }

  function Unknowns(since: int, step: Step): nat {
    if step.Unreadable? then 1
    else if Weight(since, step) > 0 && step.record.body.UnknownRecord? then 1 else 0
  }

  function AllUnknowns(since: int, steps: seq<Step>): nat
    decreases |steps|
  {
    if |steps| == 0 then 0 else AllUnknowns(since, steps[..|steps| - 1]) + Unknowns(since, steps[|steps| - 1])
  }

  function TurnAfter(since: int, turn: string, step: Step): string {
    if Weight(since, step) == 0 then turn else NextTurn(turn, step.record.body, step.record.at.value)
  }

  function TurnOf(since: int, turn: string, steps: seq<Step>): string
    decreases |steps|
  {
    if |steps| == 0 then turn else TurnAfter(since, TurnOf(since, turn, steps[..|steps| - 1]), steps[|steps| - 1])
  }

  /** The record count, the unknown count and the turn depend on nothing else in the log. */
  lemma {:induction false} FeedCounts(r: Lens, since: int, log: Log, steps: seq<Step>)
    requires Feed(r, since, log, steps).Some?
    ensures var after := Feed(r, since, log, steps).value;
            && after.order == log.order + Weights(since, steps)
            && after.unknownRecords == log.unknownRecords + AllUnknowns(since, steps)
            && after.turnId == TurnOf(since, log.turnId, steps)
    decreases |steps|
  {
    hide AddBody, NextTurn;
    if |steps| > 0 {
      var n := |steps| - 1;
      FeedCounts(r, since, log, steps[..n]);
      var before := Feed(r, since, log, steps[..n]).value;
      if Weight(since, steps[n]) > 0 {
        var record := steps[n].record;
        BodyCounts(r.env, before.(order := before.order + 1), record.body, record.at.value, r.depth);
      }
    }
  }

  lemma {:induction false} TurnOfConcat(since: int, turn: string, a: seq<Step>, b: seq<Step>)
    ensures TurnOf(since, turn, a + b) == TurnOf(since, TurnOf(since, turn, a), b)
    decreases |b|
  {
    hide TurnAfter;
    if |b| == 0 {
      assert a + b == a;
    } else {
      var n := |b| - 1;
      TurnOfConcat(since, turn, a, b[..n]);
      assert (a + b)[..|a| + n] == a + b[..n];
    }
  }

  lemma {:induction false} UnknownsConcat(since: int, a: seq<Step>, b: seq<Step>)
    ensures AllUnknowns(since, a + b) == AllUnknowns(since, a) + AllUnknowns(since, b)
    decreases |b|
  {
    hide Unknowns;
    if |b| == 0 {
      assert a + b == a;
    } else {
      var n := |b| - 1;
      UnknownsConcat(since, a, b[..n]);
      assert (a + b)[..|a| + n] == a + b[..n];
    }
  }

  // ----- Turn facts stay -----

  /** The record changes the turn, which leaves a turn fact of its own time. */
  predicate SetsTurn(since: int, step: Step) {
    Weight(since, step) > 0 && (step.record.body.TurnEvent? || (step.record.body.ClaudeRecord? && step.record.body.prompt != ""))
  }

  predicate HasTurnAt(log: Log, at: Instant) {
    exists f :: f in log.facts && f.TurnFact? && f.turnAt == at
  }

  /** Turn facts are never removed. */
  predicate KeepsTurns(a: Log, b: Log) {
    forall f :: f in a.facts && f.TurnFact? ==> f in b.facts
  }

  lemma TurnsOf(a: seq<Fact>, i: nat, f: Fact)
    requires i < |a| && !a[i].TurnFact?
    ensures forall g :: g in a && g.TurnFact? ==> g in a[i := f] && g in MoveToEnd(a, i, f) && g in a[..i] + a[i + 1..]
  {
    forall g | g in a && g.TurnFact? ensures g in a[i := f] && g in MoveToEnd(a, i, f) && g in a[..i] + a[i + 1..] {
      var k :| 0 <= k < |a| && a[k] == g;
      assert k != i && a[i := f][k] == g;
      assert g in a[..i] + a[i + 1..] by {
        if k < i { assert a[..i][k] == g; } else { assert a[i + 1..][k - i - 1] == g; }
      }
    }
  }

  lemma {:induction false} ResultKeepsTurns(env: Env, log: Log, id: string, o: Outcome, depth: nat)
    requires ApplyResult(env, log, id, o, depth).Some?
    ensures KeepsTurns(log, ApplyResult(env, log, id, o, depth).value)
    decreases depth
  {
    hide BeginResult, FinishResult, Forward, LastTool;
    if LastTool(log.facts, id) >= 0 {
      var begun := BeginResult(env, log, id, o);
      BeginKeepsTurns(env, log, id, o);
      var target := Forward(env, begun, id);
      var forwarded := begun;
      if target.Some? {
        ResultKeepsTurns(env, begun, target.value, o, depth - 1);
        forwarded := ApplyResult(env, begun, target.value, o, depth - 1).value;
      }
      FinishKeepsTurns(env, forwarded, id, o, log.facts[LastTool(log.facts, id)].tool.exitCode);
    }
  }

  lemma BeginKeepsTurns(env: Env, log: Log, id: string, o: Outcome)
    requires LastTool(log.facts, id) >= 0
    ensures KeepsTurns(log, BeginResult(env, log, id, o))
  {
    var i := LastTool(log.facts, id);
    TurnsOf(log.facts, i, ToolFact(log.facts[i].tool.(completed := true)));
  }

  lemma FinishKeepsTurns(env: Env, log: Log, id: string, o: Outcome, previousExit: Option<int>)
    requires LastTool(log.facts, id) >= 0
    ensures KeepsTurns(log, FinishResult(env, log, id, o, previousExit))
  {
    hide Judge, Moves, MoveToEnd;
    var i := LastTool(log.facts, id);
    var judged := Judge(env, log.facts[i].tool, o, previousExit, log.order);
    TurnsOf(log.facts, i, ToolFact(judged));
  }

  lemma ContextKeepsTurns(facts: seq<Fact>)
    ensures forall f :: f in facts && f.TurnFact? ==> f in RemoveContext(facts)
  {
    var i := FirstContext(facts);
    if i < |facts| { TurnsOf(facts, i, facts[i]); }
  }

  lemma {:induction false} MarkKeepsTurns(facts: seq<Fact>)
    ensures forall f :: f in facts && f.TurnFact? ==> f in MarkLastReplyFinal(facts)
  {
    if |facts| > 0 {
      var n := |facts| - 1;
      MarkKeepsTurns(facts[..n]);
      assert facts == facts[..n] + [facts[n]];
    }
  }

  lemma ItemKeepsTurns(env: Env, log: Log, item: Item, at: Instant, depth: nat)
    requires AddItem(env, log, item, at, depth).Some?
    ensures KeepsTurns(log, AddItem(env, log, item, at, depth).value)
  {
    hide ApplyResult;
    match item
    case CommandExecution(id, command, output, code) =>
      var known := if LastTool(log.facts, id) < 0 && command.Some? then AddTool(env, log, id, "exec_command", command.value, at)
                   else log;
      ResultKeepsTurns(env, known, id, Outcome(output, code, false, at), depth);
    case ToolOutput(id, output, code) => ResultKeepsTurns(env, log, id, Outcome(output, code, false, at), depth);
    case _ =>
  }

  lemma {:induction false} BlocksKeepTurns(env: Env, log: Log, blocks: seq<Block>, at: Instant, depth: nat)
    requires AddBlocks(env, log, blocks, at, depth).Some?
    ensures KeepsTurns(log, AddBlocks(env, log, blocks, at, depth).value)
    decreases |blocks|
  {
    hide ApplyResult;
    if |blocks| > 0 {
      var n := |blocks| - 1;
      BlocksKeepTurns(env, log, blocks[..n], at, depth);
      var before := AddBlocks(env, log, blocks[..n], at, depth).value;
      match blocks[n]
      case ResultBlock(id, output, _, _, _) =>
        ResultKeepsTurns(env, before, id, Outcome(output, BlockCode(before, blocks[n]), true, at), depth);
      case _ =>
    }
  }

  lemma HeadKeepsTurns(env: Env, log: Log, b: Body, at: Instant)
    requires b.ClaudeRecord?
    ensures KeepsTurns(log, ClaudeHead(env, log, b, at))
    ensures b.prompt != "" ==> HasTurnAt(ClaudeHead(env, log, b, at), at)
  {
    hide RemoveContext;
    ContextKeepsTurns(log.facts);
    ContextKeepsTurns(RemoveContext(log.facts));
    var l1 := if b.compactBoundary then log.(facts := RemoveContext(log.facts)) else log;
    var l2 := if b.usedTokens.Some? then SetContext(l1, b.usedTokens.value, 1000000, at) else l1;
    var turn := TurnFact(Started, at, b.uuid.GetOr(at.text), None);
    assert turn in (l2.facts + [turn]);
  }

  lemma TailKeepsTurns(env: Env, log: Log, b: Body, at: Instant)
    requires b.ClaudeRecord?
    ensures KeepsTurns(log, ClaudeTail(env, log, b, at))
  {
    hide MarkLastReplyFinal, TurnClosed;
    var l1 := if b.reply.None? then log
              else
                var said := AddMessage(env, log, false, b.reply.value.0, at, b.reply.value.1);
                if b.reply.value.1 then AddFact(said, TurnFact(Completed, at, CurrentTurn(said, at), None)) else said;
    assert KeepsTurns(log, l1);
    MarkKeepsTurns(l1.facts);
  }

  lemma EventKeepsTurns(env: Env, log: Log, b: Body, at: Instant)
    ensures KeepsTurns(log, AddEvent(env, log, b, at))
    ensures b.TurnEvent? ==> HasTurnAt(AddEvent(env, log, b, at), at)
  {
    hide RemoveContext;
    ContextKeepsTurns(log.facts);
    if b.TurnEvent? {
      var turn := TurnFact(b.phase, at, b.turnId.GetOr(CurrentTurn(log, at)), b.reason);
      assert turn in AddEvent(env, log, b, at).facts;
    }
  }

  lemma BodyKeepsTurns(env: Env, log: Log, b: Body, at: Instant, depth: nat)
    requires AddBody(env, log, b, at, depth).Some?
    ensures KeepsTurns(log, AddBody(env, log, b, at, depth).value)
    ensures b.TurnEvent? || (b.ClaudeRecord? && b.prompt != "") ==> HasTurnAt(AddBody(env, log, b, at, depth).value, at)
  {
    hide ClaudeHead, ClaudeTail, AddBlocks, AddEvent, AddItem;
    if b.ClaudeRecord? {
      var head := ClaudeHead(env, log, b, at);
      HeadKeepsTurns(env, log, b, at);
      BlocksKeepTurns(env, head, b.blocks, at, depth);
      TailKeepsTurns(env, AddBlocks(env, head, b.blocks, at, depth).value, b, at);
    } else if b.ItemRecord? {
      ItemKeepsTurns(env, log, b.item, at, depth);
    } else if b.ItemCompletedEvent? {
      ItemKeepsTurns(env, log.(order := log.order + 1), b.item, at, depth);
    } else {
      EventKeepsTurns(env, log, b, at);
    }
  }

  lemma {:induction false} TurnsLeaveFacts(r: Lens, since: int, log: Log, steps: seq<Step>, i: nat)
    requires Feed(r, since, log, steps).Some? && i < |steps| && SetsTurn(since, steps[i])
    ensures HasTurnAt(Feed(r, since, log, steps).value, steps[i].record.at.value)
    decreases |steps|
  {
    hide AddBody;
    var n := |steps| - 1;
    var before := Feed(r, since, log, steps[..n]).value;
    if i < n { TurnsLeaveFacts(r, since, log, steps[..n], i); }
    if Weight(since, steps[n]) > 0 {
      BodyKeepsTurns(r.env, before.(order := before.order + 1), steps[n].record.body, steps[n].record.at.value, r.depth);
    }
  }
}
