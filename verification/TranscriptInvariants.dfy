/** What every record keeps in the fact log: order numbers, call ids, terminal sessions, contexts and user messages.
  * The theorems about whole streams, results and snapshots rest on it. */
module TranscriptInvariants {
  import opened Outcomes
  import opened Basics
  import opened TranscriptLog

  // ----- The invariant -----

  function ToolIds(facts: seq<Fact>): set<string> {
    set f | f in facts && f.ToolFact? :: f.tool.callId
  }

  lemma {:induction false} LastToolIsKnown(facts: seq<Fact>, id: string)
    ensures LastTool(facts, id) >= 0 <==> id in ToolIds(facts)
  {
    var i := LastTool(facts, id);
    if i >= 0 {
      assert facts[i] in facts;
    } else {
      forall f | f in facts ensures !(f.ToolFact? && f.tool.callId == id) {
        var j :| 0 <= j < |facts| && facts[j] == f;
      }
    }
  }

  /** Two facts that may not both be in the log; with `strict`, call ids are never reused either. */
  predicate Clash(strict: bool, a: Fact, b: Fact) {
    || (a.ContextFact? && b.ContextFact?)
    || (a.UserMessage? && b.UserMessage? && a.text == b.text && a.userTurn == b.userTurn)
    || (strict && a.ToolFact? && b.ToolFact? && a.tool.callId == b.tool.callId)
  }

  predicate FactOk(strict: bool, since: int, log: Log, f: Fact) {
    && f.At().ms >= since
    && (f.UserMessage? ==> MessageKey(true, f.userTurn, f.text, false) in log.messages)
    && (f.ToolFact? ==>
          && f.tool.startedOrder <= log.order
          && (f.tool.completedOrder.Some? ==> f.tool.startedOrder <= f.tool.completedOrder.value <= log.order)
          && (strict && f.tool.callId in log.sessions.Values ==> IsExec(f.tool.name)))
  }

  ghost predicate Inv(strict: bool, since: int, log: Log) {
    && (forall f :: f in log.facts ==> FactOk(strict, since, log, f))
    && (forall i, j :: 0 <= i < j < |log.facts| ==> !Clash(strict, log.facts[i], log.facts[j]))
    && log.sessions.Values <= ToolIds(log.facts)
  }

  // ----- The four ways the fact list changes -----

  lemma AppendKeeps(strict: bool, since: int, log: Log, f: Fact)
    requires Inv(strict, since, log) && FactOk(strict, since, log, f)
    requires forall g :: g in log.facts ==> !Clash(strict, g, f)
    ensures Inv(strict, since, AddFact(log, f))
  {
    var facts := log.facts + [f];
    forall i, j | 0 <= i < j < |facts| ensures !Clash(strict, facts[i], facts[j]) {
      if j == |log.facts| { assert facts[i] in log.facts; }
    }
    assert ToolIds(log.facts) <= ToolIds(facts);
  }

  lemma NoClash(strict: bool, since: int, log: Log, i: nat, j: nat)
    requires Inv(strict, since, log) && i < |log.facts| && j < |log.facts| && i != j
    ensures !Clash(strict, log.facts[i], log.facts[j])
  {
    if j < i {
      assert !Clash(strict, log.facts[j], log.facts[i]);
    }
  }

  lemma WithoutMembers(facts: seq<Fact>, i: nat)
    requires i < |facts|
    ensures forall k :: 0 <= k < |facts| - 1 ==> Without(facts, i)[k] == facts[if k < i then k else k + 1]
    ensures forall f :: f in Without(facts, i) ==> f in facts
    ensures forall f :: f in facts && f != facts[i] ==> f in Without(facts, i)
  {
    forall f | f in facts && f != facts[i] ensures f in Without(facts, i) {
      var j :| 0 <= j < |facts| && facts[j] == f;
      assert Without(facts, i)[if j < i then j else j - 1] == f;
    }
  }

  lemma NoContextLeft(strict: bool, since: int, log: Log)
    requires Inv(strict, since, log)
    ensures forall f :: f in RemoveContext(log.facts) ==> f in log.facts && !f.ContextFact?
  {
    var facts, rest := log.facts, RemoveContext(log.facts);
    var i := FirstContext(facts);
    if i < |facts| {
      WithoutMembers(facts, i);
      forall f | f in rest ensures f in facts && !f.ContextFact? {
        var k :| 0 <= k < |rest| && rest[k] == f;
        NoClash(strict, since, log, i, if k < i then k else k + 1);
      }
    } else {
      forall f | f in facts ensures !f.ContextFact? {
        var j :| 0 <= j < |facts| && facts[j] == f;
      }
    }
  }

  lemma DropKeeps(strict: bool, since: int, log: Log)
    requires Inv(strict, since, log)
    ensures Inv(strict, since, log.(facts := RemoveContext(log.facts)))
  {
    var i := FirstContext(log.facts);
    if i < |log.facts| {
      assert RemoveContext(log.facts) == Without(log.facts, i);
      WithoutKeeps(strict, since, log, i);
    }
  }

  lemma WithoutKeeps(strict: bool, since: int, log: Log, i: nat)
    requires Inv(strict, since, log) && i < |log.facts| && !log.facts[i].ToolFact?
    ensures Inv(strict, since, log.(facts := Without(log.facts, i)))
  {
    hide Without, Clash, FactOk;
    var rest := Without(log.facts, i);
    WithoutMembers(log.facts, i);
    forall a, b | 0 <= a < b < |rest| ensures !Clash(strict, rest[a], rest[b]) {
      NoClash(strict, since, log, if a < i then a else a + 1, if b < i then b else b + 1);
    }
    forall f | f in rest ensures FactOk(strict, since, log.(facts := rest), f) {
      FactOkIgnoresFacts(strict, since, log, rest, f);
    }
    assert ToolIds(log.facts) <= ToolIds(rest);
  }

  lemma FactOkIgnoresFacts(strict: bool, since: int, log: Log, facts: seq<Fact>, f: Fact)
    ensures FactOk(strict, since, log.(facts := facts), f) <==> FactOk(strict, since, log, f)
  {
  }

  /** A tool fact replaced by a version of the same call. */
  predicate SameCall(a: Fact, b: Fact) {
    a.ToolFact? && b.ToolFact? && a.tool.callId == b.tool.callId && a.tool.name == b.tool.name
  }

  lemma ReplaceKeeps(strict: bool, since: int, log: Log, i: nat, f: Fact)
    requires Inv(strict, since, log) && i < |log.facts|
    requires SameCall(log.facts[i], f) && FactOk(strict, since, log, f)
    ensures Inv(strict, since, log.(facts := log.facts[i := f]))
  {
    var facts := log.facts[i := f];
    forall g | g in facts ensures FactOk(strict, since, log, g) {
      assert g == f || g in log.facts;
    }
    forall id | id in ToolIds(log.facts) ensures id in ToolIds(facts) {
      var g :| g in log.facts && g.ToolFact? && g.tool.callId == id;
      var j :| 0 <= j < |log.facts| && log.facts[j] == g;
      assert facts[j] in facts;
    }
  }

  lemma MoveKeeps(strict: bool, since: int, log: Log, i: nat, f: Fact)
    requires Inv(strict, since, log) && i < |log.facts|
    requires SameCall(log.facts[i], f) && FactOk(strict, since, log, f)
    ensures Inv(strict, since, log.(facts := MoveToEnd(log.facts, i, f)))
  {
    var facts, rest := log.facts, Without(log.facts, i);
    var moved := MoveToEnd(facts, i, f);
    WithoutMembers(facts, i);
    assert moved == rest + [f];
    forall a, b | 0 <= a < b < |moved| ensures !Clash(strict, moved[a], moved[b]) {
      NoClash(strict, since, log, if a < i then a else a + 1, if b == |rest| then i else if b < i then b else b + 1);
    }
    assert f in moved;
    assert ToolIds(facts) <= ToolIds(moved);
  }

  // ----- Messages, calls and results -----

  lemma MessageKeeps(strict: bool, env: Env, since: int, log: Log, fromUser: bool, text: string, at: Instant, final: bool)
    requires Inv(strict, since, log) && at.ms >= since
    ensures Inv(strict, since, AddMessage(env, log, fromUser, text, at, final))
  {
    var authored := if fromUser then env.extractTaskPrompt(text) else text;
    var key := MessageKey(fromUser, log.turnId, authored, !fromUser && final);
    if text != "" && authored != "" && key !in log.messages {
      var f := if fromUser then UserMessage(authored, at, log.turnId) else AgentMessage(authored, at, log.turnId, final);
      AppendKeeps(strict, since, log.(messages := log.messages + {key}), f);
    }
  }

  lemma ToolKeeps(strict: bool, env: Env, since: int, log: Log, id: string, name: string, input: Json, at: Instant)
    requires Inv(strict, since, log) && at.ms >= since
    requires strict ==> id !in ToolIds(log.facts)
    ensures Inv(strict, since, AddTool(env, log, id, name, input, at))
  {
    if id != "" && name != "" {
      var f := ToolFact(Tool(id, name, input, at, log.turnId, env.isMutatingTool(name, input), log.order, false, None, None, None, []));
      AppendKeeps(strict, since, log, f);
    }
  }

  lemma BeginKeeps(strict: bool, env: Env, since: int, log: Log, id: string, o: Outcome)
    requires Inv(strict, since, log) && LastTool(log.facts, id) >= 0
    ensures Inv(strict, since, BeginResult(env, log, id, o))
    ensures LastTool(BeginResult(env, log, id, o).facts, id) >= 0
  {
    var i := LastTool(log.facts, id);
    var t := log.facts[i].tool;
    var f := ToolFact(t.(completed := true));
    assert log.facts[i] in log.facts;
    ReplaceKeeps(strict, since, log, i, f);
    var marked := log.(facts := log.facts[i := f]);
    assert marked.facts[i] in marked.facts;
    LastToolIsKnown(marked.facts, id);
    var started := if IsExec(t.name) then env.startedSession(o.output) else None;
    if started.Some? {
      NewSessionKeeps(strict, since, marked, i, started.value);
    }
  }

  lemma NewSessionKeeps(strict: bool, since: int, log: Log, i: nat, session: string)
    requires Inv(strict, since, log) && i < |log.facts| && log.facts[i].ToolFact? && IsExec(log.facts[i].tool.name)
    ensures Inv(strict, since, log.(sessions := log.sessions[session := log.facts[i].tool.callId]))
  {
    var id := log.facts[i].tool.callId;
    var after := log.(sessions := log.sessions[session := id]);
    assert after.sessions.Values <= log.sessions.Values + {id};
    forall j | 0 <= j < |log.facts| && j != i ensures !Clash(strict, log.facts[i], log.facts[j]) {
      NoClash(strict, since, log, i, j);
    }
    forall f | f in log.facts ensures FactOk(strict, since, after, f) {
      var j :| 0 <= j < |log.facts| && log.facts[j] == f;
    }
    assert log.facts[i] in log.facts;
  }

  lemma FinishKeeps(strict: bool, env: Env, since: int, log: Log, id: string, o: Outcome, previousExit: Option<int>)
    requires Inv(strict, since, log) && LastTool(log.facts, id) >= 0 && o.at.ms >= since
    ensures Inv(strict, since, FinishResult(env, log, id, o, previousExit))
  {
    var i := LastTool(log.facts, id);
    var t := log.facts[i].tool;
    var f := ToolFact(Judge(env, t, o, previousExit, log.order));
    assert log.facts[i] in log.facts;
    if Moves(t, previousExit, f.tool.exitCode) {
      MoveKeeps(strict, since, log, i, f);
    } else {
      ReplaceKeeps(strict, since, log, i, f);
    }
  }

  lemma {:induction false} ResultKeeps(strict: bool, env: Env, since: int, log: Log, id: string, o: Outcome, depth: nat)
    requires Inv(strict, since, log) && o.at.ms >= since
    requires ApplyResult(env, log, id, o, depth).Some?
    ensures Inv(strict, since, ApplyResult(env, log, id, o, depth).value)
    decreases depth
  {
    hide Inv, BeginResult, FinishResult, Forward, LastTool;
    if LastTool(log.facts, id) >= 0 {
      var begun := BeginResult(env, log, id, o);
      BeginKeeps(strict, env, since, log, id, o);
      var target := Forward(env, begun, id);
      var forwarded := begun;
      if target.Some? {
        ResultKeeps(strict, env, since, begun, target.value, o, depth - 1);
        forwarded := ApplyResult(env, begun, target.value, o, depth - 1).value;
      }
      FinishKeeps(strict, env, since, forwarded, id, o, log.facts[LastTool(log.facts, id)].tool.exitCode);
    }
  }

  lemma ItemKeeps(strict: bool, env: Env, since: int, log: Log, item: Item, at: Instant, depth: nat)
    requires Inv(strict, since, log) && at.ms >= since
    requires strict && item.ToolUse? ==> item.callId !in ToolIds(log.facts)
    requires AddItem(env, log, item, at, depth).Some?
    ensures Inv(strict, since, AddItem(env, log, item, at, depth).value)
  {
    match item
    case AgentText(text, final) => MessageKeeps(strict, env, since, log, false, text, at, final);
    case UserText(text) => MessageKeeps(strict, env, since, log, true, text, at, false);
    case ToolUse(id, name, input) => ToolKeeps(strict, env, since, log, id, name, input, at);
    case CommandExecution(id, command, output, code) =>
      var known := log;
      if LastTool(log.facts, id) < 0 && command.Some? {
        LastToolIsKnown(log.facts, id);
        ToolKeeps(strict, env, since, log, id, "exec_command", command.value, at);
        known := AddTool(env, log, id, "exec_command", command.value, at);
      }
      ResultKeeps(strict, env, since, known, id, Outcome(output, code, false, at), depth);
    case ToolOutput(id, output, code) => ResultKeeps(strict, env, since, log, id, Outcome(output, code, false, at), depth);
    case OtherItem =>
  }

  // ----- Whole records -----

  /** No tool use of the record reuses a known call id. */
  ghost predicate NewCalls(env: Env, log: Log, blocks: seq<Block>, at: Instant, depth: nat) {
    |blocks| == 0 ||
    var n := |blocks| - 1;
    && NewCalls(env, log, blocks[..n], at, depth)
    && (blocks[n].UseBlock? && AddBlocks(env, log, blocks[..n], at, depth).Some? ==>
          blocks[n].callId !in ToolIds(AddBlocks(env, log, blocks[..n], at, depth).value.facts))
  }

  ghost predicate NoReuse(env: Env, since: int, log: Log, r: Record, depth: nat) {
    r.at.Some? && r.at.value.ms >= since ==>
      var counted := log.(order := log.order + 1);
      match r.body
      case ItemCompletedEvent(ToolUse(id, _, _)) => id !in ToolIds(log.facts)
      case ItemRecord(ToolUse(id, _, _)) => id !in ToolIds(log.facts)
      case ClaudeRecord(_, _, _, _, blocks, _, _) =>
        NewCalls(env, ClaudeHead(env, counted, r.body, r.at.value), blocks, r.at.value, depth)
      case _ => true
  }

  lemma {:induction false} BlocksKeep(strict: bool, env: Env, since: int, log: Log, blocks: seq<Block>, at: Instant, depth: nat)
    requires Inv(strict, since, log) && at.ms >= since
    requires strict ==> NewCalls(env, log, blocks, at, depth)
    requires AddBlocks(env, log, blocks, at, depth).Some?
    ensures Inv(strict, since, AddBlocks(env, log, blocks, at, depth).value)
    decreases |blocks|
  {
    if |blocks| > 0 {
      var n := |blocks| - 1;
      BlocksKeep(strict, env, since, log, blocks[..n], at, depth);
      var before := AddBlocks(env, log, blocks[..n], at, depth).value;
      match blocks[n]
      case TextBlock =>
      case UseBlock(id, name, input) => ToolKeeps(strict, env, since, before, id, name, input, at);
      case ResultBlock(id, output, _, _, _) =>
        ResultKeeps(strict, env, since, before, id, Outcome(output, BlockCode(before, blocks[n]), true, at), depth);
    }
  }

  lemma ContextKeeps(strict: bool, since: int, log: Log, used: int, window: int, at: Instant)
    requires Inv(strict, since, log) && at.ms >= since
    ensures Inv(strict, since, SetContext(log, used, window, at))
  {
    DropKeeps(strict, since, log);
    NoContextLeft(strict, since, log);
    AppendKeeps(strict, since, log.(facts := RemoveContext(log.facts)), ContextFact(used, window, at));
  }

  lemma TurnKeeps(strict: bool, since: int, log: Log, f: Fact)
    requires Inv(strict, since, log) && (f.TurnFact? || f.LimitFact?) && f.At().ms >= since
    ensures Inv(strict, since, AddFact(log, f))
  {
    AppendKeeps(strict, since, log, f);
  }

  lemma TurnIdKeeps(strict: bool, since: int, log: Log, turn: string)
    requires Inv(strict, since, log)
    ensures Inv(strict, since, log.(turnId := turn))
  {
  }

  lemma HeadKeeps(strict: bool, env: Env, since: int, log: Log, b: Body, at: Instant)
    requires b.ClaudeRecord? && Inv(strict, since, log) && at.ms >= since
    ensures Inv(strict, since, ClaudeHead(env, log, b, at))
  {
    hide Inv, AddMessage, RemoveContext, SetContext;
    DropKeeps(strict, since, log);
    var l1 := if b.compactBoundary then log.(facts := RemoveContext(log.facts)) else log;
    var l2 := l1;
    if b.usedTokens.Some? {
      ContextKeeps(strict, since, l1, b.usedTokens.value, 1000000, at);
      l2 := SetContext(l1, b.usedTokens.value, 1000000, at);
    }
    if b.prompt != "" {
      var turn := b.uuid.GetOr(at.text);
      var l3 := l2.(turnId := turn);
      TurnIdKeeps(strict, since, l2, turn);
      TurnKeeps(strict, since, l3, TurnFact(Started, at, turn, None));
      MessageKeeps(strict, env, since, AddFact(l3, TurnFact(Started, at, turn, None)), true, b.prompt, at, false);
    }
  }

  /** Marking a reply final changes neither the place, the time nor the kind of any fact. */
  lemma {:induction false} MarkedReplies(facts: seq<Fact>)
    ensures var marked := MarkLastReplyFinal(facts);
            |marked| == |facts| && forall i :: 0 <= i < |facts| ==>
              marked[i] == facts[i] || (facts[i].AgentMessage? && marked[i] == facts[i].(final := true))
  {
    if |facts| > 0 {
      MarkedReplies(facts[..|facts| - 1]);
    }
  }

  lemma MarkKeeps(strict: bool, since: int, log: Log)
    requires Inv(strict, since, log)
    ensures Inv(strict, since, log.(facts := MarkLastReplyFinal(log.facts)))
  {
    var facts, marked := log.facts, MarkLastReplyFinal(log.facts);
    MarkedReplies(facts);
    forall f | f in marked ensures FactOk(strict, since, log, f) {
      var i :| 0 <= i < |marked| && marked[i] == f;
      assert facts[i] in facts;
    }
    forall i, j | 0 <= i < j < |marked| ensures !Clash(strict, marked[i], marked[j]) {
      assert !Clash(strict, facts[i], facts[j]);
    }
    forall id | id in ToolIds(facts) ensures id in ToolIds(marked) {
      var f :| f in facts && f.ToolFact? && f.tool.callId == id;
      var i :| 0 <= i < |facts| && facts[i] == f;
      assert marked[i] in marked;
    }
  }

  lemma TailKeeps(strict: bool, env: Env, since: int, log: Log, b: Body, at: Instant)
    requires b.ClaudeRecord? && Inv(strict, since, log) && at.ms >= since
    ensures Inv(strict, since, ClaudeTail(env, log, b, at))
  {
    var l1 := log;
    if b.reply.Some? {
      MessageKeeps(strict, env, since, log, false, b.reply.value.0, at, b.reply.value.1);
      l1 := AddMessage(env, log, false, b.reply.value.0, at, b.reply.value.1);
      if b.reply.value.1 {
        var f := TurnFact(Completed, at, CurrentTurn(l1, at), None);
        TurnKeeps(strict, since, l1, f);
        l1 := AddFact(l1, f);
      }
    }
    if b.stop {
      MarkKeeps(strict, since, l1);
      var l2 := l1.(facts := MarkLastReplyFinal(l1.facts));
      TurnKeeps(strict, since, l2, TurnFact(Completed, at, CurrentTurn(l2, at), None));
    }
  }

  lemma OrderKeeps(strict: bool, since: int, log: Log)
    requires Inv(strict, since, log)
    ensures Inv(strict, since, log.(order := log.order + 1))
  {
  }

  lemma EventKeeps(strict: bool, env: Env, since: int, log: Log, b: Body, at: Instant)
    requires Inv(strict, since, log) && at.ms >= since
    ensures Inv(strict, since, AddEvent(env, log, b, at))
  {
    match b
    case Compacted => DropKeeps(strict, since, log);
    case TurnEvent(phase, turnId, reason, last) =>
      var turn := turnId.GetOr(CurrentTurn(log, at));
      var f := TurnFact(phase, at, turn, reason);
      TurnKeeps(strict, since, log.(turnId := turn), f);
      MessageKeeps(strict, env, since, AddFact(log.(turnId := turn), f), false, last, at, true);
    case UserMessageEvent(text) => MessageKeeps(strict, env, since, log, true, text, at, false);
    case TokenCount(tokens) =>
      if tokens.Some? { ContextKeeps(strict, since, log, tokens.value.0, tokens.value.1, at); }
    case LimitEvent(scope) => TurnKeeps(strict, since, log, LimitFact(scope, at));
    case _ =>
  }

  lemma ClaudeKeeps(strict: bool, env: Env, since: int, log: Log, b: Body, at: Instant, depth: nat)
    requires Inv(strict, since, log) && at.ms >= since && b.ClaudeRecord?
    requires strict ==> NewCalls(env, ClaudeHead(env, log, b, at), b.blocks, at, depth)
    requires AddClaude(env, log, b, at, depth).Some?
    ensures Inv(strict, since, AddClaude(env, log, b, at, depth).value)
  {
    var head := ClaudeHead(env, log, b, at);
    HeadKeeps(strict, env, since, log, b, at);
    BlocksKeep(strict, env, since, head, b.blocks, at, depth);
    TailKeeps(strict, env, since, AddBlocks(env, head, b.blocks, at, depth).value, b, at);
  }

  /** Every record keeps the invariant; the strict one when no call id is reused. */
  lemma AddKeeps(strict: bool, env: Env, since: int, log: Log, r: Record, depth: nat)
    requires Inv(strict, since, log) && (strict ==> NoReuse(env, since, log, r, depth))
    requires Add(env, since, log, r, depth).Some?
    ensures Inv(strict, since, Add(env, since, log, r, depth).value)
  {
    hide Inv, AddItem, AddClaude, AddEvent, NewCalls, ClaudeHead;
    if r.at.Some? && r.at.value.ms >= since {
      OrderKeeps(strict, since, log);
      var counted := log.(order := log.order + 1);
      var at := r.at.value;
      if r.body.ClaudeRecord? {
        ClaudeKeeps(strict, env, since, counted, r.body, at, depth);
      } else if r.body.ItemRecord? {
        ItemKeeps(strict, env, since, counted, r.body.item, at, depth);
      } else if r.body.ItemCompletedEvent? {
        OrderKeeps(strict, since, counted);
        ItemKeeps(strict, env, since, counted.(order := counted.order + 1), r.body.item, at, depth);
      } else {
        EventKeeps(strict, env, since, counted, r.body, at);
      }
    }
  }
}
