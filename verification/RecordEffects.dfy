/** What each kind of record adds to the fact log, and what it leaves alone: messages, calls, turns,
  * contexts and limits, for both runtimes. */
module RecordEffects {
  import opened Outcomes
  import opened Basics
  import opened TranscriptLog
  import opened TranscriptTheorems
  import opened Completions

  predicate Counted(since: int, at: Instant) { at.ms >= since }

  /** The log after a dated record. */
  function After(env: Env, since: int, log: Log, at: Instant, body: Body, depth: nat): Option<Log> {
    Add(env, since, log, Record(Some(at), body), depth)
  }

  /** One fact more at the end, and nothing else about the facts. */
  predicate Appends(log: Log, after: Option<Log>, f: Fact) {
    after.Some? && after.value.facts == log.facts + [f]
  }

  predicate SameFacts(log: Log, after: Option<Log>) {
    after.Some? && after.value.facts == log.facts
  }

  /** A message was said before in this turn: the same text of the same sender, and of an agent equally final. */
  predicate SaidBefore(log: Log, fromUser: bool, text: string, final: bool) {
    MessageKey(fromUser, log.turnId, text, final) in log.messages
  }

  /** A user's message, in either form: its authored part is appended once per turn, and remembered. */
  lemma UserMessageIsKept(env: Env, since: int, log: Log, at: Instant, text: string, depth: nat)
    requires Counted(since, at)
    ensures var authored := env.extractTaskPrompt(text);
            forall body :: body in [UserMessageEvent(text), ItemRecord(UserText(text))] ==>
              var after := After(env, since, log, at, body, depth);
              if text == "" || authored == "" || SaidBefore(log, true, authored, false) then SameFacts(log, after)
              else Appends(log, after, UserMessage(authored, at, log.turnId)) && SaidBefore(after.value, true, authored, false)
  {
  }

  /** An agent's message, likewise; whether it is final tells two apart. */
  lemma AgentMessageIsKept(env: Env, since: int, log: Log, at: Instant, text: string, final: bool, depth: nat)
    requires Counted(since, at)
    ensures var after := After(env, since, log, at, ItemRecord(AgentText(text, final)), depth);
            if text == "" || SaidBefore(log, false, text, final) then SameFacts(log, after)
            else Appends(log, after, AgentMessage(text, at, log.turnId, final)) && SaidBefore(after.value, false, text, final)
  {
  }

  /** A call with an id and a name is appended, not completed and without a result; it is the one its id now refers to. */
  lemma CallIsKept(env: Env, since: int, log: Log, at: Instant, id: string, name: string, input: Json, depth: nat)
    requires Counted(since, at)
    ensures var after := After(env, since, log, at, ItemRecord(ToolUse(id, name, input)), depth);
            if id == "" || name == "" then SameFacts(log, after)
            else
              && after.Some? && ToolAt(after.value.facts, id).Some?
              && var t := ToolAt(after.value.facts, id).value;
                 && Appends(log, after, ToolFact(t))
                 && t.callId == id && t.name == name && t.input == input && t.at == at && t.turnId == log.turnId
                 && t.mutating == env.isMutatingTool(name, input) && t.startedOrder == log.order + 1
                 && !t.completed && t.completedOrder.None? && t.exitCode.None? && t.evidence == []
  {
    hide ToolAt;
    if id != "" && name != "" {
      var after := After(env, since, log, at, ItemRecord(ToolUse(id, name, input)), depth).value;
      AppendedTool(log.facts, after.facts[|log.facts|], id);
    }
  }

  /** A turn begins, ends or is aborted under its id, or the current one, or its time if there is none; its last message follows. */
  lemma TurnIsKept(env: Env, since: int, log: Log, at: Instant, phase: Phase, id: Option<string>, reason: Option<string>, last: string, depth: nat)
    requires Counted(since, at)
    ensures var after := After(env, since, log, at, TurnEvent(phase, id, reason, last), depth);
            && after.Some? && |log.facts| < |after.value.facts| <= |log.facts| + 2
            && var turn := after.value.turnId;
               && turn == (if id.Some? then id.value else if log.turnId == "" then at.text else log.turnId)
               && after.value.facts[..|log.facts| + 1] == log.facts + [TurnFact(phase, at, turn, reason)]
               && (last != "" ==> SaidBefore(after.value, false, last, true))
               && (|after.value.facts| == |log.facts| + 2 ==> after.value.facts[|log.facts| + 1] == AgentMessage(last, at, turn, true))
               && (last == "" ==> |after.value.facts| == |log.facts| + 1)
  {
  }

  /** The facts without their first context. */
  predicate WithoutContext(facts: seq<Fact>, rest: seq<Fact>) {
    if exists f :: f in facts && f.ContextFact?
    then exists i :: 0 <= i < |facts| && facts[i].ContextFact? && (forall j :: 0 <= j < i ==> !facts[j].ContextFact?) && rest == facts[..i] + facts[i + 1..]
    else rest == facts
  }

  lemma RemovedContext(facts: seq<Fact>)
    ensures WithoutContext(facts, RemoveContext(facts))
  {
    var i := FirstContext(facts);
    if i < |facts| { assert facts[i] in facts; }
  }

  /** A context size replaces the one before; a compaction forgets it; limits are noted; unknown records are only counted. */
  lemma OtherEventsAreKept(env: Env, since: int, log: Log, at: Instant, used: int, window: int, scope: Scope, depth: nat)
    requires Counted(since, at)
    ensures var sized, compacted := After(env, since, log, at, TokenCount(Some((used, window))), depth), After(env, since, log, at, Compacted, depth);
            && compacted.Some? && WithoutContext(log.facts, compacted.value.facts)
            && sized.Some? && sized.value.facts == compacted.value.facts + [ContextFact(used, window, at)]
    ensures Appends(log, After(env, since, log, at, LimitEvent(scope), depth), LimitFact(scope, at))
    ensures var unknown, known := After(env, since, log, at, UnknownRecord, depth), After(env, since, log, at, KnownRecord, depth);
            && SameFacts(log, unknown) && unknown.value.unknownRecords == log.unknownRecords + 1
            && SameFacts(log, known) && known.value.unknownRecords == log.unknownRecords
  {
    RemovedContext(log.facts);
  }

  /** A Claude record that only carries a prompt opens a turn of its own and keeps the authored prompt. */
  lemma ClaudePromptIsKept(env: Env, since: int, log: Log, at: Instant, prompt: string, uuid: Option<string>, depth: nat)
    requires Counted(since, at) && prompt != "" && env.extractTaskPrompt(prompt) != ""
    ensures var turn := if uuid.Some? then uuid.value else at.text;
            var body := ClaudeRecord(false, None, prompt, uuid, [], None, false);
            var after := After(env, since, log, at, body, depth);
            var said := UserMessage(env.extractTaskPrompt(prompt), at, turn);
            && after.Some? && after.value.turnId == turn
            && after.value.facts == log.facts + [TurnFact(Started, at, turn, None)]
                                    + if MessageKey(true, turn, said.text, false) in log.messages then [] else [said]
  {
  }

  /** A Claude record that compacts forgets the context size, and one that reports its size replaces it, out of a million. */
  lemma ClaudeContextIsKept(env: Env, since: int, log: Log, at: Instant, used: int, depth: nat)
    requires Counted(since, at)
    ensures var compacted := After(env, since, log, at, ClaudeRecord(true, None, "", None, [], None, false), depth);
            compacted.Some? && WithoutContext(log.facts, compacted.value.facts)
    ensures var sized := After(env, since, log, at, ClaudeRecord(false, Some(used), "", None, [], None, false), depth);
            && sized.Some? && |sized.value.facts| > 0
            && var rest := sized.value.facts[..|sized.value.facts| - 1];
               WithoutContext(log.facts, rest) && sized.value.facts == rest + [ContextFact(used, 1000000, at)]
  {
    RemovedContext(log.facts);
    var rest, f := RemoveContext(log.facts), ContextFact(used, 1000000, at);
    assert (rest + [f])[..|rest|] == rest;
  }

  /** A Claude reply: the message, and the end of the turn if it is final. */
  lemma ClaudeReplyIsKept(env: Env, since: int, log: Log, at: Instant, text: string, final: bool, depth: nat)
    requires Counted(since, at) && !SaidBefore(log, false, text, final)
    ensures var body := ClaudeRecord(false, None, "", None, [], Some((text, final)), false);
            var after := After(env, since, log, at, body, depth);
            && after.Some?
            && after.value.facts == log.facts + (if text == "" then [] else [AgentMessage(text, at, log.turnId, final)])
                                    + if final then [TurnFact(Completed, at, if log.turnId == "" then at.text else log.turnId, None)] else []
  {
  }

  /** A Claude stop: the last reply is final, all else stays, and the turn is closed once. */
  lemma ClaudeStopIsKept(env: Env, since: int, log: Log, at: Instant, depth: nat)
    requires Counted(since, at)
    ensures var body := ClaudeRecord(false, None, "", None, [], None, true);
            var after := After(env, since, log, at, body, depth);
            && after.Some? && |log.facts| <= |after.value.facts| <= |log.facts| + 1
            && (forall i :: 0 <= i < |log.facts| ==>
                  after.value.facts[i] == if LastReply(log.facts, i) then log.facts[i].(final := true) else log.facts[i])
            && (if exists f :: f in log.facts && f.TurnFact? && f.phase == Completed && f.turn == log.turnId
                then |after.value.facts| == |log.facts|
                else after.value.facts[|log.facts|..] == [TurnFact(Completed, at, if log.turnId == "" then at.text else log.turnId, None)])
  {
    hide MarkLastReplyFinal;
    MarkedReplies(log.facts);
    var marked := MarkLastReplyFinal(log.facts);
    assert TurnClosed(marked, log.turnId) <==> TurnClosed(log.facts, log.turnId) by {
      forall i | 0 <= i < |marked| ensures marked[i].TurnFact? || log.facts[i].TurnFact? ==> marked[i] == log.facts[i] {}
      if TurnClosed(marked, log.turnId) {
        var f :| f in marked && f.TurnFact? && f.phase == Completed && f.turn == log.turnId;
        var i :| 0 <= i < |marked| && marked[i] == f;
        assert log.facts[i] in log.facts;
      }
      if TurnClosed(log.facts, log.turnId) {
        var f :| f in log.facts && f.TurnFact? && f.phase == Completed && f.turn == log.turnId;
        var i :| 0 <= i < |log.facts| && log.facts[i] == f;
        assert marked[i] in marked;
      }
    }
  }

  predicate LastReply(facts: seq<Fact>, i: nat) {
    i < |facts| && facts[i].AgentMessage? && forall j :: i < j < |facts| ==> !facts[j].AgentMessage?
  }

  lemma {:induction false} MarkedReplies(facts: seq<Fact>)
    ensures |MarkLastReplyFinal(facts)| == |facts|
    ensures forall i :: 0 <= i < |facts| ==>
              MarkLastReplyFinal(facts)[i] == if LastReply(facts, i) then facts[i].(final := true) else facts[i]
  {
    if |facts| > 0 {
      var n := |facts| - 1;
      MarkedReplies(facts[..n]);
      if !facts[n].AgentMessage? {
        forall i | 0 <= i < n ensures LastReply(facts, i) <==> LastReply(facts[..n], i) {
          if LastReply(facts[..n], i) { assert forall j :: i < j < n ==> facts[j] == facts[..n][j]; }
        }
      }
    }
  }

  /** A name is the tool's own or ends in it after a dot or an underscore. */
  ghost predicate NamesTool(name: string, tool: string) {
    name == tool || exists prefix :: name == prefix + "." + tool || name == prefix + "_" + tool
  }

  lemma EndsWithIff(name: string, suffix: string)
    ensures EndsWith(name, suffix) <==> exists prefix :: name == prefix + suffix
  {
    if EndsWith(name, suffix) { assert name == name[..|name| - |suffix|] + suffix; }
    forall prefix | name == prefix + suffix ensures EndsWith(name, suffix) { }
  }

  /** Which calls are executions and which write to a terminal session, under any namespace. */
  lemma ToolNames(name: string)
    ensures IsExec(name) <==> NamesTool(name, "exec_command")
    ensures IsWriteStdin(name) <==> NamesTool(name, "write_stdin")
    ensures IsExecution(name) <==> name == "Bash" || NamesTool(name, "exec_command")
  {
    SuffixPartIff(name, "exec_command");
    SuffixPartIff(name, "write_stdin");
  }

  lemma SuffixPartIff(name: string, tool: string)
    ensures HasSuffixPart(name, tool) <==> NamesTool(name, tool)
  {
    hide EndsWith;
    EndsWithIff(name, "_" + tool);
    EndsWithIff(name, "." + tool);
    forall prefix: string ensures prefix + "." + tool == prefix + ("." + tool) && prefix + "_" + tool == prefix + ("_" + tool) { }
  }

  function BlocksOnly(blocks: seq<Block>): Body {
    ClaudeRecord(false, None, "", None, blocks, None, false)
  }

  /** One more block of a Claude record: a call is appended, a result is received by the log as the blocks before left it,
    * and a text adds nothing. A record without blocks adds nothing either. */
  lemma BlocksAreKept(env: Env, since: int, log: Log, at: Instant, blocks: seq<Block>, b: Block, depth: nat)
    requires Counted(since, at)
    ensures After(env, since, log, at, BlocksOnly([]), depth) == Some(log.(order := log.order + 1))
    ensures var before := After(env, since, log, at, BlocksOnly(blocks), depth);
            var after := After(env, since, log, at, BlocksOnly(blocks + [b]), depth);
            if before.None? then after.None?
            else if b.TextBlock? then after == before
            else if b.UseBlock? then
              if b.callId == "" || b.name == "" then after == before
              else Appends(before.value, after,
                           ToolFact(Tool(b.callId, b.name, b.input, at, before.value.turnId, env.isMutatingTool(b.name, b.input),
                                         before.value.order, false, None, None, None, [])))
            else
              ChainEnds(env, before.value, b.callId, depth) ==>
                after.Some? && ReceivedBy(env, before.value, after.value, b.callId, Outcome(b.output, BlockCode(before.value, b), true, at), depth,
                                          before.value.order)
  {
    hide ReceivedBy, ApplyResult, ChainEnds, BlockCode;
    assert (blocks + [b])[..|blocks|] == blocks;
    var before := AddBlocks(env, log.(order := log.order + 1), blocks, at, depth);
    if before.Some? && b.ResultBlock? && ChainEnds(env, before.value, b.callId, depth) {
      SameToolsItself(before.value);
      AppliedIsReceived(env, before.value, before.value, b.callId, Outcome(b.output, BlockCode(before.value, b), true, at), depth);
    }
  }

  lemma SameToolsItself(log: Log)
    ensures SameTools(log, log)
  {
  }

  /** The exit code implied by a Claude tool result: failure, nothing yet for background and pending work, success otherwise
    * for the tools that report none. */
  lemma ImpliedCode(log: Log, b: Block)
    requires b.ResultBlock?
    ensures var call := ToolAt(log.facts, b.callId);
            var exec := call.Some? && IsExec(call.value.name);
            && (b.isError ==> BlockCode(log, b) == Some(1))
            && (!b.isError && (b.background || (exec && b.pendingSession)) ==> BlockCode(log, b) == None)
            && (!b.isError && !b.background && !(exec && b.pendingSession) ==>
                  (BlockCode(log, b) == Some(0) <==> exec || (call.Some? && call.value.name in {"Bash", "Write", "Edit"}))
                  && (BlockCode(log, b) != Some(0) ==> BlockCode(log, b) == None))
  {
    assert !IsExec("") by { assert |"exec_command"| > 0; }
  }
}
