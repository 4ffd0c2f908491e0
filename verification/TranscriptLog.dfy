/** The fact log that `TranscriptFacts` builds, as a value: what each record does to it. */
module TranscriptLog {
  import opened Outcomes
  import opened Basics

  // ----- Facts -----

  /** A timestamp text and the milliseconds it parses to. */
  datatype Instant = Instant(text: string, ms: int)

  /** A JSON value, kept as text. */
  type Json = string

  datatype EvidenceKind = CommandEvidence | TestEvidence | FileEvidence | CommitEvidence | PrEvidence | VerdictEvidence
  datatype Evidence = Evidence(kind: EvidenceKind, value: string, exitCode: Option<int>)

  datatype Tool = Tool(callId: string, name: string, input: Json, at: Instant, turnId: string, mutating: bool,
                       startedOrder: nat, completed: bool, completedOrder: Option<nat>, exitCode: Option<int>,
                       outputHead: Option<string>, evidence: seq<Evidence>)

  datatype Phase = Started | Completed | Aborted
  datatype Scope = UsageLimit | BudgetLimit

  datatype Fact =
    | UserMessage(text: string, sentAt: Instant, userTurn: string)
    | AgentMessage(text: string, saidAt: Instant, agentTurn: string, final: bool)
    | TurnFact(phase: Phase, turnAt: Instant, turn: string, reason: Option<string>)
    | ToolFact(tool: Tool)
    | LimitFact(scope: Scope, limitAt: Instant)
    | ContextFact(usedTokens: int, windowTokens: int, contextAt: Instant)
  {
    function At(): Instant {
      match this
      case UserMessage(_, at, _) => at
      case AgentMessage(_, at, _, _) => at
      case TurnFact(_, at, _, _) => at
      case ToolFact(t) => t.at
      case LimitFact(_, at) => at
      case ContextFact(_, _, at) => at
    }
  }

  datatype MessageKey = MessageKey(fromUser: bool, turn: string, text: string, final: bool)

  /** Everything a snapshot holds; the call index is derived from the facts. */
  datatype Log = Log(facts: seq<Fact>, unknownRecords: nat, turnId: string, messages: set<MessageKey>, order: nat,
                     sessions: map<string, string>)

  const EMPTY := Log([], 0, "", {}, 0, map[])

  // ----- The functions whose bodies are not part of this model -----

  datatype EvidenceResult = EvidenceResult(exitCode: Option<int>, outputHead: string, facts: seq<Evidence>)

  datatype Env = Env(
    extractTaskPrompt: string -> string,
    isMutatingTool: (string, Json) -> bool,
    outputEvidence: (Json, Json, string, Option<int>, bool) -> EvidenceResult,
    textHead: Json -> string,              // the first 400 characters of the text content
    startedSession: Json -> Option<string>,  // the terminal session id an exec output announces
    inputSession: Json -> string)            // String(input.session_id)

  // ----- Records, decoded as far as the branches look -----

  /** A tool result as the log sees it. */
  datatype Outcome = Outcome(output: Json, code: Option<int>, implicit: bool, at: Instant)

  datatype Item =
    | AgentText(text: string, final: bool)
    | UserText(text: string)
    | ToolUse(callId: string, name: string, input: Json)
    | CommandExecution(callId: string, command: Option<Json>, output: Json, code: Option<int>)
    | ToolOutput(callId: string, output: Json, code: Option<int>)
    | OtherItem

  /** A content block of a Claude message. */
  datatype Block =
    | UseBlock(callId: string, name: string, input: Json)
    | ResultBlock(callId: string, output: Json, isError: bool, background: bool, pendingSession: bool)
    | TextBlock

  datatype Body =
    // Codex
    | Compacted
    | ItemCompletedEvent(item: Item)
    | TurnEvent(phase: Phase, turnId: Option<string>, reason: Option<string>, lastAgentMessage: string)
    | UserMessageEvent(text: string)
    | TokenCount(tokens: Option<(int, int)>)
    | LimitEvent(scope: Scope)
    | OtherEvent
    | ItemRecord(item: Item)
    | KnownRecord
    | UnknownRecord
    // Claude
    | ClaudeRecord(compactBoundary: bool, usedTokens: Option<int>, prompt: string, uuid: Option<string>,
                   blocks: seq<Block>, reply: Option<(string, bool)>, stop: bool)

  /** The timestamp is absent when missing or not a date. */
  datatype Record = Record(at: Option<Instant>, body: Body)

  // ----- Tool names -----

  /** `/(?:^|[_.])suffix$/` */
  predicate HasSuffixPart(name: string, suffix: string) {
    name == suffix || EndsWith(name, "_" + suffix) || EndsWith(name, "." + suffix)
  }

  predicate IsExec(name: string) { HasSuffixPart(name, "exec_command") }
  predicate IsWriteStdin(name: string) { HasSuffixPart(name, "write_stdin") }
  predicate IsExecution(name: string) { name == "Bash" || IsExec(name) }

  lemma ExecIsNotWriteStdin(name: string)
    ensures !(IsExec(name) && IsWriteStdin(name))
  {
    if IsExec(name) { assert name[|name| - 1] == 'd'; }
    if IsWriteStdin(name) { assert name[|name| - 1] == 'n'; }
  }

  // ----- Finding and moving facts -----

  /** The index of the last tool fact with this call id, or -1: what `calls.get(id)` refers to. */
  function LastTool(facts: seq<Fact>, id: string): (i: int)
    ensures -1 <= i < |facts|
    ensures i >= 0 ==> facts[i].ToolFact? && facts[i].tool.callId == id
    ensures forall j :: i < j < |facts| ==> !(facts[j].ToolFact? && facts[j].tool.callId == id)
  {
    if |facts| == 0 then -1
    else
      var n := |facts| - 1;
      if facts[n].ToolFact? && facts[n].tool.callId == id then n else LastTool(facts[..n], id)
  }

  function FirstContext(facts: seq<Fact>): (i: nat)
    ensures i <= |facts|
    ensures i < |facts| ==> facts[i].ContextFact?
    ensures forall j :: 0 <= j < i ==> !facts[j].ContextFact?
  {
    if |facts| == 0 || facts[0].ContextFact? then 0 else 1 + FirstContext(facts[1..])
  }

  function RemoveContext(facts: seq<Fact>): seq<Fact> {
    var i := FirstContext(facts);
    if i == |facts| then facts else facts[..i] + facts[i + 1..]
  }

  function MoveToEnd(facts: seq<Fact>, i: nat, f: Fact): seq<Fact>
    requires i < |facts|
  {
    facts[..i] + facts[i + 1..] + [f]
  }

  // ----- Messages, calls and results -----

  /** `message` */
  function AddMessage(env: Env, log: Log, fromUser: bool, text: string, at: Instant, final: bool): Log {
    var authored := if fromUser then env.extractTaskPrompt(text) else text;
    var key := MessageKey(fromUser, log.turnId, authored, !fromUser && final);
    if text == "" || authored == "" || key in log.messages then log
    else log.(messages := log.messages + {key},
              facts := log.facts + [if fromUser then UserMessage(authored, at, log.turnId)
                                    else AgentMessage(authored, at, log.turnId, final)])
  }

  /** `tool` */
  function AddTool(env: Env, log: Log, id: string, name: string, input: Json, at: Instant): Log {
    if id == "" || name == "" then log
    else log.(facts := log.facts + [ToolFact(Tool(id, name, input, at, log.turnId, env.isMutatingTool(name, input),
                                                  log.order, false, None, None, None, []))])
  }

  function PriorFailure(evidence: seq<Evidence>): seq<Evidence> {
    if |evidence| == 0 then []
    else if evidence[0].kind.TestEvidence? && evidence[0].exitCode.Some? && evidence[0].exitCode.value != 0 then [evidence[0]]
    else PriorFailure(evidence[1..])
  }

  function CommandsOnly(evidence: seq<Evidence>): seq<Evidence> {
    if |evidence| == 0 then []
    else (if evidence[0].kind.CommandEvidence? then [evidence[0]] else []) + CommandsOnly(evidence[1..])
  }

  /** The first half of `result`: the call is marked completed, and an exec call may announce a terminal session. */
  function BeginResult(env: Env, log: Log, id: string, o: Outcome): Log
    requires LastTool(log.facts, id) >= 0
  {
    var i := LastTool(log.facts, id);
    var t := log.facts[i].tool;
    var started := if IsExec(t.name) then env.startedSession(o.output) else None;
    log.(facts := log.facts[i := ToolFact(t.(completed := true))],
         sessions := if started.Some? then log.sessions[started.value := id] else log.sessions)
  }

  /** What a result makes of its own call. */
  function Judge(env: Env, t: Tool, o: Outcome, previousExit: Option<int>, order: nat): Tool {
    if !t.mutating && !IsExecution(t.name) then
      t.(outputHead := Some(env.textHead(o.output)), exitCode := o.code, evidence := [])
    else
      var r := env.outputEvidence(o.output, t.input, t.name, o.code, o.implicit);
      var all := r.facts + PriorFailure(t.evidence);
      var kept := if t.mutating then all else CommandsOnly(all);
      var terminal := r.exitCode.Some? || (!IsExecution(t.name) && exists e :: e in kept && e.kind.FileEvidence?);
      t.(exitCode := r.exitCode, outputHead := Some(r.outputHead), evidence := kept,
         completedOrder := if terminal && (t.completedOrder.None? || previousExit != r.exitCode) then Some(order)
                           else t.completedOrder,
         at := if Moves(t, previousExit, r.exitCode) then o.at else t.at)
  }

  /** An execution fact moves to the end when its exit code becomes known or changes. */
  predicate Moves(t: Tool, previousExit: Option<int>, exitCode: Option<int>) {
    IsExecution(t.name) && previousExit != exitCode && exitCode.Some?
  }

  /** The second half of `result`. */
  function FinishResult(env: Env, log: Log, id: string, o: Outcome, previousExit: Option<int>): Log
    requires LastTool(log.facts, id) >= 0
  {
    var i := LastTool(log.facts, id);
    var t := log.facts[i].tool;
    var judged := Judge(env, t, o, previousExit, log.order);
    log.(facts := if Moves(t, previousExit, judged.exitCode) then MoveToEnd(log.facts, i, ToolFact(judged))
                  else log.facts[i := ToolFact(judged)])
  }

  /** The call a `write_stdin` result is forwarded to. */
  function Forward(env: Env, log: Log, id: string): Option<string> {
    var i := LastTool(log.facts, id);
    if i < 0 || !IsWriteStdin(log.facts[i].tool.name) then None
    else
      var session := env.inputSession(log.facts[i].tool.input);
      if session in log.sessions && log.sessions[session] != "" then Some(log.sessions[session]) else None
  }

  /** `result` with at most `depth` nested forwards; None when that is not enough. */
  function ApplyResult(env: Env, log: Log, id: string, o: Outcome, depth: nat): Option<Log>
    decreases depth
  {
    var i := LastTool(log.facts, id);
    if i < 0 then Some(log)
    else
      var begun := BeginResult(env, log, id, o);
      var target := Forward(env, begun, id);
      var forwarded := if target.None? then Some(begun)
                       else if depth == 0 then None
                       else ApplyResult(env, begun, target.value, o, depth - 1);
      if forwarded.None? || LastTool(forwarded.value.facts, id) < 0 then None
      else Some(FinishResult(env, forwarded.value, id, o, log.facts[i].tool.exitCode))
  }

  // ----- Whole records -----

  function SetContext(log: Log, used: int, window: int, at: Instant): Log {
    log.(facts := RemoveContext(log.facts) + [ContextFact(used, window, at)])
  }

  function AddItem(env: Env, log: Log, item: Item, at: Instant, depth: nat): Option<Log> {
    match item
    case AgentText(text, final) => Some(AddMessage(env, log, false, text, at, final))
    case UserText(text) => Some(AddMessage(env, log, true, text, at, false))
    case ToolUse(id, name, input) => Some(AddTool(env, log, id, name, input, at))
    case CommandExecution(id, command, output, code) =>
      var known := if LastTool(log.facts, id) < 0 && command.Some? then AddTool(env, log, id, "exec_command", command.value, at)
                   else log;
      ApplyResult(env, known, id, Outcome(output, code, false, at), depth)
    case ToolOutput(id, output, code) => ApplyResult(env, log, id, Outcome(output, code, false, at), depth)
    case OtherItem => Some(log)
  }

  /** The implicit code of a Claude tool result. */
  function BlockCode(log: Log, b: Block): Option<int>
    requires b.ResultBlock?
  {
    var i := LastTool(log.facts, b.callId);
    var name := if i < 0 then "" else log.facts[i].tool.name;
    if b.isError then Some(1)
    else if b.background || (IsExec(name) && b.pendingSession) then None
    else if name in {"Bash", "Write", "Edit"} || IsExec(name) then Some(0)
    else None
  }

  function AddBlock(env: Env, log: Log, b: Block, at: Instant, depth: nat): Option<Log> {
    match b
    case TextBlock => Some(log)
    case UseBlock(id, name, input) => Some(AddTool(env, log, id, name, input, at))
    case ResultBlock(id, output, _, _, _) => ApplyResult(env, log, id, Outcome(output, BlockCode(log, b), true, at), depth)
  }

  function AddBlocks(env: Env, log: Log, blocks: seq<Block>, at: Instant, depth: nat): Option<Log> {
    if |blocks| == 0 then Some(log)
    else
      var before := AddBlocks(env, log, blocks[..|blocks| - 1], at, depth);
      if before.None? then None else AddBlock(env, before.value, blocks[|blocks| - 1], at, depth)
  }

  function AddFact(log: Log, f: Fact): Log {
    log.(facts := log.facts + [f])
  }

  function CurrentTurn(log: Log, at: Instant): string {
    if log.turnId == "" then at.text else log.turnId
  }

  /** Before the blocks of a Claude record: compaction, context size and the user's prompt. */
  function ClaudeHead(env: Env, log: Log, b: Body, at: Instant): Log
    requires b.ClaudeRecord?
  {
    var l1 := if b.compactBoundary then log.(facts := RemoveContext(log.facts)) else log;
    var l2 := if b.usedTokens.Some? then SetContext(l1, b.usedTokens.value, 1000000, at) else l1;
    if b.prompt == "" then l2
    else
      var turn := b.uuid.GetOr(at.text);
      AddMessage(env, AddFact(l2.(turnId := turn), TurnFact(Started, at, turn, None)), true, b.prompt, at, false)
  }

  function MarkLastReplyFinal(facts: seq<Fact>): seq<Fact> {
    if |facts| == 0 then []
    else
      var n := |facts| - 1;
      if facts[n].AgentMessage? then facts[..n] + [facts[n].(final := true)]
      else MarkLastReplyFinal(facts[..n]) + [facts[n]]
  }

  predicate TurnClosed(facts: seq<Fact>, turn: string) {
    exists f :: f in facts && f.TurnFact? && f.phase == Completed && f.turn == turn
  }

  /** After the blocks: the assistant's reply and the end of the turn. */
  function ClaudeTail(env: Env, log: Log, b: Body, at: Instant): Log
    requires b.ClaudeRecord?
  {
    var l1 := if b.reply.None? then log
              else
                var said := AddMessage(env, log, false, b.reply.value.0, at, b.reply.value.1);
                if b.reply.value.1 then AddFact(said, TurnFact(Completed, at, CurrentTurn(said, at), None)) else said;
    if !b.stop then l1
    else
      var l2 := l1.(facts := MarkLastReplyFinal(l1.facts));
      if TurnClosed(l2.facts, l2.turnId) then l2
      else AddFact(l2, TurnFact(Completed, at, CurrentTurn(l2, at), None))
  }

  function AddClaude(env: Env, log: Log, b: Body, at: Instant, depth: nat): Option<Log>
    requires b.ClaudeRecord?
  {
    var done := AddBlocks(env, ClaudeHead(env, log, b, at), b.blocks, at, depth);
    if done.None? then None else Some(ClaudeTail(env, done.value, b, at))
  }

  /** The Codex records that carry no item. */
  function AddEvent(env: Env, log: Log, b: Body, at: Instant): Log {
    match b
    case Compacted => log.(facts := RemoveContext(log.facts))
    case TurnEvent(phase, turnId, reason, last) =>
      var turn := turnId.GetOr(CurrentTurn(log, at));
      AddMessage(env, AddFact(log.(turnId := turn), TurnFact(phase, at, turn, reason)), false, last, at, true)
    case UserMessageEvent(text) => AddMessage(env, log, true, text, at, false)
    case TokenCount(Some((used, window))) => SetContext(log, used, window, at)
    case LimitEvent(scope) => AddFact(log, LimitFact(scope, at))
    case UnknownRecord => log.(unknownRecords := log.unknownRecords + 1)
    case _ => log
  }

  /** A completed item arrives inside an event and is added as a record of its own, which counts once more. */
  function AddBody(env: Env, log: Log, b: Body, at: Instant, depth: nat): Option<Log> {
    if b.ClaudeRecord? then AddClaude(env, log, b, at, depth)
    else if b.ItemRecord? then AddItem(env, log, b.item, at, depth)
    else if b.ItemCompletedEvent? then AddItem(env, log.(order := log.order + 1), b.item, at, depth)
    else Some(AddEvent(env, log, b, at))
  }

  /** `add`. Undated and expired records are ignored. */
  function Add(env: Env, since: int, log: Log, r: Record, depth: nat): Option<Log> {
    if r.at.None? || r.at.value.ms < since then Some(log)
    else AddBody(env, log.(order := log.order + 1), r.body, r.at.value, depth)
  }

  function AddAll(env: Env, since: int, log: Log, rs: seq<Record>, depth: nat): Option<Log> {
    if |rs| == 0 then Some(log)
    else
      var before := AddAll(env, since, log, rs[..|rs| - 1], depth);
      if before.None? then None else Add(env, since, before.value, rs[|rs| - 1], depth)
  }

  // ----- Snapshot and restore -----

  /** The serialised state. */
  datatype Snapshot = Snapshot(facts: seq<Fact>, unknownRecords: nat, turnId: string, messages: set<MessageKey>,
                               order: nat, sessions: map<string, string>)

  function Save(log: Log): Snapshot {
    Snapshot(log.facts, log.unknownRecords, log.turnId, log.messages, log.order, log.sessions)
  }

  function Unexpired(facts: seq<Fact>, since: int): seq<Fact> {
    if |facts| == 0 then []
    else
      var n := |facts| - 1;
      Unexpired(facts[..n], since) + if facts[n].At().ms >= since then [facts[n]] else []
  }

  function MaxOrder(facts: seq<Fact>, order: nat): nat {
    if |facts| == 0 then order
    else
      var n := |facts| - 1;
      var before := MaxOrder(facts[..n], order);
      if !facts[n].ToolFact? then before
      else
        var started := if facts[n].tool.startedOrder > before then facts[n].tool.startedOrder else before;
        if facts[n].tool.completedOrder.GetOr(0) > started then facts[n].tool.completedOrder.value else started
  }

  /** The restoring constructor: expired facts go, and with them calls and the sessions that point to them. */
  function Restore(s: Snapshot, since: int): Log {
    var facts := Unexpired(s.facts, since);
    Log(facts, s.unknownRecords, s.turnId, s.messages, MaxOrder(facts, s.order),
        map k | k in s.sessions && LastTool(facts, s.sessions[k]) >= 0 :: s.sessions[k])
  }
}
