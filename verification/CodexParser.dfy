/** `parseCodexSessionFile`: the session accumulator, checkpoint placement, and resuming from a checkpoint. */
module CodexParser {
  import opened Outcomes
  import opened JsonlCursor
  import Usage

  // ----- Records -----

  /** A timestamp field: its text if it is a string, and its milliseconds if that parses as a date. */
  datatype Stamp = Stamp(text: Option<string>, ms: Option<int>)

  /** The fields of a `session_meta` payload that are fixed for the whole session. */
  datatype Identity = Identity(rawSessionId: string, directory: string, parentSessionId: Option<string>, isSubAgent: bool,
                               agentId: Option<string>, agentRole: Option<string>, agentNickname: Option<string>)

  datatype Role = User | Assistant | OtherRole

  /** A response item; empty strings stand for text, prompts and names the source treats as absent. */
  datatype Item =
    | Message(role: Role, text: string, taskPrompt: string)
    | FunctionCall(name: string, input: string, file: Option<string>)
    | OtherItem

  datatype Entry =
    | SessionMeta(at: Stamp, identity: Option<Identity>)   // None: no payload, or id or cwd not strings
    | ResponseItem(at: Stamp, item: Option<Item>)          // None: no payload
    | EventMsg(at: Stamp, usage: Option<Usage.Record>)     // None: no usable token counts
    | OtherEntry(at: Stamp)

  /** `line.trim()` and `JSON.parse`: blank, unparsable, a falsy JSON value, or a record. */
  datatype Decoded = Blank | Malformed | Falsy | Parsed(entry: Entry)

  /** The clock is read at most once per line. */
  datatype Parser = Parser(decode: Bytes -> Decoded, prices: Usage.PriceList, includeToolCalls: bool, clock: nat -> int)

  // ----- The accumulator -----

  datatype ToolCall = ToolCall(name: string, input: string, at: ToolTime)
  datatype ToolTime = Recorded(text: string) | ReadFromClock(ms: int)

  /** The serialisable value of an accumulator. */
  datatype Acc = Acc(
    identity: Identity,
    firstMessage: Option<string>, launchPrompt: Option<string>, lastMessage: Option<string>,
    lastTool: Option<string>, lastToolInput: Option<string>, currentFile: Option<string>,
    messageCount: nat, toolCount: nat, startedAt: Option<int>, lastActiveAt: int,
    toolCalls: seq<ToolCall>, includeToolCalls: bool, usage: Usage.Totals)

  /** `createAccumulator` */
  function Create(p: Parser, now: int, e: Entry): Option<Acc> {
    if !e.SessionMeta? || e.identity.None? then None
    else Some(Acc(e.identity.value, None, None, None, None, None, None, 0, 0, e.at.ms, e.at.ms.GetOr(now), [],
                  p.includeToolCalls, Usage.NO_USAGE))
  }

  function Touch(acc: Acc, at: Stamp): Acc {
    if at.ms.None? then acc
    else
      var ms := at.ms.value;
      acc.(startedAt := if acc.startedAt.None? || ms < acc.startedAt.value then Some(ms) else acc.startedAt,
           lastActiveAt := if ms > acc.lastActiveAt then ms else acc.lastActiveAt)
  }

  function AddItem(acc: Acc, now: int, at: Stamp, item: Item): Acc {
    match item
    case OtherItem => acc
    case Message(role, text, prompt) =>
      var counted := acc.(messageCount := acc.messageCount + 1);
      if text == "" || role == OtherRole then counted
      else if role == Assistant then counted.(lastMessage := Some(text))
      else if prompt == "" then counted
      else counted.(firstMessage := Some(prompt), launchPrompt := Some(counted.launchPrompt.GetOr(prompt)))
    case FunctionCall(name, input, file) =>
      if name == "" then acc
      else acc.(toolCount := acc.toolCount + 1, lastTool := Some(name), lastToolInput := Some(input),
                currentFile := if file.Some? then file else acc.currentFile,
                toolCalls := if acc.includeToolCalls then acc.toolCalls + [ToolCall(name, input, TimeOf(now, at))]
                             else acc.toolCalls)
  }

  lemma OtherChangesNothing(acc: Acc, now: int, at: Stamp)
    ensures AddItem(acc, now, at, OtherItem) == acc
  {
  }

  function TimeOf(now: int, at: Stamp): ToolTime {
    if at.text.Some? then Recorded(at.text.value) else ReadFromClock(now)
  }

  /** One record on an existing accumulator. A response item without payload does not even touch the timestamps. */
  function Accumulate(p: Parser, now: int, acc: Acc, e: Entry): Acc {
    match e
    case ResponseItem(at, None) => acc
    case ResponseItem(at, Some(item)) => AddItem(Touch(acc, at), now, at, item)
    case EventMsg(at, None) => Touch(acc, at)
    case EventMsg(at, Some(r)) => Touch(acc.(usage := Usage.Add(p.prices, acc.usage, r)), at)
    case SessionMeta(at, _) => Touch(acc, at)
    case OtherEntry(at) => Touch(acc, at)
  }

  class CodexAccumulator {
    const identity: Identity
    const includeToolCalls: bool
    var firstMessage: Option<string>
    var launchPrompt: Option<string>
    var lastMessage: Option<string>
    var lastTool: Option<string>
    var lastToolInput: Option<string>
    var currentFile: Option<string>
    var messageCount: nat
    var toolCount: nat
    var startedAt: Option<int>
    var lastActiveAt: int
    var toolCalls: seq<ToolCall>
    const usage: Usage.UsageAccumulator

    function Value(): Acc
      reads this, usage
    {
      Acc(identity, firstMessage, launchPrompt, lastMessage, lastTool, lastToolInput, currentFile, messageCount, toolCount,
          startedAt, lastActiveAt, toolCalls, includeToolCalls, usage.Value())
    }

    /** Rebuilds the object a value was taken from, as deserialising a checkpoint does. */
    constructor (acc: Acc)
      ensures Value() == acc && fresh(usage)
    {
      identity, includeToolCalls := acc.identity, acc.includeToolCalls;
      firstMessage, launchPrompt, lastMessage := acc.firstMessage, acc.launchPrompt, acc.lastMessage;
      lastTool, lastToolInput, currentFile := acc.lastTool, acc.lastToolInput, acc.currentFile;
      messageCount, toolCount, startedAt, lastActiveAt := acc.messageCount, acc.toolCount, acc.startedAt, acc.lastActiveAt;
      toolCalls := acc.toolCalls;
      usage := new Usage.UsageAccumulator.Restore(acc.usage);
    }

    /** `updateTimestamp` */
    method UpdateTimestamp(at: Stamp)
      modifies this
      ensures Value() == Touch(old(Value()), at)
    {
      if at.ms.None? { return; }
      var ms := at.ms.value;
      if startedAt.None? || ms < startedAt.value { startedAt := Some(ms); }
      if ms > lastActiveAt { lastActiveAt := ms; }
    }

    /** The message branch of `accumulateResponseItem`. */
    method CountMessage(now: int, at: Stamp, role: Role, text: string, prompt: string)
      modifies this
      ensures Value() == AddItem(old(Value()), now, at, Message(role, text, prompt))
    {
      messageCount := messageCount + 1;
      if role == User && text != "" && prompt != "" {
        firstMessage := Some(prompt);
        if launchPrompt.None? { launchPrompt := Some(prompt); }
      }
      if role == Assistant && text != "" { lastMessage := Some(text); }
    }

    /** The function call branch of `accumulateResponseItem`. */
    method CountCall(now: int, at: Stamp, name: string, input: string, file: Option<string>)
      modifies this
      ensures Value() == AddItem(old(Value()), now, at, FunctionCall(name, input, file))
    {
      if name == "" { return; }
      hide TimeOf;
      toolCount := toolCount + 1;
      lastTool, lastToolInput := Some(name), Some(input);
      if file.Some? { currentFile := file; }
      if includeToolCalls { toolCalls := toolCalls + [ToolCall(name, input, TimeOf(now, at))]; }
    }

    /** `accumulateResponseItem` */
    method AccumulateResponseItem(now: int, at: Stamp, item: Option<Item>)
      modifies this
      ensures Value() == if item.None? then old(Value()) else AddItem(Touch(old(Value()), at), now, at, item.value)
    {
      if item.None? { return; }
      hide Touch, AddItem, Value;
      UpdateTimestamp(at);
      match item.value {
        case Message(role, text, prompt) => CountMessage(now, at, role, text, prompt);
        case FunctionCall(name, input, file) => CountCall(now, at, name, input, file);
        case OtherItem => OtherChangesNothing(Value(), now, at);
      }
    }

    /** The dispatch of `processLine` once the accumulator exists. */
    method Process(p: Parser, now: int, e: Entry)
      modifies this, usage
      ensures Value() == Accumulate(p, now, old(Value()), e)
    {
      match e {
        case ResponseItem(at, item) => AccumulateResponseItem(now, at, item);
        case EventMsg(at, r) =>
          if r.Some? { usage.AddUsage(p.prices, r.value); }
          UpdateTimestamp(at);
        case SessionMeta(at, _) => UpdateTimestamp(at);
        case OtherEntry(at) => UpdateTimestamp(at);
      }
    }
  }

  // ----- The parse as a function of its lines -----

  type State = Option<Acc>

  /** One decoded record on the accumulator, which the first complete `session_meta` creates. */
  function Apply(p: Parser, now: int, st: State, d: Decoded): State {
    if !d.Parsed? then st
    else if st.None? then Create(p, now, d.entry)
    else Some(Accumulate(p, now, st.value, d.entry))
  }

  /** A parse error carries the number of the malformed line. */
  type Parse = Result<State, nat>

  function ProcessLine(p: Parser, st: State, line: Line): Parse {
    var d := p.decode(line.text);
    if d.Malformed? && !line.last then Err(line.lineNumber) else Ok(Apply(p, p.clock(line.lineNumber), st, d))
  }

  function ProcessLines(p: Parser, st: State, lines: seq<Line>): Parse {
    if |lines| == 0 then Ok(st)
    else
      var before := ProcessLines(p, st, lines[..|lines| - 1]);
      if before.Err? then before else ProcessLine(p, before.value, lines[|lines| - 1])
  }

  datatype Checkpoint = Checkpoint(offset: nat, lineNumber: nat, state: State)

  const START := Checkpoint(0, 0, None)

  /** The result of a scan and the checkpoint it hands to the cache; a failed scan saves nothing. */
  datatype Scan = Scan(result: Parse, saved: Option<Checkpoint>)

  /** The position of the last terminated line. */
  function Position(cp: Checkpoint, lines: seq<Line>): (nat, nat) {
    if |lines| == 0 then (cp.offset, cp.lineNumber)
    else
      var line := lines[|lines| - 1];
      if line.terminated then (line.offset, line.lineNumber) else Position(cp, lines[..|lines| - 1])
  }

  /** A scan of lines: the tail is shown in the result but is never part of the checkpoint. */
  function ScanLines(p: Parser, cp: Checkpoint, lines: seq<Line>): Scan {
    var result := ProcessLines(p, cp.state, lines);
    if result.Err? then Scan(result, None)
    else
      var n := |lines|;
      var (offset, lineNumber) := Position(cp, lines);
      var state := if n > 0 && !lines[n - 1].terminated then ProcessLines(p, cp.state, lines[..n - 1]).value else result.value;
      Scan(result, Some(Checkpoint(offset, lineNumber, state)))
  }

  /** A scan of the bytes after a checkpoint. */
  function ScanFrom(p: Parser, cp: Checkpoint, data: Bytes): Scan {
    ScanLines(p, cp, LinesOf(CutBytes(data), cp.offset, cp.lineNumber))
  }

  function FullScan(p: Parser, content: Bytes): Scan {
    ScanFrom(p, START, content)
  }

  lemma {:induction false} ProcessLinesConcat(p: Parser, st: State, a: seq<Line>, b: seq<Line>)
    ensures ProcessLines(p, st, a + b)
            == var first := ProcessLines(p, st, a);
               if first.Err? then first else ProcessLines(p, first.value, b)
    decreases |b|
  {
    if |b| == 0 {
      assert a + b == a;
    } else {
      var n := |b| - 1;
      ProcessLinesConcat(p, st, a, b[..n]);
      assert (a + b)[..|a| + n] == a + b[..n];
    }
  }

  // ----- The imperative parse -----

  /** `processLine`: false when the line is malformed and not the last. */
  method HandleLine(p: Parser, accumulator: CodexAccumulator?, line: Line) returns (ok: bool, after: CodexAccumulator?)
    modifies accumulator, if accumulator == null then {} else {accumulator.usage}
    ensures !ok ==> ProcessLine(p, old(Snapshot(accumulator)), line) == Err(line.lineNumber)
    ensures ok ==> ProcessLine(p, old(Snapshot(accumulator)), line) == Ok(Snapshot(after))
    ensures accumulator != null ==> after == accumulator
    ensures accumulator == null && after != null ==> fresh(after) && fresh(after.usage)
  {
    after := accumulator;
    var d := p.decode(line.text);
    if d.Malformed? && !line.last { return false, after; }
    ok := true;
    if !d.Parsed? { return; }
    if after == null {
      var created := Create(p, p.clock(line.lineNumber), d.entry);
      if created.Some? { after := new CodexAccumulator(created.value); }
    } else {
      after.Process(p, p.clock(line.lineNumber), d.entry);
    }
  }

  lemma NoLines(p: Parser, st: State)
    ensures ProcessLines(p, st, []) == Ok(st)
  {
  }

  lemma ProcessLinesOneMore(p: Parser, st: State, lines: seq<Line>, i: nat)
    requires i < |lines|
    ensures ProcessLines(p, st, lines[..i + 1])
            == var before := ProcessLines(p, st, lines[..i]);
               if before.Err? then before else ProcessLine(p, before.value, lines[i])
  {
    assert lines[..i + 1][..i] == lines[..i];
  }

  lemma ErrorIsFinal(p: Parser, st: State, lines: seq<Line>, i: nat)
    requires i <= |lines| && ProcessLines(p, st, lines[..i]).Err?
    ensures ProcessLines(p, st, lines) == ProcessLines(p, st, lines[..i])
  {
    ProcessLinesConcat(p, st, lines[..i], lines[i..]);
    assert lines[..i] + lines[i..] == lines;
  }

  /** Only the last line can be unterminated. */
  predicate TailIsLast(lines: seq<Line>) {
    forall i :: 0 <= i < |lines| - 1 ==> lines[i].terminated
  }

  lemma {:induction false} RecordLinesAre(records: seq<Bytes>, offset: nat, lineNumber: nat, i: nat)
    requires i < |records|
    ensures var line := RecordLines(records, offset, lineNumber)[i];
            line.terminated && !line.last && line.text == StripCr(records[i])
  {
    if i < |records| - 1 {
      RecordLinesAre(records[..|records| - 1], offset, lineNumber, i);
    }
  }

  lemma LinesHaveOneTail(c: Cut, offset: nat, lineNumber: nat)
    ensures TailIsLast(LinesOf(c, offset, lineNumber))
  {
    forall i | 0 <= i < |c.records| ensures RecordLines(c.records, offset, lineNumber)[i].terminated {
      RecordLinesAre(c.records, offset, lineNumber, i);
    }
  }

  /** `parseCodexSessionFile` over the lines of the cursor. The checkpoint is serialised when it is handed out:
    * before the tail is processed if there is one, after the last line otherwise. */
  method ParseCodexSession(p: Parser, chunks: seq<Bytes>, cp: Checkpoint) returns (scan: Scan)
    ensures scan == ScanFrom(p, cp, Flatten(chunks))
  {
    hide ProcessLines, ProcessLine, LinesOf, CutBytes;
    NoLines(p, cp.state);
    var lines := JsonlLines(chunks, cp.offset, cp.lineNumber);
    LinesHaveOneTail(CutBytes(Flatten(chunks)), cp.offset, cp.lineNumber);
    var accumulator: CodexAccumulator? := null;
    if cp.state.Some? { accumulator := new CodexAccumulator(cp.state.value); }
    var offset, lineNumber, partial := cp.offset, cp.lineNumber, false;
    var saved: Option<Checkpoint> := None;
    assert lines[..0] == [];
    for i := 0 to |lines|
      invariant accumulator != null ==> fresh(accumulator) && fresh(accumulator.usage)
      invariant ProcessLines(p, cp.state, lines[..i]) == Ok(Snapshot(accumulator))
      invariant (offset, lineNumber) == Position(cp, lines[..i])
      invariant partial <==> i > 0 && !lines[i - 1].terminated
      invariant partial ==> i == |lines| && saved == ScanLines(p, cp, lines[..i]).saved
    {
      var line := lines[i];
      ProcessLinesOneMore(p, cp.state, lines, i);
      assert lines[..i + 1][..i] == lines[..i];
      if !line.terminated {
        partial := true;
        saved := Some(Checkpoint(offset, lineNumber, Snapshot(accumulator)));
      }
      var ok;
      ok, accumulator := HandleLine(p, accumulator, line);
      if !ok {
        ErrorIsFinal(p, cp.state, lines, i + 1);
        scan := Scan(Err(line.lineNumber), None);
        return;
      }
      if line.terminated {
        offset, lineNumber := line.offset, line.lineNumber;
      }
    }
    assert lines[..|lines|] == lines;
    if !partial {
      saved := Some(Checkpoint(offset, lineNumber, Snapshot(accumulator)));
    }
    scan := Scan(Ok(Snapshot(accumulator)), saved);
  }

  function Snapshot(accumulator: CodexAccumulator?): State
    reads accumulator, if accumulator == null then {} else {accumulator.usage}
  {
    if accumulator == null then None else Some(accumulator.Value())
  }
}
