/** What a parsed session says, read off the list of its records. */
module ParsedSummary {
  import opened Outcomes
  import opened JsonlCursor
  import opened CodexParser
  import Usage

  // ----- The records of a transcript, and what to look for in them -----

  function Entries(p: Parser, lines: seq<Line>): seq<Entry> {
    if |lines| == 0 then []
    else
      var d := p.decode(lines[|lines| - 1].text);
      Entries(p, lines[..|lines| - 1]) + if d.Parsed? then [d.entry] else []
  }

  /** A complete `session_meta`. */
  predicate Opens(e: Entry) { e.SessionMeta? && e.identity.Some? }

  /** The place of the first complete `session_meta`, or the number of records. */
  function Opening(es: seq<Entry>): (i: nat)
    ensures i <= |es|
    ensures i < |es| ==> Opens(es[i])
    ensures forall j :: 0 <= j < i ==> !Opens(es[j])
  {
    if |es| == 0 then 0
    else
      var i := Opening(es[..|es| - 1]);
      if i < |es| - 1 || Opens(es[|es| - 1]) then i else |es|
  }

  /** What f finds in the records, in their order. */
  function Picked<T>(es: seq<Entry>, f: Entry -> Option<T>): seq<T> {
    if |es| == 0 then []
    else Picked(es[..|es| - 1], f) + if f(es[|es| - 1]).Some? then [f(es[|es| - 1]).value] else []
  }

  function First<T>(s: seq<T>): Option<T> { if |s| == 0 then None else Some(s[0]) }
  function Last<T>(s: seq<T>): Option<T> { if |s| == 0 then None else Some(s[|s| - 1]) }

  function ItemOf(e: Entry): Option<Item> {
    if e.ResponseItem? then e.item else None
  }

  function UserPrompt(e: Entry): Option<string> {
    match ItemOf(e)
    case Some(Message(User, text, prompt)) => if text != "" && prompt != "" then Some(prompt) else None
    case _ => None
  }

  function AssistantText(e: Entry): Option<string> {
    match ItemOf(e)
    case Some(Message(Assistant, text, _)) => if text != "" then Some(text) else None
    case _ => None
  }

  function MessageOf(e: Entry): Option<Item> {
    if ItemOf(e).Some? && ItemOf(e).value.Message? then ItemOf(e) else None
  }

  /** The name and input of a named call. */
  function CallOf(e: Entry): Option<(string, string)> {
    match ItemOf(e)
    case Some(FunctionCall(name, input, _)) => if name != "" then Some((name, input)) else None
    case _ => None
  }

  function FileOf(e: Entry): Option<string> {
    match ItemOf(e)
    case Some(FunctionCall(name, _, file)) => if name != "" then file else None
    case _ => None
  }

  function UsageOf(e: Entry): Option<Usage.Record> {
    if e.EventMsg? then e.usage else None
  }

  /** The time of a record; a response item without payload does not count. */
  function TimeOfEntry(e: Entry): Option<int> {
    if e.ResponseItem? && e.item.None? then None else e.at.ms
  }

  // ----- The summary -----

  /** The messages: prompts come from the user, the last message from the assistant. */
  predicate SaysMessages(acc: Acc, body: seq<Entry>) {
    && acc.launchPrompt == First(Picked(body, UserPrompt))
    && acc.firstMessage == Last(Picked(body, UserPrompt))
    && acc.lastMessage == Last(Picked(body, AssistantText))
    && acc.messageCount == |Picked(body, MessageOf)|
  }

  function Names(calls: seq<(string, string)>): seq<string> {
    seq(|calls|, i requires 0 <= i < |calls| => calls[i].0)
  }

  predicate SameCalls(kept: seq<ToolCall>, calls: seq<(string, string)>) {
    |kept| == |calls| && forall i :: 0 <= i < |kept| ==> kept[i].name == calls[i].0 && kept[i].input == calls[i].1
  }

  /** The calls: how many, the last one, the last file, and all of them if they are to be kept. */
  predicate SaysCalls(acc: Acc, body: seq<Entry>) {
    var calls := Picked(body, CallOf);
    && acc.toolCount == |calls|
    && acc.lastTool == (if Last(calls).Some? then Some(Last(calls).value.0) else None)
    && acc.lastToolInput == (if Last(calls).Some? then Some(Last(calls).value.1) else None)
    && acc.currentFile == Last(Picked(body, FileOf))
    && SameCalls(acc.toolCalls, if acc.includeToolCalls then calls else [])
  }

  /** The times: from the earliest dated record to the latest, or to the time the parse read for an undated opening. */
  predicate SaysTimes(acc: Acc, opening: Option<int>, clock: int, body: seq<Entry>) {
    var later := Picked(body, TimeOfEntry);
    var times := (if opening.Some? then [opening.value] else []) + later;
    && (acc.startedAt.None? <==> times == [])
    && (acc.startedAt.Some? ==> acc.startedAt.value in times && forall t :: t in times ==> acc.startedAt.value <= t)
    && var base := if opening.Some? then opening.value else clock;
       (acc.lastActiveAt == base || acc.lastActiveAt in later) && acc.lastActiveAt >= base && forall t :: t in later ==> acc.lastActiveAt >= t
  }

  /** Everything a session says: who it is from its opening, and the rest from the records after that. */
  predicate Says(p: Parser, acc: Acc, es: seq<Entry>, clock: int) {
    && Opening(es) < |es|
    && var opening, body := es[Opening(es)], es[Opening(es) + 1..];
       && Some(acc.identity) == opening.identity && acc.includeToolCalls == p.includeToolCalls
       && SaysMessages(acc, body) && SaysCalls(acc, body) && SaysTimes(acc, opening.at.ms, clock, body)
       && acc.usage == Usage.AddAll(p.prices, Picked(body, UsageOf))
  }

  // ----- One more record -----

  lemma PickedOneMore<T>(es: seq<Entry>, e: Entry, f: Entry -> Option<T>)
    ensures Picked(es + [e], f) == Picked(es, f) + if f(e).Some? then [f(e).value] else []
  {
    assert (es + [e])[..|es|] == es;
  }

  lemma TouchKeeps(acc: Acc, at: Stamp)
    ensures Touch(acc, at) == acc.(startedAt := Touch(acc, at).startedAt, lastActiveAt := Touch(acc, at).lastActiveAt)
  {
  }

  /** One record moves the times, adds its usage, and then adds its item. */
  lemma AccumulateIs(p: Parser, now: int, acc: Acc, e: Entry) returns (base: Acc)
    ensures base == acc.(startedAt := base.startedAt, lastActiveAt := base.lastActiveAt, usage := base.usage)
    ensures base.usage == if UsageOf(e).Some? then Usage.Add(p.prices, acc.usage, UsageOf(e).value) else acc.usage
    ensures Accumulate(p, now, acc, e) == if ItemOf(e).Some? then AddItem(base, now, e.at, ItemOf(e).value) else base
  {
    hide Touch, Usage.Add, AddItem;
    var counted := if UsageOf(e).Some? then acc.(usage := Usage.Add(p.prices, acc.usage, UsageOf(e).value)) else acc;
    base := if e.ResponseItem? && e.item.None? then acc else Touch(counted, e.at);
    TouchKeeps(counted, e.at);
  }

  lemma MessagesOneMore(p: Parser, now: int, acc: Acc, body: seq<Entry>, e: Entry)
    requires SaysMessages(acc, body)
    ensures SaysMessages(Accumulate(p, now, acc, e), body + [e])
  {
    hide Picked, Accumulate, Usage.Add, TimeOf;
    var base := AccumulateIs(p, now, acc, e);
    PickedOneMore(body, e, UserPrompt);
    PickedOneMore(body, e, AssistantText);
    PickedOneMore(body, e, MessageOf);
  }

  lemma CallsOneMore(p: Parser, now: int, acc: Acc, body: seq<Entry>, e: Entry)
    requires SaysCalls(acc, body)
    ensures SaysCalls(Accumulate(p, now, acc, e), body + [e])
  {
    hide Picked, Accumulate, Usage.Add, TimeOf;
    var base := AccumulateIs(p, now, acc, e);
    PickedOneMore(body, e, CallOf);
    PickedOneMore(body, e, FileOf);
  }

  lemma ItemKeepsUsage(acc: Acc, now: int, at: Stamp, item: Item)
    ensures AddItem(acc, now, at, item).usage == acc.usage
  {
  }

  lemma UsageOneMore(p: Parser, now: int, acc: Acc, body: seq<Entry>, e: Entry)
    requires acc.usage == Usage.AddAll(p.prices, Picked(body, UsageOf))
    ensures Accumulate(p, now, acc, e).usage == Usage.AddAll(p.prices, Picked(body + [e], UsageOf))
  {
    hide Picked, Accumulate, Usage.Add, AddItem;
    var base := AccumulateIs(p, now, acc, e);
    if ItemOf(e).Some? { ItemKeepsUsage(base, now, e.at, ItemOf(e).value); }
    PickedOneMore(body, e, UsageOf);
    var rs := Picked(body, UsageOf);
    if UsageOf(e).Some? {
      assert (rs + [UsageOf(e).value])[..|rs|] == rs;
    } else {
      assert rs + [] == rs;
    }
  }

  lemma AccumulateTimes(p: Parser, now: int, acc: Acc, e: Entry)
    ensures var after := Accumulate(p, now, acc, e);
            && after.startedAt == (if TimeOfEntry(e).Some? then Touch(acc, e.at).startedAt else acc.startedAt)
            && after.lastActiveAt == (if TimeOfEntry(e).Some? then Touch(acc, e.at).lastActiveAt else acc.lastActiveAt)
            && after.identity == acc.identity && after.includeToolCalls == acc.includeToolCalls
  {
    hide Usage.Add;
  }

  lemma TimesOneMore(p: Parser, now: int, acc: Acc, opening: Option<int>, clock: int, body: seq<Entry>, e: Entry)
    requires SaysTimes(acc, opening, clock, body)
    ensures SaysTimes(Accumulate(p, now, acc, e), opening, clock, body + [e])
  {
    hide Picked, Accumulate;
    AccumulateTimes(p, now, acc, e);
    PickedOneMore(body, e, TimeOfEntry);
    var first := if opening.Some? then [opening.value] else [];
    var later := Picked(body, TimeOfEntry);
    if TimeOfEntry(e).Some? {
      assert first + (later + [e.at.ms.value]) == first + later + [e.at.ms.value];
    }
  }

  /** Where the first complete `session_meta` is does not change when records follow. */
  lemma OpeningStays(es: seq<Entry>, e: Entry)
    ensures Opening(es + [e]) == if Opening(es) < |es| then Opening(es) else if Opens(e) then |es| else |es| + 1
  {
    assert (es + [e])[..|es|] == es;
  }

  lemma DropOneMore(es: seq<Entry>, e: Entry, i: nat)
    requires i <= |es|
    ensures (es + [e])[i..] == es[i..] + [e]
  {
  }

  lemma NothingPicked<T>(f: Entry -> Option<T>)
    ensures Picked([], f) == []
  {
  }

  lemma CreatedSays(p: Parser, now: int, e: Entry, es: seq<Entry>)
    requires Opening(es) == |es| && Opens(e)
    ensures Create(p, now, e).Some? && Says(p, Create(p, now, e).value, es + [e], now)
  {
    hide Opening;
    OpeningStays(es, e);
    assert (es + [e])[|es| + 1..] == [];
    NothingPicked(UserPrompt);
    NothingPicked(AssistantText);
    NothingPicked(MessageOf);
    NothingPicked(CallOf);
    NothingPicked(FileOf);
    NothingPicked(TimeOfEntry);
    NothingPicked(UsageOf);
    hide Picked;
  }

  lemma SaysOneMore(p: Parser, now: int, acc: Acc, es: seq<Entry>, clock: int, e: Entry)
    requires Says(p, acc, es, clock)
    ensures Says(p, Accumulate(p, now, acc, e), es + [e], clock)
  {
    hide SaysMessages, SaysCalls, SaysTimes, Accumulate, Picked, Usage.AddAll;
    OpeningStays(es, e);
    var opening, body := es[Opening(es)], es[Opening(es) + 1..];
    DropOneMore(es, e, Opening(es) + 1);
    AccumulateTimes(p, now, acc, e);
    MessagesOneMore(p, now, acc, body, e);
    CallsOneMore(p, now, acc, body, e);
    TimesOneMore(p, now, acc, opening.at.ms, clock, body, e);
    UsageOneMore(p, now, acc, body, e);
  }

  /** Every parse that succeeds: there is a session exactly when some record opens it, and then it says what its records say. */
  lemma {:induction false} ParseSays(p: Parser, lines: seq<Line>) returns (clock: int)
    requires ProcessLines(p, None, lines).Ok?
    ensures ProcessLines(p, None, lines).value.None? <==> Opening(Entries(p, lines)) == |Entries(p, lines)|
    ensures ProcessLines(p, None, lines).value.Some? ==> Says(p, ProcessLines(p, None, lines).value.value, Entries(p, lines), clock)
    ensures |lines| > 0 ==> exists i :: 0 <= i < |lines| && clock == p.clock(lines[i].lineNumber)
    decreases |lines|
  {
    hide Says, Accumulate, Create, Opening;
    if |lines| == 0 {
      clock := 0;
      NothingOpens();
    } else {
      var n := |lines| - 1;
      clock := ParseSays(p, lines[..n]);
      var st, es := ProcessLines(p, None, lines[..n]).value, Entries(p, lines[..n]);
      var now, d := p.clock(lines[n].lineNumber), p.decode(lines[n].text);
      if n == 0 { clock := now; }
      assert !d.Parsed? ==> es + [] == es;
      if d.Parsed? {
        OpeningStays(es, d.entry);
        if st.Some? {
          SaysOneMore(p, now, st.value, es, clock, d.entry);
        } else {
          NotCreated(p, now, d.entry);
          if Opens(d.entry) {
            CreatedSays(p, now, d.entry, es);
            clock := now;
          }
        }
      }
    }
  }

  lemma NothingOpens()
    ensures Opening([]) == 0
  {
  }

  lemma NotCreated(p: Parser, now: int, e: Entry)
    ensures Create(p, now, e).Some? <==> Opens(e)
  {
  }

  /** A full parse of any content, as the imperative parse returns it. */
  lemma ScanSays(p: Parser, content: Bytes) returns (clock: int)
    requires FullScan(p, content).result.Ok?
    ensures var st, es := FullScan(p, content).result.value, Entries(p, LinesOf(CutBytes(content), 0, 0));
            if Opening(es) == |es| then st.None? else st.Some? && Says(p, st.value, es, clock)
  {
    hide Says, LinesOf, CutBytes, Entries, Opening;
    clock := ParseSays(p, LinesOf(CutBytes(content), 0, 0));
  }
}
