/** The `TranscriptFacts` object: tool facts are objects shared by the fact list and the call index, updated in place.
  * Every method takes the object from one value of the log to the next. */
module FactObjects {
  import opened Outcomes
  import opened Basics
  import opened TranscriptLog

  class ToolCell {
    var tool: Tool

    constructor (tool: Tool)
      ensures this.tool == tool
    {
      this.tool := tool;
    }
  }

  /** An entry of the fact list. Only tool facts are referenced from elsewhere. */
  datatype Slot = Plain(fact: Fact) | Call(cell: ToolCell)

  function Cells(slots: seq<Slot>): set<ToolCell> {
    set s | s in slots && s.Call? :: s.cell
  }

  function Value(s: Slot): Fact
    reads if s.Call? then {s.cell} else {}
  {
    match s
    case Plain(fact) => fact
    case Call(cell) => ToolFact(cell.tool)
  }

  /** The facts a list of slots stands for. */
  function FactsOf(slots: seq<Slot>): (facts: seq<Fact>)
    reads Cells(slots)
    ensures |facts| == |slots|
    ensures forall i :: 0 <= i < |slots| ==> facts[i] == Value(slots[i])
  {
    if |slots| == 0 then []
    else
      var n := |slots| - 1;
      FactsOf(slots[..n]) + [Value(slots[n])]
  }

  // ----- Where the last call with an id goes when the list changes -----

  lemma {:induction false} LastToolIs(facts: seq<Fact>, id: string, i: int)
    requires -1 <= i < |facts|
    requires i >= 0 ==> facts[i].ToolFact? && facts[i].tool.callId == id
    requires forall j :: i < j < |facts| ==> !(facts[j].ToolFact? && facts[j].tool.callId == id)
    ensures LastTool(facts, id) == i
  {
    var k := LastTool(facts, id);
  }

  lemma LastAfterAppend(facts: seq<Fact>, f: Fact, id: string)
    ensures LastTool(facts + [f], id) == if f.ToolFact? && f.tool.callId == id then |facts| else LastTool(facts, id)
  {
    assert (facts + [f])[..|facts|] == facts;
  }

  lemma LastAfterReplace(facts: seq<Fact>, i: nat, f: Fact, id: string)
    requires i < |facts| && (facts[i].ToolFact? <==> f.ToolFact?)
    requires f.ToolFact? ==> facts[i].tool.callId == f.tool.callId
    ensures LastTool(facts[i := f], id) == LastTool(facts, id)
  {
    LastToolIs(facts[i := f], id, LastTool(facts, id));
  }

  /** Where the last call is after the one at `i`, or a fact that is no call, was taken out. */
  function Shifted(k: int, i: nat): int {
    if k > i then k - 1 else k
  }

  lemma LastAfterRemove(facts: seq<Fact>, i: nat, id: string)
    requires i < |facts| && LastTool(facts, id) != i
    ensures LastTool(Without(facts, i), id) == Shifted(LastTool(facts, id), i)
  {
    hide Without, LastTool;
    LastToolIs(Without(facts, i), id, Shifted(LastTool(facts, id), i));
  }

  lemma LastAfterMove(facts: seq<Fact>, i: nat, f: Fact, id: string)
    requires i < |facts| && f.ToolFact? && LastTool(facts, f.tool.callId) == i
    ensures LastTool(Without(facts, i) + [f], id)
            == if id == f.tool.callId then |facts| - 1 else Shifted(LastTool(facts, id), i)
  {
    LastAfterAppend(Without(facts, i), f, id);
    if id != f.tool.callId { LastAfterRemove(facts, i, id); }
  }

  lemma {:induction false} FirstContextIs(facts: seq<Fact>, i: nat)
    requires i <= |facts| && (i < |facts| ==> facts[i].ContextFact?)
    requires forall j :: 0 <= j < i ==> !facts[j].ContextFact?
    ensures FirstContext(facts) == i
  {
    if i > 0 { FirstContextIs(facts[1..], i - 1); }
  }

  // ----- The list and the index together -----

  predicate Separate(slots: seq<Slot>) {
    && (forall i :: 0 <= i < |slots| && slots[i].Plain? ==> !slots[i].fact.ToolFact?)
    && (forall i, j :: 0 <= i < j < |slots| && slots[i].Call? && slots[j].Call? ==> slots[i].cell != slots[j].cell)
  }

  /** Every call object occurs once in the list, and the index refers to the last one of each id. */
  ghost predicate Linked(slots: seq<Slot>, calls: map<string, ToolCell>, facts: seq<Fact>) {
    && |facts| == |slots| && Separate(slots)
    && (forall i :: 0 <= i < |slots| ==> (slots[i].Call? <==> facts[i].ToolFact?))
    && forall id :: (id in calls <==> LastTool(facts, id) >= 0)
                    && (id in calls ==> slots[LastTool(facts, id)] == Call(calls[id]))
  }

  lemma PushLinks(slots: seq<Slot>, calls: map<string, ToolCell>, facts: seq<Fact>, f: Fact)
    requires Linked(slots, calls, facts) && !f.ToolFact?
    ensures Linked(slots + [Plain(f)], calls, facts + [f])
  {
    forall id { LastAfterAppend(facts, f, id); }
  }

  lemma CallLinks(slots: seq<Slot>, calls: map<string, ToolCell>, facts: seq<Fact>, cell: ToolCell, t: Tool)
    requires Linked(slots, calls, facts) && cell !in Cells(slots)
    ensures Linked(slots + [Call(cell)], calls[t.callId := cell], facts + [ToolFact(t)])
  {
    forall id { LastAfterAppend(facts, ToolFact(t), id); }
    forall i | 0 <= i < |slots| && slots[i].Call? ensures slots[i].cell != cell {
      assert slots[i] in slots;
    }
  }

  lemma DropLinks(slots: seq<Slot>, calls: map<string, ToolCell>, facts: seq<Fact>, i: nat)
    requires Linked(slots, calls, facts) && i < |slots| && slots[i].Plain?
    ensures Linked(Without(slots, i), calls, Without(facts, i))
  {
    hide Without, LastTool;
    SeparateWithout(slots, i);
    var rest, after := Without(slots, i), Without(facts, i);
    forall id
      ensures id in calls <==> LastTool(after, id) >= 0
      ensures id in calls ==> rest[LastTool(after, id)] == Call(calls[id])
    {
      LastAfterRemove(facts, i, id);
    }
  }

  lemma SeparateWithout(slots: seq<Slot>, i: nat)
    requires i < |slots| && Separate(slots)
    ensures Separate(Without(slots, i))
    ensures forall k :: 0 <= k < |slots| - 1 && Without(slots, i)[k].Call? ==> Without(slots, i)[k] != slots[i]
  {
    hide Without;
    var rest := Without(slots, i);
    forall a, b | 0 <= a < b < |rest| && rest[a].Call? && rest[b].Call? ensures rest[a].cell != rest[b].cell {
      assert rest[a] == slots[if a < i then a else a + 1] && rest[b] == slots[if b < i then b else b + 1];
    }
  }

  lemma UpdateLinks(slots: seq<Slot>, calls: map<string, ToolCell>, facts: seq<Fact>, i: nat, f: Fact)
    requires Linked(slots, calls, facts) && i < |slots| && facts[i].ToolFact? && f.ToolFact?
    requires f.tool.callId == facts[i].tool.callId
    ensures Linked(slots, calls, facts[i := f])
  {
    forall id { LastAfterReplace(facts, i, f, id); }
  }

  lemma MoveLinks(slots: seq<Slot>, calls: map<string, ToolCell>, facts: seq<Fact>, i: nat, f: Fact)
    requires Linked(slots, calls, facts) && i < |slots| && f.ToolFact? && LastTool(facts, f.tool.callId) == i
    ensures Linked(Without(slots, i) + [slots[i]], calls, Without(facts, i) + [f])
  {
    hide Without, LastTool;
    SeparateWithout(slots, i);
    var moved, after := Without(slots, i) + [slots[i]], Without(facts, i) + [f];
    forall id
      ensures id in calls <==> LastTool(after, id) >= 0
      ensures id in calls ==> moved[LastTool(after, id)] == Call(calls[id])
    {
      LastAfterMove(facts, i, f, id);
    }
  }

  /** A call object that the index refers to stands where the last call with its id is. */
  lemma IndexIsLast(slots: seq<Slot>, calls: map<string, ToolCell>, facts: seq<Fact>, i: nat)
    requires Linked(slots, calls, facts) && i < |slots| && slots[i].Call? && facts[i].tool.callId in calls
    requires calls[facts[i].tool.callId] == slots[i].cell
    ensures LastTool(facts, facts[i].tool.callId) == i
  {
    var k := LastTool(facts, facts[i].tool.callId);
    assert slots[k].cell == slots[i].cell;
  }

  lemma FactsWithout(slots: seq<Slot>, i: nat)
    requires i < |slots|
    ensures FactsOf(Without(slots, i)) == Without(FactsOf(slots), i)
  {
    hide FactsOf, Without;
  }

  lemma CellsWithout(slots: seq<Slot>, i: nat)
    requires i < |slots|
    ensures Cells(slots) == Cells(Without(slots, i)) + if slots[i].Call? then {slots[i].cell} else {}
  {
    hide Without;
    var rest := Without(slots, i);
    forall s | s in slots ensures s in rest || s == slots[i] {
      var k :| 0 <= k < |slots| && slots[k] == s;
      if k != i { assert rest[if k < i then k else k - 1] == s; }
    }
  }

  lemma FactsWith(slots: seq<Slot>, s: Slot)
    ensures FactsOf(slots + [s]) == FactsOf(slots) + [Value(s)]
    ensures Cells(slots + [s]) == Cells(slots) + if s.Call? then {s.cell} else {}
  {
    assert forall x :: x in slots + [s] <==> x in slots || x == s;
  }

  /** `facts.findIndex(f => f.kind === 'context')` */
  function FindContext(slots: seq<Slot>): (i: nat)
    ensures i <= |slots| && (i < |slots| ==> slots[i].Plain? && slots[i].fact.ContextFact?)
    ensures forall j :: 0 <= j < i ==> !(slots[j].Plain? && slots[j].fact.ContextFact?)
  {
    if |slots| == 0 || (slots[0].Plain? && slots[0].fact.ContextFact?) then 0 else 1 + FindContext(slots[1..])
  }

  /** `facts.indexOf(call)` */
  function IndexOf(slots: seq<Slot>, call: ToolCell): (i: nat)
    requires Call(call) in slots
    ensures i < |slots| && slots[i] == Call(call)
  {
    if slots[0] == Call(call) then 0 else 1 + IndexOf(slots[1..], call)
  }

  lemma CallMoved(slots: seq<Slot>, calls: map<string, ToolCell>, i: nat)
    requires Linked(slots, calls, FactsOf(slots)) && i < |slots| && slots[i].Call?
    requires slots[i].cell.tool.callId in calls && calls[slots[i].cell.tool.callId] == slots[i].cell
    ensures var call := slots[i].cell;
            var moved := Without(slots, i) + [slots[i]];
            && LastTool(FactsOf(slots), call.tool.callId) == i
            && Linked(moved, calls, FactsOf(moved)) && Cells(moved) == Cells(slots)
            && FactsOf(moved) == MoveToEnd(FactsOf(slots), i, ToolFact(call.tool))
  {
    hide Linked, FactsOf, LastTool;
    var f := Value(slots[i]);
    IndexIsLast(slots, calls, FactsOf(slots), i);
    MoveLinks(slots, calls, FactsOf(slots), i, f);
    FactsWithout(slots, i);
    CellsWithout(slots, i);
    FactsWith(Without(slots, i), slots[i]);
  }

  /** The middle of `result`: the log after the forward, if there is one. */
  ghost function Forwarded(env: Env, begun: Log, id: string, o: Outcome, depth: nat): Option<Log> {
    var target := Forward(env, begun, id);
    if target.None? then Some(begun) else if depth == 0 then None else ApplyResult(env, begun, target.value, o, depth - 1)
  }

  lemma JudgeKeepsId(env: Env, t: Tool, o: Outcome, previousExit: Option<int>, order: nat)
    ensures Judge(env, t, o, previousExit, order).callId == t.callId
  {
  }

  /** The call object of every known id stands where the last call with that id is. */
  lemma CallStands(slots: seq<Slot>, calls: map<string, ToolCell>, id: string)
    requires Linked(slots, calls, FactsOf(slots))
    ensures id in calls <==> LastTool(FactsOf(slots), id) >= 0
    ensures id in calls ==>
              var i := LastTool(FactsOf(slots), id);
              && slots[i] == Call(calls[id]) && calls[id] in Cells(slots)
              && FactsOf(slots)[i] == ToolFact(calls[id].tool) && calls[id].tool.callId == id
  {
    if id in calls { assert slots[LastTool(FactsOf(slots), id)] in slots; }
  }

  lemma CallStandsEverywhere(slots: seq<Slot>, calls: map<string, ToolCell>)
    requires Linked(slots, calls, FactsOf(slots))
    ensures forall id :: id in calls <==> LastTool(FactsOf(slots), id) >= 0
  {
  }

  lemma {:induction false} BlocksSoFar(env: Env, log: Log, blocks: seq<Block>, at: Instant, depth: nat, k: nat)
    requires k < |blocks| && AddBlocks(env, log, blocks, at, depth).Some?
    ensures var before := AddBlocks(env, log, blocks[..k], at, depth);
            && before.Some? && AddBlock(env, before.value, blocks[k], at, depth).Some?
            && AddBlocks(env, log, blocks[..k + 1], at, depth) == AddBlock(env, before.value, blocks[k], at, depth)
    decreases |blocks|
  {
    hide AddBlock;
    var n := |blocks| - 1;
    assert blocks[..k + 1][..k] == blocks[..k];
    if k == n {
      assert blocks[..k + 1] == blocks;
    } else {
      BlocksSoFar(env, log, blocks[..n], at, depth, k);
      assert blocks[..n][..k] == blocks[..k] && blocks[..n][..k + 1] == blocks[..k + 1];
    }
  }

  /** The last agent message, or -1. */
  function FindReply(slots: seq<Slot>): (i: int)
    ensures -1 <= i < |slots| && (i >= 0 ==> slots[i].Plain? && slots[i].fact.AgentMessage?)
    ensures forall j :: i < j < |slots| ==> !(slots[j].Plain? && slots[j].fact.AgentMessage?)
  {
    if |slots| == 0 then -1
    else
      var n := |slots| - 1;
      if slots[n].Plain? && slots[n].fact.AgentMessage? then n else FindReply(slots[..n])
  }

  lemma {:induction false} MarkedAt(facts: seq<Fact>, i: int)
    requires -1 <= i < |facts| && (i >= 0 ==> facts[i].AgentMessage?)
    requires forall j :: i < j < |facts| ==> !facts[j].AgentMessage?
    ensures MarkLastReplyFinal(facts) == if i < 0 then facts else facts[i := facts[i].(final := true)]
  {
    if |facts| > 0 {
      var n := |facts| - 1;
      if i < n { MarkedAt(facts[..n], i); }
    }
  }

  lemma RewriteLinks(slots: seq<Slot>, calls: map<string, ToolCell>, facts: seq<Fact>, i: nat, f: Fact)
    requires Linked(slots, calls, facts) && i < |slots| && slots[i].Plain? && !f.ToolFact?
    ensures Linked(slots[i := Plain(f)], calls, facts[i := f])
  {
    hide LastTool;
    var after := slots[i := Plain(f)];
    forall id
      ensures id in calls <==> LastTool(facts[i := f], id) >= 0
      ensures id in calls ==> after[LastTool(facts[i := f], id)] == Call(calls[id])
    {
      LastAfterReplace(facts, i, f, id);
    }
  }

  lemma FactsRewritten(slots: seq<Slot>, i: nat, f: Fact)
    requires i < |slots| && slots[i].Plain?
    ensures FactsOf(slots[i := Plain(f)]) == FactsOf(slots)[i := f]
    ensures Cells(slots[i := Plain(f)]) == Cells(slots)
  {
    hide FactsOf;
    var after := slots[i := Plain(f)];
    forall s | s in slots && s.Call? ensures s in after {
      var k :| 0 <= k < |slots| && slots[k] == s;
      assert after[k] == s;
    }
  }

  /** The order counter after a fact was restored. */
  function Raised(order: nat, f: Fact): nat {
    if !f.ToolFact? then order
    else
      var started := if f.tool.startedOrder > order then f.tool.startedOrder else order;
      if f.tool.completedOrder.GetOr(0) > started then f.tool.completedOrder.value else started
  }

  lemma RestoreStep(facts: seq<Fact>, since: int, order: nat, i: nat)
    requires i < |facts|
    ensures var before, after := Unexpired(facts[..i], since), Unexpired(facts[..i + 1], since);
            && after == before + (if facts[i].At().ms >= since then [facts[i]] else [])
            && MaxOrder(after, order)
               == if facts[i].At().ms >= since then Raised(MaxOrder(before, order), facts[i]) else MaxOrder(before, order)
  {
    assert facts[..i + 1][..i] == facts[..i];
    var before := Unexpired(facts[..i], since);
    assert (before + [facts[i]])[..|before|] == before && before + [] == before;
  }

  lemma SameSessions(saved: map<string, string>, slots: seq<Slot>, calls: map<string, ToolCell>)
    requires Linked(slots, calls, FactsOf(slots))
    ensures (map k | k in saved && saved[k] in calls :: saved[k])
            == map k | k in saved && LastTool(FactsOf(slots), saved[k]) >= 0 :: saved[k]
  {
    CallStandsEverywhere(slots, calls);
  }

  lemma NothingLinked()
    ensures Linked([], map[], FactsOf([]))
  {
  }

  lemma NothingUnexpired(since: int, order: nat)
    ensures Unexpired([], since) == [] && MaxOrder([], order) == order
  {
  }

  class TranscriptFacts {
    const env: Env
    const since: int
    var slots: seq<Slot>
    var calls: map<string, ToolCell>
    var sessions: map<string, string>
    var messages: set<MessageKey>
    var turnId: string
    var order: nat
    var unknownRecords: nat

    ghost function Footprint(): set<object>
      reads this
    {
      Cells(slots)
    }

    ghost predicate Valid()
      reads this, Footprint()
    {
      Linked(slots, calls, FactsOf(slots))
    }

    /** The log this object represents. */
    ghost function View(): Log
      reads this, Footprint()
    {
      Log(FactsOf(slots), unknownRecords, turnId, messages, order, sessions)
    }

    constructor (env: Env, since: int)
      ensures Valid() && View() == EMPTY && this.env == env && this.since == since && Footprint() == {}
    {
      this.env, this.since := env, since;
      slots, calls, sessions, messages, turnId, order, unknownRecords := [], map[], map[], {}, "", 0, 0;
    }

    /** `facts.push` of a fact that is not a call. */
    method Push(f: Fact)
      requires Valid() && !f.ToolFact?
      modifies this`slots
      ensures Valid() && View() == AddFact(old(View()), f) && Footprint() == old(Footprint())
    {
      hide Linked, FactsOf;
      PushLinks(slots, calls, FactsOf(slots), f);
      FactsWith(slots, Plain(f));
      slots := slots + [Plain(f)];
    }

    /** `message` */
    method Message(fromUser: bool, text: string, at: Instant, final: bool)
      requires Valid()
      modifies this`slots, this`messages
      ensures Valid() && View() == AddMessage(env, old(View()), fromUser, text, at, final) && Footprint() == old(Footprint())
    {
      hide Linked, FactsOf;
      if text == "" { return; }
      var authored := if fromUser then env.extractTaskPrompt(text) else text;
      if authored == "" { return; }
      var key := MessageKey(fromUser, turnId, authored, !fromUser && final);
      if key in messages { return; }
      messages := messages + {key};
      assert FactsOf(slots) == old(FactsOf(slots));
      if fromUser { Push(UserMessage(authored, at, turnId)); } else { Push(AgentMessage(authored, at, turnId, final)); }
    }

    /** `tool` */
    method Tool(id: string, name: string, input: Json, at: Instant)
      requires Valid()
      modifies this`slots, this`calls
      ensures Valid() && View() == AddTool(env, old(View()), id, name, input, at)
      ensures fresh(Footprint() - old(Footprint()))
    {
      hide Linked, FactsOf;
      if id == "" || name == "" { return; }
      var t := TranscriptLog.Tool(id, name, input, at, turnId, env.isMutatingTool(name, input), order, false, None, None, None, []);
      var cell := new ToolCell(t);
      assert FactsOf(slots) == old(FactsOf(slots));
      CallLinks(slots, calls, FactsOf(slots), cell, t);
      FactsWith(slots, Call(cell));
      calls := calls[id := cell];
      slots := slots + [Call(cell)];
    }

    /** Removes the context fact, if there is one. */
    method DropContext()
      requires Valid()
      modifies this`slots
      ensures Valid() && View() == old(View()).(facts := RemoveContext(old(View()).facts)) && Footprint() == old(Footprint())
    {
      hide FactsOf;
      var i := FindContext(slots);
      FirstContextIs(FactsOf(slots), i);
      if i < |slots| {
        DropLinks(slots, calls, FactsOf(slots), i);
        FactsWithout(slots, i);
        CellsWithout(slots, i);
        slots := Without(slots, i);
      }
    }

    /** Writes a call through its reference; the list and the index need no change. */
    method Update(call: ToolCell, ghost i: nat, tool: Tool)
      requires Valid() && i < |slots| && slots[i] == Call(call) && tool.callId == call.tool.callId
      modifies call
      ensures Valid() && call.tool == tool
      ensures View() == old(View()).(facts := old(View()).facts[i := ToolFact(tool)])
    {
      ghost var before := FactsOf(slots);
      UpdateLinks(slots, calls, before, i, ToolFact(tool));
      call.tool := tool;
      assert FactsOf(slots) == before[i := ToolFact(tool)];
    }

    /** Moves a call to the end of the list. */
    method MoveLast(call: ToolCell)
      requires Valid() && Call(call) in slots && call.tool.callId in calls && calls[call.tool.callId] == call
      modifies this`slots
      ensures Valid() && Footprint() == old(Footprint())
      ensures calls == old(calls) && |slots| > 0 && slots[|slots| - 1] == Call(call)
      ensures View() == old(View()).(facts := MoveToEnd(old(View()).facts, LastTool(old(View()).facts, call.tool.callId),
                                                        ToolFact(call.tool)))
    {
      hide FactsOf, LastTool, Linked, Cells;
      var i := IndexOf(slots, call);
      CallMoved(slots, calls, i);
      slots := Without(slots, i) + [Call(call)];
    }

    method MoveAndUpdate(call: ToolCell, tool: Tool)
      requires Valid() && Call(call) in slots && call.tool.callId in calls && calls[call.tool.callId] == call
      requires tool.callId == call.tool.callId
      modifies this`slots, call
      ensures Valid() && Footprint() == old(Footprint())
      ensures View() == old(View()).(facts := MoveToEnd(old(View()).facts, LastTool(old(View()).facts, tool.callId), ToolFact(tool)))
    {
      hide Linked, FactsOf, LastTool;
      MoveLast(call);
      Update(call, |slots| - 1, tool);
    }

    /** The first half of `result`. */
    method BeginCall(call: ToolCell, id: string, o: Outcome)
      requires Valid() && id in calls && calls[id] == call
      modifies this`sessions, call
      ensures Valid() && Footprint() == old(Footprint())
      ensures View() == BeginResult(env, old(View()), id, o) && call.tool == old(call.tool).(completed := true)
    {
      hide Linked, FactsOf, LastTool, IsExec;
      CallStands(slots, calls, id);
      Update(call, LastTool(FactsOf(slots), id), call.tool.(completed := true));
      if IsExec(call.tool.name) {
        var session := env.startedSession(o.output);
        if session.Some? { sessions := sessions[session.value := id]; }
      }
    }

    /** The second half of `result`: the call's evidence, its completion, and its place in the list. */
    method FinishCall(call: ToolCell, id: string, o: Outcome, previousExit: Option<int>)
      requires Valid() && id in calls && calls[id] == call
      modifies this`slots, call
      ensures Valid() && Footprint() == old(Footprint())
      ensures View() == FinishResult(env, old(View()), id, o, previousExit)
    {
      hide Linked, FactsOf, LastTool, Judge, Moves;
      CallStands(slots, calls, id);
      JudgeKeepsId(env, call.tool, o, previousExit, order);
      var judged := Judge(env, call.tool, o, previousExit, order);
      if Moves(call.tool, previousExit, judged.exitCode) {
        MoveAndUpdate(call, judged);
      } else {
        Update(call, LastTool(FactsOf(slots), id), judged);
      }
    }

    /** `result`. The depth only says that the chain of forwards ends. */
    method Result(id: string, o: Outcome, ghost depth: nat)
      requires Valid() && ApplyResult(env, View(), id, o, depth).Some?
      modifies this`slots, this`sessions, Footprint()
      ensures Valid() && Footprint() == old(Footprint())
      ensures View() == ApplyResult(env, old(View()), id, o, depth).value
      decreases depth, 1
    {
      hide Linked, FactsOf, LastTool, BeginResult, FinishResult, Forward;
      CallStands(slots, calls, id);
      if id !in calls { return; }
      var call := calls[id];
      var previousExit := call.tool.exitCode;
      BeginCall(call, id, o);
      PassOn(call, id, o, depth);
      FinishCall(call, id, o, previousExit);
    }

    /** A `write_stdin` result also completes the exec call that owns the terminal session. */
    method PassOn(call: ToolCell, id: string, o: Outcome, ghost depth: nat)
      requires Valid() && id in calls && calls[id] == call && Forwarded(env, View(), id, o, depth).Some?
      modifies this`slots, this`sessions, Footprint()
      ensures Valid() && Footprint() == old(Footprint())
      ensures View() == Forwarded(env, old(View()), id, o, depth).value
      decreases depth, 0
    {
      hide Linked, FactsOf, LastTool, IsWriteStdin, ApplyResult;
      CallStands(slots, calls, id);
      if IsWriteStdin(call.tool.name) {
        var session := env.inputSession(call.tool.input);
        if session in sessions && sessions[session] != "" {
          Result(sessions[session], o, depth - 1);
        }
      }
    }

    method Context(used: int, window: int, at: Instant)
      requires Valid()
      modifies this`slots
      ensures Valid() && View() == SetContext(old(View()), used, window, at) && Footprint() == old(Footprint())
    {
      hide Linked, FactsOf, RemoveContext;
      DropContext();
      Push(ContextFact(used, window, at));
    }

    /** A response item or a completed item. */
    method Item(item: Item, at: Instant, ghost depth: nat)
      requires Valid() && AddItem(env, View(), item, at, depth).Some?
      modifies this, Footprint()
      ensures Valid() && View() == AddItem(env, old(View()), item, at, depth).value
      ensures fresh(Footprint() - old(Footprint()))
    {
      hide Linked, FactsOf, LastTool, AddMessage, AddTool, ApplyResult;
      CallStandsEverywhere(slots, calls);
      match item {
        case AgentText(text, final) => Message(false, text, at, final);
        case UserText(text) => Message(true, text, at, false);
        case ToolUse(id, name, input) => Tool(id, name, input, at);
        case CommandExecution(id, command, output, code) =>
          if id !in calls && command.Some? { Tool(id, "exec_command", command.value, at); }
          Result(id, Outcome(output, code, false, at), depth);
        case ToolOutput(id, output, code) => Result(id, Outcome(output, code, false, at), depth);
        case OtherItem =>
      }
    }

    /** A content block of a Claude message. */
    method Block(b: Block, at: Instant, ghost depth: nat)
      requires Valid() && AddBlock(env, View(), b, at, depth).Some?
      modifies this, Footprint()
      ensures Valid() && View() == AddBlock(env, old(View()), b, at, depth).value
      ensures fresh(Footprint() - old(Footprint()))
    {
      hide Linked, FactsOf, LastTool, AddTool, ApplyResult, IsExec;
      match b {
        case TextBlock =>
        case UseBlock(id, name, input) => Tool(id, name, input, at);
        case ResultBlock(id, output, isError, background, pendingSession) =>
          CallStands(slots, calls, id);
          var name := if id in calls then calls[id].tool.name else "";
          var code := if isError then Some(1)
                      else if background || (IsExec(name) && pendingSession) then None
                      else if name in {"Bash", "Write", "Edit"} || IsExec(name) then Some(0)
                      else None;
          assert code == BlockCode(View(), b);
          Result(id, Outcome(output, code, true, at), depth);
      }
    }

    method Blocks(blocks: seq<Block>, at: Instant, ghost depth: nat)
      requires Valid() && AddBlocks(env, View(), blocks, at, depth).Some?
      modifies this, Footprint()
      ensures Valid() && View() == AddBlocks(env, old(View()), blocks, at, depth).value
      ensures fresh(Footprint() - old(Footprint()))
    {
      hide Linked, FactsOf, AddBlock;
      for k := 0 to |blocks|
        invariant Valid() && fresh(Footprint() - old(Footprint()))
        invariant AddBlocks(env, old(View()), blocks[..k], at, depth) == Some(View())
      {
        BlocksSoFar(env, old(View()), blocks, at, depth, k);
        Block(blocks[k], at, depth);
      }
      assert blocks[..|blocks|] == blocks;
    }

    /** Before the blocks of a Claude record. */
    method Head(b: Body, at: Instant)
      requires Valid() && b.ClaudeRecord?
      modifies this`slots, this`messages, this`turnId
      ensures Valid() && View() == ClaudeHead(env, old(View()), b, at) && Footprint() == old(Footprint())
    {
      hide Linked, FactsOf, AddMessage, RemoveContext, SetContext;
      if b.compactBoundary { DropContext(); }
      if b.usedTokens.Some? { Context(b.usedTokens.value, 1000000, at); }
      if b.prompt == "" { return; }
      NewTurn(b.uuid.GetOr(at.text), Started, None, at);
      Message(true, b.prompt, at, false);
    }

    method NewTurn(turn: string, phase: Phase, reason: Option<string>, at: Instant)
      requires Valid()
      modifies this`slots, this`turnId
      ensures Valid() && View() == AddFact(old(View()).(turnId := turn), TurnFact(phase, at, turn, reason))
      ensures Footprint() == old(Footprint())
    {
      hide Linked, FactsOf;
      turnId := turn;
      assert FactsOf(slots) == old(FactsOf(slots));
      Push(TurnFact(phase, at, turn, reason));
    }

    /** `last.final = true` on the last agent message. */
    method MarkReply()
      requires Valid()
      modifies this`slots
      ensures Valid() && View() == old(View()).(facts := MarkLastReplyFinal(old(View()).facts)) && Footprint() == old(Footprint())
    {
      hide FactsOf, LastTool;
      var i := FindReply(slots);
      MarkedAt(FactsOf(slots), i);
      if i >= 0 {
        var f := slots[i].fact.(final := true);
        RewriteLinks(slots, calls, FactsOf(slots), i, f);
        FactsRewritten(slots, i, f);
        slots := slots[i := Plain(f)];
      }
    }

    /** After the blocks of a Claude record. */
    method Tail(b: Body, at: Instant)
      requires Valid() && b.ClaudeRecord?
      modifies this`slots, this`messages
      ensures Valid() && View() == ClaudeTail(env, old(View()), b, at) && Footprint() == old(Footprint())
    {
      hide Linked, FactsOf, AddMessage, MarkLastReplyFinal, TurnClosed;
      if b.reply.Some? {
        Message(false, b.reply.value.0, at, b.reply.value.1);
        if b.reply.value.1 { Push(TurnFact(Completed, at, if turnId == "" then at.text else turnId, None)); }
      }
      if b.stop {
        MarkReply();
        if !TurnClosed(FactsOf(slots), turnId) {
          Push(TurnFact(Completed, at, if turnId == "" then at.text else turnId, None));
        }
      }
    }

    /** The Codex records that carry no item. */
    method Event(b: Body, at: Instant)
      requires Valid()
      modifies this`slots, this`messages, this`turnId, this`unknownRecords
      ensures Valid() && View() == AddEvent(env, old(View()), b, at) && Footprint() == old(Footprint())
    {
      hide Linked, FactsOf, AddMessage, RemoveContext, SetContext;
      match b {
        case Compacted => DropContext();
        case TurnEvent(phase, turn, reason, last) =>
          NewTurn(turn.GetOr(if turnId == "" then at.text else turnId), phase, reason, at);
          Message(false, last, at, true);
        case UserMessageEvent(text) => Message(true, text, at, false);
        case TokenCount(tokens) => if tokens.Some? { Context(tokens.value.0, tokens.value.1, at); }
        case LimitEvent(scope) => Push(LimitFact(scope, at));
        case UnknownRecord =>
          unknownRecords := unknownRecords + 1;
          assert FactsOf(slots) == old(FactsOf(slots));
        case _ =>
      }
    }

    method CountRecord()
      requires Valid()
      modifies this`order
      ensures Valid() && View() == old(View()).(order := old(View()).order + 1) && Footprint() == old(Footprint())
    {
      hide Linked, FactsOf;
      order := order + 1;
      assert FactsOf(slots) == old(FactsOf(slots));
    }

    method Claude(b: Body, at: Instant, ghost depth: nat)
      requires Valid() && b.ClaudeRecord? && AddClaude(env, View(), b, at, depth).Some?
      modifies this, Footprint()
      ensures Valid() && View() == AddClaude(env, old(View()), b, at, depth).value
      ensures fresh(Footprint() - old(Footprint()))
    {
      hide Linked, FactsOf, AddBlocks, ClaudeHead, ClaudeTail;
      Head(b, at);
      Blocks(b.blocks, at, depth);
      Tail(b, at);
    }

    /** `add` */
    method Add(r: Record, ghost depth: nat)
      requires Valid() && TranscriptLog.Add(env, since, View(), r, depth).Some?
      modifies this, Footprint()
      ensures Valid() && View() == TranscriptLog.Add(env, since, old(View()), r, depth).value
      ensures fresh(Footprint() - old(Footprint()))
    {
      hide Linked, FactsOf, AddClaude, AddItem, AddEvent;
      if r.at.None? || r.at.value.ms < since { return; }
      CountRecord();
      if r.body.ClaudeRecord? {
        Claude(r.body, r.at.value, depth);
      } else if r.body.ItemRecord? {
        Item(r.body.item, r.at.value, depth);
      } else if r.body.ItemCompletedEvent? {
        CountRecord();
        Item(r.body.item, r.at.value, depth);
      } else {
        Event(r.body, r.at.value);
      }
    }

    /** `snapshot`, as it is serialised. */
    method TakeSnapshot() returns (s: Snapshot)
      requires Valid()
      ensures s == Save(View())
    {
      s := Snapshot(FactsOf(slots), unknownRecords, turnId, messages, order, sessions);
    }

    /** The restoring constructor: new call objects, indexed again from the list. */
    constructor Restored(env: Env, since: int, state: Snapshot)
      ensures Valid() && View() == Restore(state, since) && this.env == env && this.since == since
      ensures fresh(Footprint())
    {
      hide Linked, FactsOf, LastTool, Unexpired, MaxOrder, Raised;
      NothingUnexpired(since, state.order);
      this.env, this.since := env, since;
      slots, calls, sessions, messages, turnId, order, unknownRecords :=
        [], map[], map[], state.messages, state.turnId, state.order, state.unknownRecords;
      new;
      NothingLinked();
      for i := 0 to |state.facts|
        invariant Valid() && fresh(Footprint())
        invariant View() == Log(Unexpired(state.facts[..i], since), state.unknownRecords, state.turnId, state.messages,
                                MaxOrder(Unexpired(state.facts[..i], since), state.order), map[])
      {
        RestoreStep(state.facts, since, state.order, i);
        if state.facts[i].At().ms >= since { Readmit(state.facts[i]); }
      }
      assert state.facts[..|state.facts|] == state.facts;
      KeepSessions(state.sessions);
    }

    method KeepSessions(saved: map<string, string>)
      requires Valid()
      modifies this`sessions
      ensures Valid() && Footprint() == old(Footprint())
      ensures View() == old(View()).(sessions := map k | k in saved && LastTool(old(View()).facts, saved[k]) >= 0 :: saved[k])
    {
      hide Linked, FactsOf, LastTool;
      SameSessions(saved, slots, calls);
      sessions := map k | k in saved && saved[k] in calls :: saved[k];
      assert FactsOf(slots) == old(FactsOf(slots));
    }

    /** Adds a restored fact with a call object of its own, and raises the order past the fact's. */
    method Readmit(f: Fact)
      requires Valid()
      modifies this`slots, this`calls, this`order
      ensures Valid() && fresh(Footprint() - old(Footprint()))
      ensures View() == old(View()).(facts := old(View()).facts + [f], order := Raised(old(View()).order, f))
    {
      hide Linked, FactsOf;
      if f.ToolFact? {
        var cell := new ToolCell(f.tool);
        assert FactsOf(slots) == old(FactsOf(slots));
        CallLinks(slots, calls, FactsOf(slots), cell, f.tool);
        FactsWith(slots, Call(cell));
        calls := calls[f.tool.callId := cell];
        slots := slots + [Call(cell)];
        order := Raised(order, f);
      } else {
        Push(f);
      }
    }
  }
}
