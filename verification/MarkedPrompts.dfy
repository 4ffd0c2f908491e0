/** Which launch prompts are marked for a dispatch, and that a task which a dispatch launched is recognised
  * by its own prompt in a scan. */
module MarkedPrompts {
  import opened TaskDispatch

  const MARKER := "KEEPLINE_DISPATCH_ID:"

  /** The text holds the line on its own between a and b. */
  predicate OwnLine(text: string, line: string, a: string, b: string) {
    && text == a + line + b
    && (a == "" || a[|a| - 1] == '\n')
    && (b == "" || b[0] == '\n')
  }

  lemma {:induction false} FirstLineIs(s: string)
    ensures var first := UpToNewline(s);
            && '\n' !in first && first <= s && (|first| < |s| ==> s[|first|] == '\n')
  {
    if |s| > 0 && s[0] != '\n' {
      FirstLineIs(s[1..]);
      assert s == [s[0]] + s[1..];
    }
  }

  lemma FirstLineUnique(s: string, first: string)
    requires '\n' !in first && first <= s && (|first| < |s| ==> s[|first|] == '\n')
    ensures UpToNewline(s) == first
  {
    FirstLineIs(s);
    var u := UpToNewline(s);
    assert forall k :: 0 <= k < |u| ==> s[k] == u[k] != '\n';
    assert forall k :: 0 <= k < |first| ==> s[k] == first[k] != '\n';
  }

  /** Cutting at a newline: the lines of both sides. */
  lemma {:induction false} LinesOfBoth(x: string, y: string, line: string)
    ensures HasLine(x + "\n" + y, line) <==> HasLine(x, line) || HasLine(y, line)
    decreases |x|
  {
    var text, first := x + "\n" + y, UpToNewline(x);
    FirstLineIs(x);
    assert text[..|first|] == first && text[|first|] == '\n';
    FirstLineUnique(text, first);
    if |first| == |x| {
      assert text[|first| + 1..] == y;
    } else {
      var rest := x[|first| + 1..];
      assert text[|first| + 1..] == rest + "\n" + y;
      LinesOfBoth(rest, y, line);
    }
  }

  lemma OneLine(text: string, line: string)
    requires '\n' !in text
    ensures HasLine(text, line) <==> text == line
  {
    FirstLineUnique(text, text);
  }

  lemma OwnLineIsALine(text: string, line: string, a: string, b: string)
    requires '\n' !in line && OwnLine(text, line, a, b)
    ensures HasLine(text, line)
  {
    OneLine(line, line);
    var rest := line + b;
    if b != "" {
      assert rest == line + "\n" + b[1..];
      LinesOfBoth(line, b[1..], line);
    } else {
      assert rest == line;
    }
    if a != "" {
      assert text == a[..|a| - 1] + "\n" + rest;
      LinesOfBoth(a[..|a| - 1], rest, line);
    } else {
      assert text == rest;
    }
  }

  lemma OneLineBefore(first: string, rest: string, line: string, a: string, b: string)
    requires OwnLine(rest, line, a, b)
    ensures OwnLine(first + "\n" + rest, line, first + "\n" + a, b)
  {
    assert first + "\n" + (a + line + b) == first + "\n" + a + line + b;
  }

  lemma {:induction false} LineIsOwn(text: string, line: string) returns (a: string, b: string)
    requires HasLine(text, line)
    ensures OwnLine(text, line, a, b)
    decreases |text|
  {
    hide OwnLine;
    var first := UpToNewline(text);
    FirstLineIs(text);
    if first == line {
      a, b := "", text[|first|..];
      FirstIsOwn(text, line);
    } else {
      var rest := text[|first| + 1..];
      a, b := LineIsOwn(rest, line);
      assert text == first + "\n" + rest;
      OneLineBefore(first, rest, line, a, b);
      a := first + "\n" + a;
    }
  }

  lemma FirstIsOwn(text: string, line: string)
    requires line <= text && (|line| < |text| ==> text[|line|] == '\n')
    ensures OwnLine(text, line, "", text[|line|..])
  {
  }

  /** A prompt is marked for a dispatch exactly when the marker with its id stands on a line of its own. */
  lemma MarksIff(prompt: string, id: string)
    requires '\n' !in id
    ensures Marks(prompt, id) <==> exists a, b :: OwnLine(prompt, MARKER + id, a, b)
  {
    var line := MARKER + id;
    if Marks(prompt, id) {
      var a, b := LineIsOwn(prompt, line);
    }
    if exists a, b :: OwnLine(prompt, line, a, b) {
      var a, b :| OwnLine(prompt, line, a, b);
      OwnLineIsALine(prompt, line, a, b);
    }
  }

  lemma NotAMarker(line: string, id: string)
    requires line == "" || line[0] in {'O', 'D'} || (|line| > 9 && line[9] == 'C')
    ensures line != MARKER + id
  {
    assert (MARKER + id)[0] == 'K' && (MARKER + id)[9] == 'D';
  }

  lemma TwoParts(a: string, b: string, c: char)
    requires a != "" && c !in a && c !in b
    ensures a + b != "" && (a + b)[0] == a[0] && c !in a + b
  {
  }

  lemma ReportOpens(c: char)
    requires c < ' '
    ensures var half := "Only after the task is fully " + "complete and verified, ";
            half != "" && half[0] == 'O' && c !in half
  {
    TwoParts("Only after the task is fully ", "complete and verified, ", c);
  }

  /** The lines of the report hold no control character, so none ends early. */
  lemma FirstReportLine(c: char)
    requires c < ' '
    ensures REPORT_BACK != "" && REPORT_BACK[0] == 'O' && c !in REPORT_BACK
  {
    var half := "Only after the task is fully " + "complete and verified, ";
    ReportOpens(c);
    TwoParts(half, "end your final response ", c);
    TwoParts(half + "end your final response ", "with this exact line:", c);
  }

  lemma LastReportLine(c: char)
    requires c < ' '
    ensures NOT_WHEN_BLOCKED != "" && NOT_WHEN_BLOCKED[0] == 'D' && c !in NOT_WHEN_BLOCKED
  {
    TwoParts("Do not output that line when blocked, ", "waiting for input, or incomplete.", c);
  }

  lemma CompletionLine(workItemId: string)
    requires '\n' !in workItemId
    ensures var item := "KEEPLINE_COMPLETE_WORK_ITEM:" + workItemId;
            |item| > 9 && item[9] == 'C' && '\n' !in item
  {
  }

  /** The lines that ask Claude to report completion, as a text of their own. */
  function Report(workItemId: string): string {
    REPORT_BACK + "\n" + ("KEEPLINE_COMPLETE_WORK_ITEM:" + workItemId) + "\n" + NOT_WHEN_BLOCKED
  }

  lemma ThreeLines(x: string, y: string, z: string, line: string)
    requires '\n' !in x && '\n' !in y && '\n' !in z && line !in {x, y, z}
    ensures !HasLine(x + "\n" + y + "\n" + z, line)
  {
    hide HasLine;
    OneLine(x, line);
    OneLine(y, line);
    OneLine(z, line);
    LinesOfBoth(x, y, line);
    LinesOfBoth(x + "\n" + y, z, line);
  }

  lemma ReportsMarkNothing(workItemId: string, id: string)
    requires '\n' !in workItemId
    ensures !HasLine(Report(workItemId), MARKER + id)
  {
    hide HasLine;
    var item := "KEEPLINE_COMPLETE_WORK_ITEM:" + workItemId;
    FirstReportLine('\n');
    LastReportLine('\n');
    CompletionLine(workItemId);
    NotAMarker(REPORT_BACK, id);
    NotAMarker(item, id);
    NotAMarker(NOT_WHEN_BLOCKED, id);
    ThreeLines(REPORT_BACK, item, NOT_WHEN_BLOCKED, MARKER + id);
  }

  /** The prompt a dispatch launches with is marked for that dispatch, and otherwise only for what the task's own text marks. */
  lemma LaunchPromptMarks(runtime: Runtime, prompt: string, workItemId: string, id: string, other: string)
    requires '\n' !in id && '\n' !in workItemId
    ensures Marks(LaunchPrompt(runtime, prompt, workItemId, id), other) <==> other == id || Marks(prompt, other)
  {
    hide HasLine, Report;
    var line, own := MARKER + other, MARKER + id;
    assert own == line <==> id == other by { assert own[|MARKER|..] == id && line[|MARKER|..] == other; }
    NotAMarker("", other);
    OneLine("", line);
    OneLine(own, line);
    var dispatched := prompt + "\n" + "" + "\n" + own;
    LinesOfBoth(prompt, "", line);
    LinesOfBoth(prompt + "\n" + "", own, line);
    DispatchedIs(runtime, prompt, workItemId, id);
    if runtime.ClaudeCode? {
      ReportsMarkNothing(workItemId, other);
      LinesOfBoth(dispatched, "", line);
      LinesOfBoth(dispatched + "\n" + "", Report(workItemId), line);
    }
  }

  lemma DispatchedIs(runtime: Runtime, prompt: string, workItemId: string, id: string)
    ensures var dispatched := prompt + "\n" + "" + "\n" + (MARKER + id);
            LaunchPrompt(runtime, prompt, workItemId, id)
            == if runtime.Codex? then dispatched else dispatched + "\n" + "" + "\n" + Report(workItemId)
  {
    var dispatched := prompt + "\n\nKEEPLINE_DISPATCH_ID:" + id;
    assert "\n\nKEEPLINE_DISPATCH_ID:" == "\n" + "" + "\n" + MARKER;
    assert dispatched == prompt + "\n" + "" + "\n" + (MARKER + id);
    Tail(dispatched, REPORT_BACK, workItemId, NOT_WHEN_BLOCKED);
  }

  lemma Tail(d: string, x: string, w: string, z: string)
    ensures d + "\n\n" + x + "\nKEEPLINE_COMPLETE_WORK_ITEM:" + w + "\n" + z
            == d + "\n" + "" + "\n" + (x + "\n" + ("KEEPLINE_COMPLETE_WORK_ITEM:" + w) + "\n" + z)
  {
    assert "\nKEEPLINE_COMPLETE_WORK_ITEM:" == "\n" + "KEEPLINE_COMPLETE_WORK_ITEM:";
    assert "\n\n" == "\n" + "" + "\n";
  }

  /** A scan in time links a launched dispatch to its only candidate when that carries the dispatch's own prompt, belongs to
    * no other dispatch, and is held by no other. */
  lemma OwnCandidateIsLinked(rows: Rows, plan: Plan, id: string, s: Session, later: int)
    requires id in rows && rows[id].state !in {Linked, Failed} && rows[id].launchedAt.Some? && plan.now <= rows[id].deadline
    requires '\n' !in id && '\n' !in rows[id].workItemId
    requires plan.Candidates(id) == [s] && s.runtime == rows[id].runtime
    requires plan.prompt(s.sessionId) == LaunchPrompt(rows[id].runtime, rows[id].prompt, rows[id].workItemId, id)
    requires plan.Owners(s.sessionId) <= {id} && !HeldElsewhere(rows, id, Agent(s.runtime, s.sessionId))
    ensures Reconciled(rows, plan, id, later) == Link(rows[id], s)
  {
    hide HasLine, LaunchPrompt;
    LaunchPromptMarks(rows[id].runtime, rows[id].prompt, rows[id].workItemId, id, id);
    OnlyMarked(id, s, plan.prompt);
    assert plan.Trusted(id) == [s];
    if |plan.Owners(s.sessionId)| > 1 { SmallerSet(plan.Owners(s.sessionId), id); }
  }

  lemma OnlyMarked(id: string, s: Session, prompt: string -> string)
    requires Marks(prompt(s.sessionId), id)
    ensures MarkedFor(id, [s], prompt) == [s]
  {
    assert [s][..0] == [];
  }

  lemma SmallerSet(owners: set<string>, id: string)
    requires owners <= {id}
    ensures |owners| <= 1
  {
    assert owners == {} || owners == {id};
  }
}
