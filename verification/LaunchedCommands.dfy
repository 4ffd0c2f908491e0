/** What the shell runs for a recovery or a dispatch, read back from the script. */
module LaunchedCommands {
  import opened Outcomes
  import opened Basics
  import opened ShellQuote
  import TerminalScript
  import RecoveryLaunch
  import TaskDispatch
  import MarkedPrompts

  /** The script is opened, its literal is followed by `after`, and the shell reads it as going to the directory and
    * running the command. */
  predicate Opens(script: Result<string, TerminalScript.OpenError>, before: string, after: string, directory: string, command: seq<string>) {
    && script.Ok? && |before| < |script.value| && script.value[..|before| + 1] == before + "\""
    && var literal := TerminalScript.ReadLiteral(script.value[|before| + 1..]);
       && literal.Some? && literal.value.1 == after
       && Tokens(literal.value.0, Between) == Some([Word("cd"), Word(directory), AndIf] + Words(command))
  }

  lemma HoldsALiteral(executable: string, args: seq<string>, directory: string, before: string, after: string)
    requires executable in {"codex", "claude"}
    ensures var script := TerminalScript.OpenScript(executable, args, directory, before, after);
            script.Ok? ==> |before| < |script.value|
  {
    hide TerminalScript.ValidateCommand, TerminalScript.EscapeForAppleScript;
  }

  lemma OpensCommand(executable: string, args: seq<string>, directory: string, before: string, after: string)
    requires executable in {"codex", "claude"} && NUL !in directory && !HasNul(args)
    ensures Opens(TerminalScript.OpenScript(executable, args, directory, before, after), before, after, directory, [executable] + args)
  {
    hide Tokens, TerminalScript.OpenScript, TerminalScript.ReadLiteral, Words;
    HoldsALiteral(executable, args, directory, before, after);
    TerminalScript.OpenedCommandIsExact(executable, args, directory, before, after);
    var argv := [executable] + args;
    TerminalScript.WordsCons(executable, args);
    assert [Word("cd"), Word(directory), AndIf, Word(executable)] + Words(args)
           == [Word("cd"), Word(directory), AndIf] + Words(argv);
  }

  /** What a terminal runs for a recovery is, word for word, the command built for the session, whatever its prompt. */
  lemma RecoveryRunsExactly(s: RecoveryLaunch.Source, shown: RecoveryLaunch.Preview, before: string, after: string)
    requires RecoveryLaunch.Recovers(s, shown) && NUL !in s.directory && NUL !in s.prompt.GetOr("")
    ensures Opens(TerminalScript.OpenScript(shown.executable, shown.arguments, shown.directory, before, after),
                  before, after, s.directory, RecoveryLaunch.Build(s).value)
  {
    hide Opens, TerminalScript.OpenScript;
    BuiltHoldsNoNul(s, shown.arguments);
    OpensCommand(shown.executable, shown.arguments, shown.directory, before, after);
  }

  lemma BuiltHoldsNoNul(s: RecoveryLaunch.Source, args: seq<string>)
    requires RecoveryLaunch.Build(s).Some? && NUL !in s.prompt.GetOr("") && |RecoveryLaunch.Build(s).value| > 0
    requires args == RecoveryLaunch.Build(s).value[1..]
    ensures !HasNul(args)
  {
    assert NUL !in s.sessionId && NUL !in RecoveryLaunch.Unscoped(s.sessionId);
    assert NUL !in "--resume" && NUL !in "--continue" && NUL !in "resume" && NUL !in "--last";
  }

  /** What a terminal runs for a dispatch is its runtime's executable with the whole marked prompt as its one argument. */
  lemma DispatchRunsExactly(q: TaskDispatch.Request, id: string, before: string, after: string)
    requires NUL !in q.cwd && NUL !in q.prompt && NUL !in q.workItemId && NUL !in id
    ensures var c := TaskDispatch.CommandOf(q, id);
            Opens(TerminalScript.OpenScript(c.executable, [c.argument], c.cwd, before, after), before, after, q.cwd,
                  [if q.runtime.Codex? then "codex" else "claude", TaskDispatch.LaunchPrompt(q.runtime, q.prompt, q.workItemId, id)])
  {
    hide Opens, TerminalScript.OpenScript, TaskDispatch.LaunchPrompt;
    var c := TaskDispatch.CommandOf(q, id);
    PromptHoldsNoNul(q.runtime, q.prompt, q.workItemId, id);
    OpensCommand(c.executable, [c.argument], c.cwd, before, after);
    assert [c.executable] + [c.argument] == [c.executable, c.argument];
  }

  lemma PromptHoldsNoNul(runtime: TaskDispatch.Runtime, prompt: string, workItemId: string, id: string)
    requires NUL !in prompt && NUL !in workItemId && NUL !in id
    ensures NUL !in TaskDispatch.LaunchPrompt(runtime, prompt, workItemId, id)
  {
    hide TaskDispatch.REPORT_BACK, TaskDispatch.NOT_WHEN_BLOCKED;
    MarkedPrompts.FirstReportLine(NUL);
    MarkedPrompts.LastReportLine(NUL);
    assert NUL !in "\n\nKEEPLINE_DISPATCH_ID:" && NUL !in "\nKEEPLINE_COMPLETE_WORK_ITEM:";
  }
}
