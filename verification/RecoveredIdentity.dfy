/** The command that resumes a session is recognised by the process matcher as naming that session. */
module RecoveredIdentity {
  import opened Outcomes
  import opened Basics
  import opened MatchBasis
  import opened NamedIdentity
  import RecoveryLaunch

  lemma PlainArguments(arg: string)
    requires arg in {"claude", "codex", "resume", "--continue", "--last"}
    ensures !HasIdFlag(arg)
  {
    var k := if arg[0] == '-' then 2 else 0;
    forall flag | flag in ID_FLAGS ensures arg != flag && !(flag + "=" <= arg) {
      NotAPrefix(flag + "=", arg, k);
    }
  }

  /** A Claude session that was resumed is bound to the resumed process, whose command line names exactly its id; the
    * other commands name a session only if the prompt they start with is itself such an argument. */
  lemma ResumedProcessNamesItsSession(s: RecoveryLaunch.Source, p: Process)
    requires RecoveryLaunch.Build(s) == Some(p.args)
    ensures s.runtime.ClaudeCode? && s.recommended.Resume? ==> NamedId(p) == Some(s.sessionId)
    ensures s.runtime.ClaudeCode? && s.recommended.Resume? ==> (IsReserved(p) <==> s.sessionId[0] != '-')
    ensures !(s.runtime.ClaudeCode? && s.recommended.Resume?) && !HasIdFlag(s.prompt.GetOr("")) && !HasIdFlag(RecoveryLaunch.Unscoped(s.sessionId)) ==>
              NamedId(p).None?
  {
    hide NamedId, IsReserved, HasIdFlag, Names;
    PlainArguments("claude");
    PlainArguments("codex");
    PlainArguments("resume");
    PlainArguments("--continue");
    PlainArguments("--last");
    if s.runtime.ClaudeCode? && s.recommended.Resume? {
      assert p.args == ["claude"] + ["--resume", s.sessionId] + [];
      FlagForms(p, ["claude"], "--resume", s.sessionId, []);
      NamedIff(p, s.sessionId);
      ReservedIff(p);
      forall id | Names(p.args, id) ensures id == s.sessionId { NamedIff(p, id); }
    } else if !HasIdFlag(s.prompt.GetOr("")) && !HasIdFlag(RecoveryLaunch.Unscoped(s.sessionId)) {
      NoFlagNamesNothing(p);
    }
  }
}
