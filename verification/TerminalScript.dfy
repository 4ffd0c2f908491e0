/** The AppleScript that opens a terminal: what the string literal holds and what the shell then reads. */
module TerminalScript {
  import opened Outcomes
  import opened Basics
  import opened ShellQuote

  const ALLOWED_COMMANDS: set<string> := {"claude", "claude-code", "codex", "npx"}

  /** `str.replace(/c/g, with)` */
  function ReplaceAll(s: string, c: char, with: string): string {
    if |s| == 0 then "" else (if s[0] == c then with else [s[0]]) + ReplaceAll(s[1..], c, with)
  }

  /** Backslashes first, then double quotes. */
  function EscapeForAppleScript(s: string): string {
    ReplaceAll(ReplaceAll(s, '\\', "\\\\"), '"', "\\\"")
  }

  /** Reads an AppleScript string literal after its opening quote: the value and what follows the closing quote. */
  function ReadLiteral(s: string): Option<(string, string)> {
    if |s| == 0 then None
    else if s[0] == '"' then Some(("", s[1..]))
    else if s[0] != '\\' then Cons(s[0], ReadLiteral(s[1..]))
    else if |s| == 1 then None
    else match s[1]
      case '\\' => Cons('\\', ReadLiteral(s[2..]))
      case '"' => Cons('"', ReadLiteral(s[2..]))
      case 'n' => Cons('\n', ReadLiteral(s[2..]))
      case 'r' => Cons('\r', ReadLiteral(s[2..]))
      case 't' => Cons('\t', ReadLiteral(s[2..]))
      case _ => None
  }

  function Cons(c: char, rest: Option<(string, string)>): Option<(string, string)> {
    match rest
    case None => None
    case Some((value, after)) => Some(([c] + value, after))
  }

  lemma {:induction false} ReplaceAllConcat(a: string, b: string, c: char, with: string)
    ensures ReplaceAll(a + b, c, with) == ReplaceAll(a, c, with) + ReplaceAll(b, c, with)
    decreases |a|
  {
    if |a| == 0 {
      assert a + b == b;
    } else {
      assert (a + b)[1..] == a[1..] + b;
      ReplaceAllConcat(a[1..], b, c, with);
    }
  }

  /** The two passes together escape one character at a time. */
  lemma EscapeStep(s: string)
    requires |s| > 0
    ensures EscapeForAppleScript(s)
            == (if s[0] == '\\' then "\\\\" else if s[0] == '"' then "\\\"" else [s[0]]) + EscapeForAppleScript(s[1..])
  {
    var head := if s[0] == '\\' then "\\\\" else [s[0]];
    ReplaceAllConcat(head, ReplaceAll(s[1..], '\\', "\\\\"), '"', "\\\"");
    if s[0] == '\\' {
      assert head[1..] == "\\" && head[1..][1..] == "";
      assert ReplaceAll("\\", '"', "\\\"") == "\\";
      assert ReplaceAll(head, '"', "\\\"") == "\\\\";
    } else {
      assert head[1..] == "";
    }
  }

  /** The literal ends exactly at its closing quote and holds exactly the text, whatever text it is. */
  lemma {:induction false} LiteralRoundTrip(text: string, after: string)
    ensures ReadLiteral(EscapeForAppleScript(text) + "\"" + after) == Some((text, after))
    decreases |text|
  {
    var s := EscapeForAppleScript(text) + "\"" + after;
    if |text| == 0 {
      assert s[1..] == after;
    } else {
      EscapeStep(text);
      LiteralRoundTrip(text[1..], after);
      var tail := EscapeForAppleScript(text[1..]) + "\"" + after;
      assert text == [text[0]] + text[1..];
      if text[0] == '\\' {
        assert s == "\\\\" + tail && s[2..] == tail;
      } else if text[0] == '"' {
        assert s == "\\\"" + tail && s[2..] == tail;
      } else {
        assert s == [text[0]] + tail && s[1..] == tail;
      }
    }
  }

  // ----- The opened command -----

  datatype OpenError = CommandNotAllowed

  /** `cd ${shellQuote(directory)} && ${command}` */
  function TerminalCommand(directory: string, argv: seq<string>): string
    requires |argv| > 0
  {
    "cd " + Quote(directory) + " && " + JoinQuoted(argv)
  }

  /** The script text around the literal differs per terminal; `before` ends and `after` starts next to its quotes. */
  function Script(before: string, directory: string, argv: seq<string>, after: string): string
    requires |argv| > 0
  {
    before + "\"" + EscapeForAppleScript(TerminalCommand(directory, argv)) + "\"" + after
  }

  predicate IsSpace(c: char) {
    c == ' ' || c == '\t' || c == '\n' || c == '\r'
  }

  /** `command.trim().split(/\s+/)[0]` */
  function FirstPart(command: string): string {
    if |command| == 0 then ""
    else if IsSpace(command[0]) then FirstPart(command[1..])
    else UpToSpace(command)
  }

  function UpToSpace(s: string): string {
    if |s| == 0 || IsSpace(s[0]) then "" else [s[0]] + UpToSpace(s[1..])
  }

  predicate ValidateCommand(command: string) {
    exists allowed :: allowed in ALLOWED_COMMANDS &&
      (FirstPart(command) == allowed || EndsWith(FirstPart(command), "/" + allowed))
  }

  /** `openTerminalWithArgv` up to the script it runs, for a directory that passed its own checks. */
  function OpenScript(executable: string, args: seq<string>, directory: string, before: string, after: string): Result<string, OpenError> {
    if executable !in ALLOWED_COMMANDS then Err(CommandNotAllowed)
    else if !ValidateCommand(JoinQuoted([executable] + args)) then Err(CommandNotAllowed)
    else Ok(Script(before, directory, [executable] + args, after))
  }

  lemma {:induction false} UpToSpaceStops(word: string, rest: string)
    requires forall i :: 0 <= i < |word| ==> IsSafeChar(word[i])
    requires |rest| > 0 ==> IsSpace(rest[0])
    ensures UpToSpace(word + rest) == word
  {
    if |word| > 0 {
      assert (word + rest)[1..] == word[1..] + rest;
      UpToSpaceStops(word[1..], rest);
    } else {
      assert word + rest == rest;
    }
  }

  /** The second check, on the rendered text, never rejects what the whitelist accepted. */
  lemma RenderedCommandIsValid(executable: string, args: seq<string>)
    requires executable in ALLOWED_COMMANDS
    ensures ValidateCommand(JoinQuoted([executable] + args))
  {
    assert IsSafeWord(executable);
    var argv := [executable] + args;
    var rest := if |args| == 0 then "" else " " + JoinQuoted(args);
    assert argv[1..] == args;
    assert JoinQuoted(argv) == executable + rest;
    UpToSpaceStops(executable, rest);
    assert !IsSpace(JoinQuoted(argv)[0]);
  }

  lemma ThreeTokens(a: Token, b: Token, c: Token, rest: seq<Token>)
    ensures [a] + ([b] + ([c] + rest)) == [a, b, c] + rest
  {
  }

  lemma FourTokens(a: Token, b: Token, c: Token, d: Token, rest: seq<Token>)
    ensures [a, b, c] + ([d] + rest) == [a, b, c, d] + rest
  {
  }

  lemma WordsCons(first: string, rest: seq<string>)
    ensures Words([first] + rest) == [Word(first)] + Words(rest)
  {
  }

  lemma CdIsSafe()
    ensures forall i :: 0 <= i < 2 ==> IsSafeChar("cd"[i])
  {
  }

  lemma CommandTokens(directory: string, argv: seq<string>)
    requires |argv| > 0 && !HasNul(argv) && NUL !in directory
    ensures Tokens(TerminalCommand(directory, argv), Between)
            == Some([Word("cd"), Word(directory), AndIf] + Words(argv))
  {
    hide Tokens, JoinQuoted, Quote, IsSafeChar;
    var command := JoinQuoted(argv);
    var s3 := " " + command;
    var s2 := "&&" + s3;
    var s1 := " " + s2;
    var s0 := " " + (Quote(directory) + s1);
    JoinedSplitsBack(argv);
    BlankStep(command, Between);
    assert [] + Words(argv) == Words(argv);
    AndIfStep(s3);
    BlankStep(s2, InWord(directory));
    QuoteIsOneWord(directory, s1);
    BlankStep(Quote(directory) + s1, InWord("cd"));
    CdIsSafe();
    SafeTextIsLiteral("cd", s0, Between);
    assert "" + "cd" == "cd";
    assert TerminalCommand(directory, argv) == "cd" + s0;
    ThreeTokens(Word("cd"), Word(directory), AndIf, Words(argv));
  }

  /** A whitelisted executable is always opened, and reading the script back through AppleScript and then the shell
    * gives `cd`, the directory, `&&`, the executable and the arguments, unchanged. */
  lemma OpenedCommandIsExact(executable: string, args: seq<string>, directory: string, before: string, after: string)
    requires NUL !in directory && !HasNul(args)
    ensures var script := OpenScript(executable, args, directory, before, after);
            && (script.Ok? <==> executable in ALLOWED_COMMANDS)
            && (script.Ok? ==>
                 && script.value[..|before| + 1] == before + "\""
                 && var literal := ReadLiteral(script.value[|before| + 1..]);
                    && literal.Some? && literal.value.1 == after
                    && Tokens(literal.value.0, Between)
                       == Some([Word("cd"), Word(directory), AndIf, Word(executable)] + Words(args)))
  {
    if executable in ALLOWED_COMMANDS {
      hide Tokens, ReadLiteral, EscapeForAppleScript, TerminalCommand, ValidateCommand, JoinQuoted;
      var argv := [executable] + args;
      assert forall i :: 0 <= i < |args| ==> argv[i + 1] == args[i];
      assert NUL !in executable;
      RenderedCommandIsValid(executable, args);
      var text := TerminalCommand(directory, argv);
      LiteralRoundTrip(text, after);
      var script := Script(before, directory, argv, after);
      assert script == (before + "\"") + (EscapeForAppleScript(text) + "\"" + after);
      CommandTokens(directory, argv);
      WordsCons(executable, args);
      FourTokens(Word("cd"), Word(directory), AndIf, Word(executable), Words(args));
    }
  }
}
