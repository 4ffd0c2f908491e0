/** `shellQuote` and `renderShellCommand`, read back by the token rules of the POSIX Shell Command Language. */
module ShellQuote {
  import opened Outcomes
  import opened Basics

  // ----- Rendering -----

  /** `[A-Za-z0-9_@%+=:,./-]` */
  predicate IsSafeChar(c: char) {
    'A' <= c <= 'Z' || 'a' <= c <= 'z' || '0' <= c <= '9' || c in {'_', '@', '%', '+', '=', ':', ',', '.', '/', '-'}
  }

  predicate IsSafeWord(value: string) {
    |value| > 0 && forall i :: 0 <= i < |value| ==> IsSafeChar(value[i])
  }

  /** `value.replace(/'/g, "'\\''")` */
  function EscapeSingleQuotes(value: string): string {
    if |value| == 0 then ""
    else (if value[0] == '\'' then "'\\''" else [value[0]]) + EscapeSingleQuotes(value[1..])
  }

  function Quote(value: string): string {
    if |value| == 0 then "''"
    else if IsSafeWord(value) then value
    else "'" + EscapeSingleQuotes(value) + "'"
  }

  function JoinQuoted(args: seq<string>): string
    requires |args| > 0
  {
    if |args| == 1 then Quote(args[0]) else Quote(args[0]) + " " + JoinQuoted(args[1..])
  }

  datatype RenderError = EmptyCommand

  function RenderShellCommand(args: seq<string>): Result<string, RenderError> {
    if |args| == 0 then Err(EmptyCommand) else Ok(JoinQuoted(args))
  }

  // ----- Token recognition (POSIX.1-2017, Shell Command Language, sections 2.2.1, 2.2.2 and 2.3) -----

  datatype Token = Word(text: string) | AndIf

  /** Between tokens, inside an unquoted part of a word, or inside single quotes; words carry their text so far. */
  datatype Mode = Between | InWord(text: string) | InQuotes(text: string)

  /** Characters that start an operator, an expansion, a comment or another kind of quoting when unquoted.
    * Such input is not a plain list of words, and the reader refuses it. */
  predicate IsSpecial(c: char) {
    c in {'|', '&', ';', '<', '>', '(', ')', '$', '`', '"', '*', '?', '[', '#', '~', '\n'}
  }

  function TextOf(mode: Mode): string {
    match mode
    case Between => ""
    case InWord(t) => t
    case InQuotes(t) => t
  }

  function Prepend(tokens: seq<Token>, rest: Option<seq<Token>>): Option<seq<Token>> {
    match rest
    case None => None
    case Some(more) => Some(tokens + more)
  }

  /** The finished word, if one is under way. */
  function Pending(mode: Mode): seq<Token> {
    if mode.InWord? then [Word(mode.text)] else []
  }

  /** The tokens of s, or None when s has a NUL, an open quote or an unquoted special character. */
  function Tokens(s: string, mode: Mode): Option<seq<Token>>
    decreases |s|
  {
    if |s| == 0 then
      if mode.InQuotes? then None else Some(Pending(mode))
    else if s[0] == NUL then None
    else if mode.InQuotes? then
      // 2.2.2: everything up to the closing quote is literal
      if s[0] == '\'' then Tokens(s[1..], InWord(mode.text))
      else Tokens(s[1..], InQuotes(mode.text + [s[0]]))
    else if s[0] == '\'' then Tokens(s[1..], InQuotes(TextOf(mode)))
    else if s[0] == '\\' then
      // 2.2.1: the next character is literal, and an escaped newline disappears
      if |s| == 1 || s[1] == NUL then None
      else if s[1] == '\n' then Tokens(s[2..], mode)
      else Tokens(s[2..], InWord(TextOf(mode) + [s[1]]))
    else if s[0] == ' ' || s[0] == '\t' then Prepend(Pending(mode), Tokens(s[1..], Between))
    else if s[0] == '&' && |s| > 1 && s[1] == '&' then Prepend(Pending(mode) + [AndIf], Tokens(s[2..], Between))
    else if IsSpecial(s[0]) then None
    else Tokens(s[1..], InWord(TextOf(mode) + [s[0]]))
  }

  function Words(args: seq<string>): seq<Token> {
    seq(|args|, i requires 0 <= i < |args| => Word(args[i]))
  }

  predicate HasNul(args: seq<string>) {
    exists i :: 0 <= i < |args| && NUL in args[i]
  }

  // ----- The round trip -----

  lemma OrdinaryStep(c: char, rest: string, mode: Mode)
    requires !mode.InQuotes? && IsSafeChar(c)
    ensures Tokens([c] + rest, mode) == Tokens(rest, InWord(TextOf(mode) + [c]))
  {
    assert ([c] + rest)[1..] == rest;
  }

  lemma OpenQuoteStep(rest: string, mode: Mode)
    requires !mode.InQuotes?
    ensures Tokens("'" + rest, mode) == Tokens(rest, InQuotes(TextOf(mode)))
  {
    assert ("'" + rest)[1..] == rest;
  }

  lemma CloseQuoteStep(rest: string, text: string)
    ensures Tokens("'" + rest, InQuotes(text)) == Tokens(rest, InWord(text))
  {
    assert ("'" + rest)[1..] == rest;
  }

  lemma EscapedQuoteStep(rest: string, text: string)
    ensures Tokens("\\'" + rest, InWord(text)) == Tokens(rest, InWord(text + "'"))
  {
    assert ("\\'" + rest)[2..] == rest;
  }

  lemma BlankStep(rest: string, mode: Mode)
    requires !mode.InQuotes?
    ensures Tokens(" " + rest, mode) == Prepend(Pending(mode), Tokens(rest, Between))
  {
    assert (" " + rest)[1..] == rest;
  }

  lemma AndIfStep(rest: string)
    ensures Tokens("&&" + rest, Between) == Prepend([AndIf], Tokens(rest, Between))
  {
    assert ("&&" + rest)[2..] == rest && Pending(Between) + [AndIf] == [AndIf];
  }

  lemma {:induction false} SafeTextIsLiteral(value: string, rest: string, mode: Mode)
    requires !mode.InQuotes? && forall i :: 0 <= i < |value| ==> IsSafeChar(value[i])
    requires |value| > 0
    ensures Tokens(value + rest, mode) == Tokens(rest, InWord(TextOf(mode) + value))
    decreases |value|
  {
    hide Tokens, IsSafeChar;
    var tail := value[1..];
    var next := InWord(TextOf(mode) + [value[0]]);
    OrdinaryStep(value[0], tail + rest, mode);
    assert value + rest == [value[0]] + (tail + rest);
    assert value == [value[0]] + tail;
    assert TextOf(mode) + [value[0]] + tail == TextOf(mode) + value;
    if |tail| > 0 {
      SafeTextIsLiteral(tail, rest, next);
    } else {
      assert tail + rest == rest && value == [value[0]];
    }
  }

  /** Each `'\''` leaves the quotes, adds one literal quote and re-enters them. */
  lemma {:induction false} QuotedTextIsLiteral(value: string, rest: string, text: string)
    requires NUL !in value
    ensures Tokens(EscapeSingleQuotes(value) + "'" + rest, InQuotes(text)) == Tokens(rest, InWord(text + value))
    decreases |value|
  {
    var s := EscapeSingleQuotes(value) + "'" + rest;
    if |value| == 0 {
      assert s[1..] == rest && text + value == text;
    } else {
      var tail := EscapeSingleQuotes(value[1..]) + "'" + rest;
      assert text + [value[0]] + value[1..] == text + value;
      QuotedTextIsLiteral(value[1..], rest, text + [value[0]]);
      if value[0] == '\'' {
        assert s == "'" + ("\\'" + ("'" + tail));
        CloseQuoteStep("\\'" + ("'" + tail), text);
        EscapedQuoteStep("'" + tail, text);
        OpenQuoteStep(tail, InWord(text + "'"));
      } else {
        assert s == [value[0]] + tail && s[1..] == tail;
      }
    }
  }

  lemma QuoteIsOneWord(value: string, rest: string)
    requires NUL !in value
    ensures Tokens(Quote(value) + rest, Between) == Tokens(rest, InWord(value))
  {
    hide Tokens, IsSafeChar, EscapeSingleQuotes;
    assert "" + value == value;
    if |value| == 0 {
      assert Quote(value) + rest == "'" + ("'" + rest);
      OpenQuoteStep("'" + rest, Between);
      CloseQuoteStep(rest, "");
    } else if IsSafeWord(value) {
      SafeTextIsLiteral(value, rest, Between);
    } else {
      var body := EscapeSingleQuotes(value) + "'" + rest;
      assert Quote(value) + rest == "'" + body;
      OpenQuoteStep(body, Between);
      QuotedTextIsLiteral(value, rest, "");
    }
  }

  lemma {:induction false} JoinedSplitsBack(args: seq<string>)
    requires |args| > 0 && !HasNul(args)
    ensures Tokens(JoinQuoted(args), Between) == Some(Words(args))
    decreases |args|
  {
    if |args| == 1 {
      QuoteIsOneWord(args[0], "");
      assert Quote(args[0]) + "" == Quote(args[0]);
      assert Words(args) == [Word(args[0])];
    } else {
      var tail := JoinQuoted(args[1..]);
      assert forall i :: 0 <= i < |args[1..]| ==> args[1..][i] == args[i + 1];
      JoinedSplitsBack(args[1..]);
      QuoteIsOneWord(args[0], " " + tail);
      assert Quote(args[0]) + " " + tail == Quote(args[0]) + (" " + tail);
      BlankStep(tail, InWord(args[0]));
      assert Words(args) == [Word(args[0])] + Words(args[1..]);
    }
  }

  lemma {:induction false} NulIsRefused(s: string, mode: Mode)
    requires NUL in s
    ensures Tokens(s, mode) == None
    decreases |s|
  {
    if s[0] != NUL {
      assert NUL in s[1..];
      if !mode.InQuotes? && |s| > 1 && s[1] != NUL && (s[0] == '\\' || (s[0] == '&' && s[1] == '&')) {
        assert s[1..] == [s[1]] + s[2..];
        NulIsRefused(s[2..], mode);
        NulIsRefused(s[2..], Between);
        NulIsRefused(s[2..], InWord(TextOf(mode) + [s[1]]));
      } else {
        NulIsRefused(s[1..], Between);
        NulIsRefused(s[1..], InWord(TextOf(mode)));
        NulIsRefused(s[1..], InWord(TextOf(mode) + [s[0]]));
        NulIsRefused(s[1..], InQuotes(TextOf(mode)));
        NulIsRefused(s[1..], InQuotes(TextOf(mode) + [s[0]]));
      }
    }
  }

  lemma {:induction false} EscapeKeepsNul(value: string)
    ensures NUL in value <==> NUL in EscapeSingleQuotes(value)
  {
    if |value| > 0 {
      EscapeKeepsNul(value[1..]);
      assert value == [value[0]] + value[1..];
    }
  }

  lemma {:induction false} JoinKeepsNul(args: seq<string>)
    requires |args| > 0 && HasNul(args)
    ensures NUL in JoinQuoted(args)
    decreases |args|
  {
    EscapeKeepsNul(args[0]);
    if NUL !in args[0] {
      var i :| 0 <= i < |args| && NUL in args[i];
      assert args[1..][i - 1] == args[i];
      JoinKeepsNul(args[1..]);
    } else {
      assert NUL in Quote(args[0]);
    }
  }

  /** Rendering then splitting gives back the arguments exactly when none contains NUL, which no argv can hold. */
  lemma RenderRoundTrip(args: seq<string>)
    ensures |args| == 0 <==> RenderShellCommand(args).Err?
    ensures |args| > 0 ==>
              (Tokens(RenderShellCommand(args).value, Between) == Some(Words(args)) <==> !HasNul(args))
  {
    if |args| > 0 {
      if HasNul(args) {
        JoinKeepsNul(args);
        NulIsRefused(JoinQuoted(args), Between);
      } else {
        JoinedSplitsBack(args);
      }
    }
  }
}
