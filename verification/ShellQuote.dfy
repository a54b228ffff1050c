/** Quoting for the terminal's shell command, against the shell's own way of reading it. */
module ShellQuote {
  import opened Wrappers

  /******* Reading: sections 2.2 and 2.3 of the POSIX.1-2017 Shell Command Language *******/

  // A word after quote removal, and whether any of it was quoted.
  datatype Token = Word(text: string, quoted: bool) | Operator(text: string) | IoNumber(text: string)

  // What would need an expansion, a comment or double quotes is not read: Stuck.
  datatype Mode = Plain | Backslash | SingleQuote | Stuck

  datatype Lexer = Lexer(mode: Mode, word: string, started: bool, quoted: bool, op: string, tokens: seq<Token>)

  // The operator of more than one character that c makes of op.
  predicate Extends(op: string, c: char) {
    || (op == "&" && c == '&')
    || (op == "|" && c == '|')
    || (op == ";" && c == ';')
    || (op == "<" && (c == '<' || c == '&' || c == '>'))
    || (op == ">" && (c == '>' || c == '&' || c == '|'))
    || (op == "<<" && c == '-')
  }

  predicate Blank(c: char) {
    c == ' ' || c == '\t'
  }

  predicate StartsOperator(c: char) {
    c == '&' || c == '(' || c == ')' || c == ';' || c == '\n' || c == '|' || c == '<' || c == '>'
  }

  predicate Unread(c: char) {
    c == '$' || c == '`' || c == '"' || c == '*' || c == '?' || c == '['
  }

  predicate UnreadFirst(c: char) {
    c == '#' || c == '~'
  }

  predicate Digits(s: string) {
    forall i :: 0 <= i < |s| ==> '0' <= s[i] <= '9'
  }

  function EndOperator(s: Lexer): Lexer {
    if s.op == "" then s else s.(op := "", tokens := s.tokens + [Operator(s.op)])
  }

  function EndWord(s: Lexer, redirects: bool): Lexer {
    if !s.started then s
    else
      var token := if redirects && !s.quoted && Digits(s.word) then IoNumber(s.word) else Word(s.word, s.quoted);
      s.(word := "", started := false, quoted := false, tokens := s.tokens + [token])
  }

  function StepPlain(s: Lexer, c: char): Lexer
    requires s.op == ""
  {
    if c == '\'' then s.(mode := SingleQuote, started := true, quoted := true)
    else if c == '\\' then s.(mode := Backslash)
    else if Unread(c) || (UnreadFirst(c) && !s.started) then s.(mode := Stuck)
    else if StartsOperator(c) then EndWord(s, c == '<' || c == '>').(op := [c])
    else if Blank(c) then EndWord(s, false)
    else s.(word := s.word + [c], started := true)
  }

  function Step(s: Lexer, c: char): Lexer {
    match s.mode
      case Stuck => s
      case SingleQuote =>
        if c == '\'' then s.(mode := Plain) else s.(word := s.word + [c])
      case Backslash =>
        if c == '\n' then s.(mode := Plain)
        else s.(mode := Plain, word := s.word + [c], started := true, quoted := true)
      case Plain =>
        if Extends(s.op, c) then s.(op := s.op + [c])
        else StepPlain(EndOperator(s), c)
  }

  function Scan(s: Lexer, text: string): Lexer {
    if text == "" then s else Step(Scan(s, text[..|text| - 1]), text[|text| - 1])
  }

  // Between words, with these tokens read.
  function Between(tokens: seq<Token>): Lexer {
    Lexer(Plain, "", false, false, "", tokens)
  }

  function Lex(text: string): Option<seq<Token>> {
    var s := Scan(Between([]), text);
    if s.mode.Plain? then Some(EndWord(EndOperator(s), false).tokens) else None
  }

  lemma {:induction false} ScanJoins(s: Lexer, a: string, b: string)
    ensures Scan(s, a + b) == Scan(Scan(s, a), b)
  {
    if b == "" {
      assert a + b == a;
    } else {
      assert (a + b)[..|a + b| - 1] == a + b[..|b| - 1];
      ScanJoins(s, a, b[..|b| - 1]);
    }
  }

  lemma ScanVia(s: Lexer, a: string, via: Lexer, b: string)
    requires Scan(s, a) == via
    ensures Scan(s, a + b) == Scan(via, b)
  {
    ScanJoins(s, a, b);
  }

  lemma ScanOne(s: Lexer, c: char)
    ensures Scan(s, [c]) == Step(s, c)
  {
    assert [c][..0] == "";
    assert Scan(s, [c][..0]) == s;
  }

  /******* Quoting *******/

  const ESCAPED_QUOTE := "'\\''"

  function Escaped(s: string): string {
    if s == "" then "" else Escaped(s[..|s| - 1]) + if s[|s| - 1] == '\'' then ESCAPED_QUOTE else [s[|s| - 1]]
  }

  function Quoted(s: string): string {
    "'" + Escaped(s) + "'"
  }

  method PtyShellQuote(s: string) returns (r: string)
    ensures r == Quoted(s)
    ensures Lex(r) == Some([Word(s, true)])
  {
    r := "'";
    for i := 0 to |s|
      invariant r == "'" + Escaped(s[..i])
    {
      assert s[..i + 1][..i] == s[..i];
      if s[i] == '\'' {
        r := r + ESCAPED_QUOTE;
        continue;
      }
      r := r + [s[i]];
    }
    assert s[..|s|] == s;
    r := r + "'";
    QuotedIsOneWord(s);
  }

  // A quote mark inside the quotes ends them, comes in escaped, and opens them again.
  lemma ScanEscapedQuote(s: Lexer)
    requires s.mode == SingleQuote && s.started && s.quoted && s.op == ""
    ensures Scan(s, ESCAPED_QUOTE) == s.(word := s.word + "'")
  {
    assert ESCAPED_QUOTE == "'" + "\\" + "'" + "'";
    ScanJoins(s, "'" + "\\" + "'", "'");
    ScanJoins(s, "'" + "\\", "'");
    ScanJoins(s, "'", "\\");
    ScanOne(s, '\'');
    var s1 := Step(s, '\'');
    ScanOne(s1, '\\');
    var s2 := Step(s1, '\\');
    ScanOne(s2, '\'');
    ScanOne(Step(s2, '\''), '\'');
  }

  lemma {:induction false} ScanEscaped(s: Lexer, text: string)
    requires s.mode == SingleQuote && s.started && s.quoted && s.op == ""
    ensures Scan(s, Escaped(text)) == s.(word := s.word + text)
  {
    if text == "" {
      assert s.word + text == s.word;
    } else {
      var front, c := text[..|text| - 1], text[|text| - 1];
      ScanEscaped(s, front);
      var t := s.(word := s.word + front);
      assert s.word + text == s.word + front + [c];
      ScanJoins(s, Escaped(front), if c == '\'' then ESCAPED_QUOTE else [c]);
      if c == '\'' {
        ScanEscapedQuote(t);
      } else {
        ScanOne(t, c);
      }
    }
  }

  // Wherever a word may stand, the quoted text adds exactly the text to it.
  lemma ScanQuoted(s: Lexer, text: string)
    requires s.mode == Plain && s.op == ""
    ensures Scan(s, Quoted(text)) == s.(word := s.word + text, started := true, quoted := true)
  {
    ScanJoins(s, "'" + Escaped(text), "'");
    ScanJoins(s, "'", Escaped(text));
    ScanOne(s, '\'');
    var open := Step(s, '\'');
    ScanEscaped(open, text);
    ScanOne(open.(word := s.word + text), '\'');
  }

  lemma QuotedIsOneWord(s: string)
    ensures Lex(Quoted(s)) == Some([Word(s, true)])
  {
    ScanQuoted(Between([]), s);
    assert "" + s == s;
    assert [] + [Word(s, true)] == [Word(s, true)];
  }

  // Different texts are never quoted alike.
  lemma QuotingIsInjective(s: string, t: string)
    requires Quoted(s) == Quoted(t)
    ensures s == t
  {
    QuotedIsOneWord(s);
    QuotedIsOneWord(t);
  }

  /******* The terminal's command *******/

  // Read between words, the text yields these tokens and ends between words again.
  ghost predicate Delivers(text: string, tokens: seq<Token>) {
    forall before: seq<Token> :: Scan(Between(before), text) == Between(before + tokens)
  }

  lemma DeliversBoth(a: string, ta: seq<Token>, b: string, tb: seq<Token>)
    requires Delivers(a, ta) && Delivers(b, tb)
    ensures Delivers(a + b, ta + tb)
  {
    forall before: seq<Token> ensures Scan(Between(before), a + b) == Between(before + (ta + tb)) {
      assert Scan(Between(before), a) == Between(before + ta);
      ScanVia(Between(before), a, Between(before + ta), b);
      assert before + (ta + tb) == before + ta + tb;
    }
  }

  predicate Ordinary(w: string) {
    w != "" && forall i :: 0 <= i < |w| ==> OrdinaryChar(w[i])
  }

  predicate OrdinaryChar(c: char) {
    c != '\'' && c != '\\' && !Unread(c) && !UnreadFirst(c) && !StartsOperator(c) && !Blank(c)
  }

  lemma {:induction false} ScanOrdinary(s: Lexer, w: string)
    requires s.mode == Plain && s.op == "" && Ordinary(w)
    ensures Scan(s, w) == s.(word := s.word + w, started := true)
  {
    var front, c := w[..|w| - 1], w[|w| - 1];
    assert w == front + [c];
    assert s.word + w == s.word + front + [c];
    if front == "" {
      assert s.word + front == s.word;
      ScanOne(s, c);
    } else {
      ScanOrdinary(s, front);
    }
  }

  lemma BareWord(w: string)
    requires Ordinary(w)
    ensures Delivers(w + " ", [Word(w, false)])
  {
    forall before: seq<Token> ensures Scan(Between(before), w + " ") == Between(before + [Word(w, false)]) {
      ScanOrdinary(Between(before), w);
      assert "" + w == w;
      BlankEndsWord(before, w, w, false);
    }
  }

  lemma QuotedWord(s: string)
    ensures Delivers(Quoted(s) + " ", [Word(s, true)])
  {
    forall before: seq<Token> ensures Scan(Between(before), Quoted(s) + " ") == Between(before + [Word(s, true)]) {
      ScanQuoted(Between(before), s);
      assert "" + s == s;
      BlankEndsWord(before, Quoted(s), s, true);
    }
  }

  // A blank ends the word that a text spells.
  lemma BlankEndsWord(before: seq<Token>, text: string, w: string, quoted: bool)
    requires Scan(Between(before), text) == Between(before).(word := w, started := true, quoted := quoted)
    ensures Scan(Between(before), text + " ") == Between(before + [Word(w, quoted)])
  {
    var via := Between(before).(word := w, started := true, quoted := quoted);
    ScanJoins(Between(before), text, " ");
    ScanOne(via, ' ');
    assert EndWord(via, false) == Between(before + [Word(w, quoted)]);
  }

  // An operator ends the word before it.
  lemma OperatorEndsWord(before: seq<Token>, c: char, w: string)
    requires StartsOperator(c) && Ordinary(w) && !Digits(w)
    ensures Scan(Between(before), w + [c]) == Between(before + [Word(w, false)]).(op := [c])
  {
    var start := Between(before);
    ScanOrdinary(start, w);
    assert "" + w == w;
    var via := start.(word := w, started := true);
    ScanVia(start, w, via, [c]);
    ScanOne(via, c);
    StepEndsWord(before, c, w);
  }

  function EndedWord(c: char, w: string): Token {
    if (c == '<' || c == '>') && Digits(w) then IoNumber(w) else Word(w, false)
  }

  lemma StepEndsWord(before: seq<Token>, c: char, w: string)
    requires StartsOperator(c)
    ensures Step(Between(before).(word := w, started := true), c) ==
              Between(before + [EndedWord(c, w)]).(op := [c])
  {
  }

  lemma OperatorThenBlank(before: seq<Token>, op: string)
    requires op != ""
    ensures Scan(Between(before).(op := op), " ") == Between(before + [Operator(op)])
  {
    ScanOne(Between(before).(op := op), ' ');
  }

  lemma WordThenSemicolon(w: string)
    requires Ordinary(w) && !Digits(w)
    ensures Delivers(w + "; ", [Word(w, false), Operator(";")])
  {
    forall before: seq<Token>
      ensures Scan(Between(before), w + "; ") == Between(before + [Word(w, false), Operator(";")])
    {
      assert w + "; " == w + [';'] + " ";
      ScanJoins(Between(before), w + [';'], " ");
      OperatorEndsWord(before, ';', w);
      OperatorThenBlank(before + [Word(w, false)], ";");
      assert before + [Word(w, false)] + [Operator(";")] == before + [Word(w, false), Operator(";")];
    }
  }

  lemma GreaterWord(w: string)
    requires Ordinary(w)
    ensures Delivers(">" + w + " ", [Operator(">"), Word(w, false)])
  {
    forall before: seq<Token>
      ensures Scan(Between(before), ">" + w + " ") == Between(before + [Operator(">"), Word(w, false)])
    {
      var s := Between(before);
      assert ">" + w + " " == ">" + (w + " ");
      assert (w + " ")[0] == w[0];
      ScanJoins(s, ">", w + " ");
      ScanOne(s, '>');
      var after := Between(before + [Operator(">")]);
      OperatorGivesWay(before, ">", w + " ");
      BareWord(w);
      assert before + [Operator(">"), Word(w, false)] == before + [Operator(">")] + [Word(w, false)];
    }
  }

  // An operator that the next character does not extend is a token before that character is read.
  lemma {:induction false} OperatorGivesWay(before: seq<Token>, op: string, text: string)
    requires op != "" && text != "" && !Extends(op, text[0])
    ensures Scan(Between(before).(op := op), text) == Scan(Between(before + [Operator(op)]), text)
  {
    var front := text[..|text| - 1];
    if front == "" {
      assert text == [text[0]];
      ScanOne(Between(before).(op := op), text[0]);
      ScanOne(Between(before + [Operator(op)]), text[0]);
    } else {
      OperatorGivesWay(before, op, front);
    }
  }

  lemma BareOperator(op: string)
    requires op == "&&" || op == "||" || op == ">"
    ensures Delivers(op + " ", [Operator(op)])
  {
    forall before: seq<Token> ensures Scan(Between(before), op + " ") == Between(before + [Operator(op)]) {
      ScanJoins(Between(before), op, " ");
      var first := Between(before).(op := [op[0]]);
      ScanOne(Between(before), op[0]);
      if |op| == 2 {
        assert op == [op[0]] + [op[1]];
        ScanJoins(Between(before), [op[0]], [op[1]]);
        ScanOne(first, op[1]);
      }
      OperatorThenBlank(before, op);
    }
  }

  lemma NumberThenGreater(before: seq<Token>)
    ensures Scan(Between(before), "2" + ">") == Between(before + [IoNumber("2")]).(op := ">")
  {
    var s := Between(before);
    assert OrdinaryChar("2"[0]);
    ScanOrdinary(s, "2");
    assert "" + "2" == "2";
    var via := s.(word := "2", started := true);
    ScanVia(s, "2", via, ">");
    ScanOne(via, '>');
    assert Digits("2");
    StepEndsWord(before, '>', "2");
  }

  // Standard error joins standard output.
  lemma DuplicateErrors()
    ensures Delivers("2>&1 ", [IoNumber("2"), Operator(">&"), Word("1", false)])
  {
    forall before: seq<Token>
      ensures Scan(Between(before), "2>&1 ") == Between(before + [IoNumber("2"), Operator(">&"), Word("1", false)])
    {
      GreaterAndOne(before);
      assert "2>&1 " == "2" + ">" + "&" + "1 ";
    }
  }

  lemma GreaterAndOne(before: seq<Token>)
    ensures Scan(Between(before), "2" + ">" + "&" + "1 ") ==
            Between(before + [IoNumber("2"), Operator(">&"), Word("1", false)])
  {
    var s, numbered := Between(before), before + [IoNumber("2")];
    NumberThenGreater(before);
    ScanVia(s, "2" + ">", Between(numbered).(op := ">"), "&");
    ScanOne(Between(numbered).(op := ">"), '&');
    assert ">" + ['&'] == ">&";
    ScanVia(s, "2" + ">" + "&", Between(numbered).(op := ">&"), "1 ");
    OperatorGivesWay(numbered, ">&", "1 ");
    assert OrdinaryChar("1"[0]);
    BareWord("1");
    var all := numbered + [Operator(">&")];
    assert Scan(Between(all), "1" + " ") == Between(all + [Word("1", false)]);
    assert all + [Word("1", false)] == before + [IoNumber("2"), Operator(">&"), Word("1", false)];
  }

  lemma ThenWord(text: string, tokens: seq<Token>, w: string)
    requires Delivers(text, tokens) && Ordinary(w)
    ensures Delivers(text + w + " ", tokens + [Word(w, false)])
  {
    BareWord(w);
    DeliversBoth(text, tokens, w + " ", [Word(w, false)]);
    assert text + (w + " ") == text + w + " ";
  }

  lemma ThenQuoted(text: string, tokens: seq<Token>, s: string)
    requires Delivers(text, tokens)
    ensures Delivers(text + Quoted(s) + " ", tokens + [Word(s, true)])
  {
    QuotedWord(s);
    DeliversBoth(text, tokens, Quoted(s) + " ", [Word(s, true)]);
    assert text + (Quoted(s) + " ") == text + Quoted(s) + " ";
  }

  lemma LexLastWord(text: string, tokens: seq<Token>, w: string)
    requires Delivers(text, tokens) && Ordinary(w)
    ensures Lex(text + w) == Some(tokens + [Word(w, false)])
  {
    assert [] + tokens == tokens;
    assert Scan(Between([]), text) == Between([] + tokens);
    ScanVia(Between([]), text, Between(tokens), w);
    ScanOrdinary(Between(tokens), w);
    assert "" + w == w;
  }

  const TMUX_CONFIG_PATH := "/tmp/.agenttier-tmux.conf"
  const TMUX_CONFIG := "set -g status off\n"
                       + "set -g default-terminal \"tmux-256color\"\n"
                       + "set -ga terminal-overrides 'xterm*:smcup@:rmcup@'\n"

  function Bare(w: string): Token {
    Word(w, false)
  }

  // Is tmux there?
  function ProbeTokens(): seq<Token> {
    [Bare("command"), Bare("-v"), Bare("tmux"), Operator(">"), Bare("/dev/null"),
     IoNumber("2"), Operator(">&"), Bare("1"), Operator("&&"), Bare("{")]
  }

  // Write the configuration.
  function ConfigTokens(): seq<Token> {
    [Bare("printf"), Word("%s", true), Word(TMUX_CONFIG, true), Operator(">"), Bare(TMUX_CONFIG_PATH), Operator(";")]
  }

  // Attach to the session, running the shell in it.
  function TmuxTokens(session: string, shell: string): seq<Token> {
    [Bare("exec"), Bare("tmux"), Bare("-u"), Bare("-2"), Bare("-f"), Bare(TMUX_CONFIG_PATH), Bare("new-session"),
     Bare("-A"), Bare("-s"), Word(session, true), Bare("--"), Word(shell, true), Bare("-l"), Operator(";")]
  }

  // Without tmux, the shell itself.
  function FallbackTokens(shell: string): seq<Token> {
    [Bare("}"), Operator("||"), Bare("exec"), Word(shell, true), Bare("-l")]
  }

  // The literal spelling of a text built word by word.
  lemma Spelled(built: string, tokens: seq<Token>, text: string)
    requires Delivers(built, tokens) && built == text
    ensures Delivers(text, tokens)
  {
  }

  lemma ProbeWords()
    ensures Delivers("command -v tmux ", [Bare("command"), Bare("-v"), Bare("tmux")])
  {
    BareWord("command");
    Spelled("command" + " ", [Bare("command")], "command ");
    ProbeArguments();
    DeliversBoth("command ", [Bare("command")], "-v tmux ", [Bare("-v"), Bare("tmux")]);
    Spelled("command " + "-v tmux ", [Bare("command"), Bare("-v"), Bare("tmux")], "command -v tmux ");
  }

  lemma ProbeArguments()
    ensures Delivers("-v tmux ", [Bare("-v"), Bare("tmux")])
  {
    BareWord("-v");
    ThenWord("-v" + " ", [Bare("-v")], "tmux");
    Spelled("-v" + " " + "tmux" + " ", [Bare("-v"), Bare("tmux")], "-v tmux ");
  }

  lemma ProbeRedirects()
    ensures Delivers(">/dev/null 2>&1 ", [Operator(">"), Bare("/dev/null"), IoNumber("2"), Operator(">&"), Bare("1")])
  {
    NullIsOrdinary();
    GreaterWord("/dev/null");
    DuplicateErrors();
    DeliversBoth(">" + "/dev/null" + " ", [Operator(">"), Bare("/dev/null")],
                 "2>&1 ", [IoNumber("2"), Operator(">&"), Bare("1")]);
    RedirectsText();
  }

  lemma NullIsOrdinary()
    ensures Ordinary("/dev/null")
  {
  }

  lemma RedirectsText()
    ensures ">" + "/dev/null" + " " + "2>&1 " == ">/dev/null 2>&1 "
    ensures [Operator(">"), Bare("/dev/null")] + [IoNumber("2"), Operator(">&"), Bare("1")]
            == [Operator(">"), Bare("/dev/null"), IoNumber("2"), Operator(">&"), Bare("1")]
  {
  }

  lemma AndOpen()
    ensures Delivers("&& { ", [Operator("&&"), Bare("{")])
  {
    BareOperator("&&");
    Spelled("&&" + " ", [Operator("&&")], "&& ");
    ThenWord("&& ", [Operator("&&")], "{");
    Spelled("&& " + "{" + " ", [Operator("&&"), Bare("{")], "&& { ");
  }

  lemma ProbeDelivers()
    ensures Delivers("command -v tmux >/dev/null 2>&1 && { ", ProbeTokens())
  {
    ProbeWords();
    ProbeRedirects();
    AndOpen();
    ThreeTexts("command -v tmux ", [Bare("command"), Bare("-v"), Bare("tmux")],
               ">/dev/null 2>&1 ", [Operator(">"), Bare("/dev/null"), IoNumber("2"), Operator(">&"), Bare("1")],
               "&& { ", [Operator("&&"), Bare("{")]);
    ProbeText();
  }

  lemma ThreeTexts(a: string, ta: seq<Token>, b: string, tb: seq<Token>, c: string, tc: seq<Token>)
    requires Delivers(a, ta) && Delivers(b, tb) && Delivers(c, tc)
    ensures Delivers(a + b + c, ta + tb + tc)
  {
    DeliversBoth(a, ta, b, tb);
    DeliversBoth(a + b, ta + tb, c, tc);
  }

  lemma ProbeText()
    ensures "command -v tmux " + ">/dev/null 2>&1 " + "&& { " == "command -v tmux >/dev/null 2>&1 && { "
    ensures [Bare("command"), Bare("-v"), Bare("tmux")]
            + [Operator(">"), Bare("/dev/null"), IoNumber("2"), Operator(">&"), Bare("1")]
            + [Operator("&&"), Bare("{")] == ProbeTokens()
  {
  }

  lemma FormatIsPlain()
    ensures Quoted("%s") == "'%s'"
  {
    assert "%s"[..1] == "%" && "%"[..0] == "";
    assert Escaped("%") == "%";
  }

  lemma PrintfFormat()
    ensures Delivers("printf '%s' ", [Bare("printf"), Word("%s", true)])
  {
    BareWord("printf");
    QuotedWord("%s");
    DeliversBoth("printf" + " ", [Bare("printf")], Quoted("%s") + " ", [Word("%s", true)]);
    FormatIsPlain();
    PrintfText();
  }

  lemma PrintfText()
    ensures "printf" + " " + ("'%s'" + " ") == "printf '%s' "
    ensures [Bare("printf")] + [Word("%s", true)] == [Bare("printf"), Word("%s", true)]
  {
  }

  lemma IntoConfig()
    ensures Delivers("> " + (TMUX_CONFIG_PATH + "; "), [Operator(">"), Bare(TMUX_CONFIG_PATH), Operator(";")])
  {
    BareOperator(">");
    Spelled(">" + " ", [Operator(">")], "> ");
    PathIsOrdinary();
    WordThenSemicolon(TMUX_CONFIG_PATH);
    DeliversBoth("> ", [Operator(">")], TMUX_CONFIG_PATH + "; ", [Bare(TMUX_CONFIG_PATH), Operator(";")]);
  }

  lemma ConfigDelivers()
    ensures Delivers("printf '%s' " + Quoted(TMUX_CONFIG) + " > " + TMUX_CONFIG_PATH + "; ", ConfigTokens())
  {
    PrintfFormat();
    IntoConfig();
    ThenQuoted("printf '%s' ", [Bare("printf"), Word("%s", true)], TMUX_CONFIG);
    var quoted := "printf '%s' " + Quoted(TMUX_CONFIG) + " ";
    var before := [Bare("printf"), Word("%s", true), Word(TMUX_CONFIG, true)];
    var into := [Operator(">"), Bare(TMUX_CONFIG_PATH), Operator(";")];
    DeliversBoth(quoted, before, "> " + (TMUX_CONFIG_PATH + "; "), into);
    Spaces("printf '%s' " + Quoted(TMUX_CONFIG), "> ", TMUX_CONFIG_PATH + "; ");
    Spelled(quoted + ("> " + (TMUX_CONFIG_PATH + "; ")), before + into,
            "printf '%s' " + Quoted(TMUX_CONFIG) + " > " + TMUX_CONFIG_PATH + "; ");
  }

  lemma Spaces(a: string, op: string, b: string)
    ensures a + " " + (op + b) == a + (" " + op) + b
  {
  }

  lemma PathIsOrdinary()
    ensures Ordinary(TMUX_CONFIG_PATH) && !Digits(TMUX_CONFIG_PATH)
  {
    assert TMUX_CONFIG_PATH[0] == '/';
  }

  lemma ExecTmux()
    ensures Delivers("exec tmux ", [Bare("exec"), Bare("tmux")])
  {
    BareWord("exec");
    ThenWord("exec" + " ", [Bare("exec")], "tmux");
    Spelled("exec" + " " + "tmux" + " ", [Bare("exec"), Bare("tmux")], "exec tmux ");
  }

  lemma DisplayOptions()
    ensures Delivers("-u -2 -f ", [Bare("-u"), Bare("-2"), Bare("-f")])
  {
    BareWord("-u");
    ThenWord("-u" + " ", [Bare("-u")], "-2");
    ThenWord("-u" + " " + "-2" + " ", [Bare("-u"), Bare("-2")], "-f");
    Spelled("-u" + " " + "-2" + " " + "-f" + " ", [Bare("-u"), Bare("-2"), Bare("-f")], "-u -2 -f ");
  }

  lemma TmuxOptions()
    ensures Delivers("exec tmux -u -2 -f ", [Bare("exec"), Bare("tmux"), Bare("-u"), Bare("-2"), Bare("-f")])
  {
    ExecTmux();
    DisplayOptions();
    var k, options := [Bare("exec"), Bare("tmux")], [Bare("-u"), Bare("-2"), Bare("-f")];
    DeliversBoth("exec tmux ", k, "-u -2 -f ", options);
    Spelled("exec tmux " + "-u -2 -f ", k + options, "exec tmux -u -2 -f ");
  }

  lemma NewSession()
    ensures Delivers("new-session -A -s ", [Bare("new-session"), Bare("-A"), Bare("-s")])
  {
    BareWord("new-session");
    var t1, k1 := "new-session" + " ", [Bare("new-session")];
    ThenWord(t1, k1, "-A");
    var t2, k2 := t1 + "-A" + " ", k1 + [Bare("-A")];
    ThenWord(t2, k2, "-s");
    Spelled(t2 + "-s" + " ", k2 + [Bare("-s")], "new-session -A -s ");
  }

  lemma OnSession(session: string)
    ensures Delivers("exec tmux -u -2 -f " + TMUX_CONFIG_PATH + " new-session -A -s " + Quoted(session) + " ",
                     TmuxTokens(session, "")[..10])
  {
    TmuxOptions();
    PathIsOrdinary();
    NewSession();
    var options := [Bare("exec"), Bare("tmux"), Bare("-u"), Bare("-2"), Bare("-f")];
    ThenWord("exec tmux -u -2 -f ", options, TMUX_CONFIG_PATH);
    var t, k := "exec tmux -u -2 -f " + TMUX_CONFIG_PATH + " ", options + [Bare(TMUX_CONFIG_PATH)];
    var on := [Bare("new-session"), Bare("-A"), Bare("-s")];
    DeliversBoth(t, k, "new-session -A -s ", on);
    Spaces("exec tmux -u -2 -f " + TMUX_CONFIG_PATH, "new-session -A -s ", "");
    Spelled(t + "new-session -A -s ", k + on, "exec tmux -u -2 -f " + TMUX_CONFIG_PATH + " new-session -A -s ");
    ThenQuoted("exec tmux -u -2 -f " + TMUX_CONFIG_PATH + " new-session -A -s ", k + on, session);
    assert k + on + [Word(session, true)] == TmuxTokens(session, "")[..10];
  }

  lemma RunsShell(shell: string)
    ensures Delivers("-- " + Quoted(shell) + " -l; ", [Bare("--"), Word(shell, true), Bare("-l"), Operator(";")])
  {
    BareWord("--");
    Spelled("--" + " ", [Bare("--")], "-- ");
    ThenQuoted("-- ", [Bare("--")], shell);
    assert "-l"[0] == '-';
    WordThenSemicolon("-l");
    Spelled("-l" + "; ", [Bare("-l"), Operator(";")], "-l; ");
    DeliversBoth("-- " + Quoted(shell) + " ", [Bare("--"), Word(shell, true)], "-l; ", [Bare("-l"), Operator(";")]);
    Spelled("-- " + Quoted(shell) + " " + "-l; ", [Bare("--"), Word(shell, true), Bare("-l"), Operator(";")],
            "-- " + Quoted(shell) + " -l; ");
  }

  lemma TmuxDelivers(session: string, shell: string)
    ensures Delivers("exec tmux -u -2 -f " + TMUX_CONFIG_PATH + " new-session -A -s " + Quoted(session)
                     + " -- " + Quoted(shell) + " -l; ",
                     TmuxTokens(session, shell))
  {
    OnSession(session);
    RunsShell(shell);
    var attach := "exec tmux -u -2 -f " + TMUX_CONFIG_PATH + " new-session -A -s " + Quoted(session);
    var k, run := TmuxTokens(session, "")[..10], [Bare("--"), Word(shell, true), Bare("-l"), Operator(";")];
    DeliversBoth(attach + " ", k, "-- " + Quoted(shell) + " -l; ", run);
    TextWithShell(attach, shell);
    assert k + run == TmuxTokens(session, shell);
    Spelled(attach + " " + ("-- " + Quoted(shell) + " -l; "), k + run, attach + " -- " + Quoted(shell) + " -l; ");
  }

  lemma TextWithShell(attach: string, shell: string)
    ensures attach + " " + ("-- " + Quoted(shell) + " -l; ") == attach + " -- " + Quoted(shell) + " -l; "
  {
    assert " " + "-- " == " -- ";
  }

  lemma FallbackDelivers(shell: string)
    ensures Delivers("} || exec " + Quoted(shell) + " ", FallbackTokens(shell)[..4])
  {
    BareWord("}");
    BareOperator("||");
    DeliversBoth("}" + " ", [Bare("}")], "||" + " ", [Operator("||")]);
    var k := [Bare("}"), Operator("||")];
    ThenWord("}" + " " + ("||" + " "), k, "exec");
    Spelled("}" + " " + ("||" + " ") + "exec" + " ", k + [Bare("exec")], "} || exec ");
    ThenQuoted("} || exec ", k + [Bare("exec")], shell);
    assert k + [Bare("exec")] + [Word(shell, true)] == FallbackTokens(shell)[..4];
  }

  function Wrapper(session: string, shell: string): string {
    var writeConfig := "printf '%s' " + Quoted(TMUX_CONFIG) + " > " + TMUX_CONFIG_PATH;
    var tmuxCmd := "exec tmux -u -2 -f " + TMUX_CONFIG_PATH + " new-session -A -s " + Quoted(session) + " -- " +
        Quoted(shell) + " -l";
    var fallbackCmd := "exec " + Quoted(shell) + " -l";
    "command -v tmux >/dev/null 2>&1 && { " + writeConfig + "; " + tmuxCmd + "; } || " + fallbackCmd
  }

  // The shell reads the wrapper as these tokens, whatever the session and the shell are called.
  lemma WrapperTokens(session: string, shell: string)
    ensures Lex(Wrapper(session, shell)) ==
              Some(ProbeTokens() + ConfigTokens() + TmuxTokens(session, shell) + FallbackTokens(shell))
  {
    var probe := "command -v tmux >/dev/null 2>&1 && { ";
    var config := "printf '%s' " + Quoted(TMUX_CONFIG) + " > " + TMUX_CONFIG_PATH + "; ";
    var tmux := "exec tmux -u -2 -f " + TMUX_CONFIG_PATH + " new-session -A -s " + Quoted(session) + " -- " +
        Quoted(shell) + " -l; ";
    var fallback := "} || exec " + Quoted(shell) + " ";
    ProbeDelivers();
    ConfigDelivers();
    TmuxDelivers(session, shell);
    FallbackDelivers(shell);
    var k1 := ProbeTokens() + ConfigTokens();
    var k2 := k1 + TmuxTokens(session, shell);
    DeliversBoth(probe, ProbeTokens(), config, ConfigTokens());
    DeliversBoth(probe + config, k1, tmux, TmuxTokens(session, shell));
    DeliversBoth(probe + config + tmux, k2, fallback, FallbackTokens(shell)[..4]);
    LexLastWord(probe + config + tmux + fallback, k2 + FallbackTokens(shell)[..4], "-l");
    WrapperInParts(session, shell);
    assert FallbackTokens(shell) == FallbackTokens(shell)[..4] + [Bare("-l")];
    assert k2 + FallbackTokens(shell)[..4] + [Bare("-l")] == k2 + FallbackTokens(shell);
  }

  lemma WrapperInParts(session: string, shell: string)
    ensures Wrapper(session, shell) ==
              "command -v tmux >/dev/null 2>&1 && { "
              + ("printf '%s' " + Quoted(TMUX_CONFIG) + " > " + TMUX_CONFIG_PATH + "; ")
              + ("exec tmux -u -2 -f " + TMUX_CONFIG_PATH + " new-session -A -s " + Quoted(session) + " -- "
                 + Quoted(shell) + " -l; ")
              + ("} || exec " + Quoted(shell) + " ") + "-l"
  {
    var attach := "exec tmux -u -2 -f " + TMUX_CONFIG_PATH + " new-session -A -s " + Quoted(session);
    Separators();
    PartsJoin("command -v tmux >/dev/null 2>&1 && { ", "printf '%s' " + Quoted(TMUX_CONFIG) + " > " + TMUX_CONFIG_PATH,
              attach + " -- " + Quoted(shell), Quoted(shell), "; ", "} || ", "exec ", " ", "-l");
  }

  lemma Separators()
    ensures "; " + "} || " == "; } || " && "} || " + "exec " == "} || exec "
    ensures " " + "-l" == " -l" && " -l" + "; " == " -l; "
  {
  }

  lemma PartsJoin(probe: string, config: string, tmux: string, shell: string,
                  semicolon: string, or: string, exec: string, blank: string, login: string)
    ensures probe + config + semicolon + (tmux + (blank + login)) + (semicolon + or)
              + (exec + shell + (blank + login)) ==
            probe + (config + semicolon) + (tmux + (blank + login + semicolon))
              + (or + exec + shell + blank) + login
  {
  }

  method BuildPTYCommand(requestedShell: string, session: string) returns (argv: seq<string>)
    ensures var shell := if requestedShell == "" then "/bin/bash" else requestedShell;
            && (session == "" ==> argv == [shell, "-l"])
            && (session != "" ==>
                  && argv == ["/bin/sh", "-c", Wrapper(session, shell)]
                  && Lex(argv[2]) == Some(ProbeTokens() + ConfigTokens() + TmuxTokens(session, shell) +
                      FallbackTokens(shell)))
  {
    var shell := requestedShell;
    if shell == "" {
      shell := "/bin/bash";
    }
    if session == "" {
      return [shell, "-l"];
    }
    var shellQuoted := PtyShellQuote(shell);
    var sessionQuoted := PtyShellQuote(session);
    var configQuoted := PtyShellQuote(TMUX_CONFIG);
    var writeConfig := "printf '%s' " + configQuoted + " > " + TMUX_CONFIG_PATH;
    var tmuxCmd := "exec tmux -u -2 -f " + TMUX_CONFIG_PATH + " new-session -A -s " + sessionQuoted + " -- " +
        shellQuoted + " -l";
    var fallbackCmd := "exec " + shellQuoted + " -l";
    var wrapper := "command -v tmux >/dev/null 2>&1 && { " + writeConfig + "; " + tmuxCmd + "; } || " + fallbackCmd;
    WrapperTokens(session, shell);
    argv := ["/bin/sh", "-c", wrapper];
  }
}
