/** Quoting of command-line arguments, and the POSIX shell lexer that undoes it. */
module ShellQuote {
  import opened Prelude

  // -- The printer (main.go) --

  /** strings.ReplaceAll(s, "'", "'\"'\"'"). */
  function EscapeQuotes(s: string): string {
    if s == "" then ""
    else (if s[0] == '\'' then "'\"'\"'" else [s[0]]) + EscapeQuotes(s[1..])
  }

  function Quote(s: string): string {
    if s == "" then "''" else "'" + EscapeQuotes(s) + "'"
  }

  /** strings.Join(parts, " "). */
  function JoinWithSpaces(parts: seq<string>): string {
    if parts == [] then ""
    else if |parts| == 1 then parts[0]
    else parts[0] + " " + JoinWithSpaces(parts[1..])
  }

  function QuoteAll(args: seq<string>): (parts: seq<string>)
    ensures |parts| == |args|
    ensures forall i :: 0 <= i < |args| ==> parts[i] == Quote(args[i])
  {
    seq(|args|, i requires 0 <= i < |args| => Quote(args[i]))
  }

  function ShellJoin(args: seq<string>): string {
    JoinWithSpaces(QuoteAll(args))
  }

  /** shellJoin: fills a slice of quoted arguments, then joins it. */
  method ShellJoinLoop(args: seq<string>) returns (line: string)
    ensures line == ShellJoin(args)
  {
    var quoted := new string[|args|];
    for i := 0 to |args|
      invariant forall j :: 0 <= j < i ==> quoted[j] == Quote(args[j])
    {
      quoted[i] := Quote(args[i]);
    }
    assert quoted[..] == QuoteAll(args);
    line := JoinWithSpaces(quoted[..]);
  }

  datatype CommandLine = MissingCommand | Line(text: string)

  /** A single argument is a raw shell command, several are quoted one by one. */
  function CommandLineOf(args: seq<string>): CommandLine {
    if |args| == 0 then MissingCommand
    else if |args| == 1 then Line(args[0])
    else Line(ShellJoin(args))
  }

  // -- The lexer (POSIX.1-2017 XCU 2.2.1 to 2.2.3 and 2.3) --

  /** How a character of a word was quoted; only Bare characters are open to later expansions. */
  datatype Quoting = Bare | Escaped | Single | Double
  datatype Quoted = Quoted(c: char, how: Quoting)
  type Word = seq<Quoted>

  datatype Mode = Unquoted | InSingle | InDouble

  /** words: finished words; current: the word being read, None between words. */
  datatype Lexer = Lexer(mode: Mode, words: seq<Word>, current: Option<Word>)

  const START := Lexer(Unquoted, [], None)

  predicate Blank(c: char) { c == ' ' || c == '\t' }

  /** Characters that end a simple word list, or start an expansion, when read unquoted. */
  predicate Special(c: char) {
    c == '|' || c == '&' || c == ';' || c == '<' || c == '>' || c == '(' || c == ')' || c == '$' || c == '`' || c == '\n'
  }

  /** In double quotes a backslash is literal unless one of these follows. */
  predicate DoubleEscapable(c: char) {
    c == '$' || c == '`' || c == '"' || c == '\\' || c == '\n'
  }

  function Started(l: Lexer): Word {
    if l.current.Some? then l.current.value else []
  }

  function Extend(l: Lexer, c: char, how: Quoting): Lexer {
    l.(current := Some(Started(l) + [Quoted(c, how)]))
  }

  function Delimit(l: Lexer): Lexer {
    if l.current.Some? then l.(words := l.words + [l.current.value], current := None) else l
  }

  /**
   * Reads the text to its end. None when it is not a plain list of words: an open quote or a trailing
   * backslash, an operator, a comment or an expansion.
   */
  function Lex(l: Lexer, text: string): Option<seq<Word>>
    decreases |text|
  {
    if text == "" then
      if l.mode == Unquoted then Some(Delimit(l).words) else None
    else
      var c, rest := text[0], text[1..];
      match l.mode
      case Unquoted =>
        if c == '\'' then Lex(l.(mode := InSingle, current := Some(Started(l))), rest)
        else if c == '"' then Lex(l.(mode := InDouble, current := Some(Started(l))), rest)
        else if c == '\\' then
          if rest == "" then None
          else if rest[0] == '\n' then Lex(l, rest[1..])
          else Lex(Extend(l, rest[0], Escaped), rest[1..])
        else if Blank(c) then Lex(Delimit(l), rest)
        else if Special(c) || (c == '#' && l.current.None?) then None
        else Lex(Extend(l, c, Bare), rest)
      case InSingle =>
        if c == '\'' then Lex(l.(mode := Unquoted), rest)
        else Lex(Extend(l, c, Single), rest)
      case InDouble =>
        if c == '"' then Lex(l.(mode := Unquoted), rest)
        else if c == '$' || c == '`' then None
        else if c == '\\' && rest != "" && DoubleEscapable(rest[0]) then
          if rest[0] == '\n' then Lex(l, rest[1..])
          else Lex(Extend(l, rest[0], Escaped), rest[1..])
        else Lex(Extend(l, c, Double), rest)
  }

  /** The field a word stands for once its quotes are removed. */
  function Text(w: Word): (s: string)
    ensures |s| == |w|
  {
    seq(|w|, i requires 0 <= i < |w| => w[i].c)
  }

  /** The word an argument is meant to be read back as: no character is left bare. */
  function WordOf(arg: string): Word {
    seq(|arg|, i requires 0 <= i < |arg| => Quoted(arg[i], if arg[i] == '\'' then Double else Single))
  }

  lemma WordOfIsQuoted(arg: string)
    ensures Text(WordOf(arg)) == arg
    ensures forall q :: q in WordOf(arg) ==> q.how != Bare
  {
  }

  function WordsOf(args: seq<string>): (words: seq<Word>)
    ensures |words| == |args|
    ensures forall i :: 0 <= i < |args| ==> words[i] == WordOf(args[i])
  {
    seq(|args|, i requires 0 <= i < |args| => WordOf(args[i]))
  }

  // -- Round trip --

  /** Inside single quotes the escaped argument, closed by a quote, is read back as the argument. */
  lemma {:induction false} LexEscaped(l: Lexer, arg: string, rest: string)
    requires l.mode == InSingle && l.current.Some?
    ensures Lex(l, EscapeQuotes(arg) + "'" + rest)
         == Lex(l.(mode := Unquoted, current := Some(l.current.value + WordOf(arg))), rest)
    decreases |arg|
  {
    var text := EscapeQuotes(arg) + "'" + rest;
    if arg == "" {
      assert text[0] == '\'' && text[1..] == rest;
      assert l.current.value + WordOf(arg) == l.current.value;
    } else {
      var c, tail := arg[0], EscapeQuotes(arg[1..]) + "'" + rest;
      var q := Quoted(c, if c == '\'' then Double else Single);
      var l' := l.(current := Some(l.current.value + [q]));
      assert WordOf(arg) == [q] + WordOf(arg[1..]);
      assert l.current.value + WordOf(arg) == l'.current.value + WordOf(arg[1..]);
      LexEscaped(l', arg[1..], rest);
      if c == '\'' {
        LexQuotedQuote(l, tail);
        assert text == "'\"'\"'" + tail;
      } else {
        assert text[0] == c && text[1..] == tail;
      }
    }
  }

  /** The five characters that stand for one single quote. */
  lemma LexQuotedQuote(l: Lexer, tail: string)
    requires l.mode == InSingle && l.current.Some?
    ensures Lex(l, "'\"'\"'" + tail) == Lex(l.(current := Some(l.current.value + [Quoted('\'', Double)])), tail)
  {
    var t0 := "'\"'\"'" + tail;
    var t1 := "\"'\"'" + tail;
    var t2 := "'\"'" + tail;
    var t3 := "\"'" + tail;
    var t4 := "'" + tail;
    assert t0[1..] == t1 && t1[1..] == t2 && t2[1..] == t3 && t3[1..] == t4 && t4[1..] == tail;
    var l1 := l.(mode := Unquoted);
    var l2 := l1.(mode := InDouble);
    var l3 := Extend(l2, '\'', Double);
    var l4 := l3.(mode := Unquoted);
    assert Lex(l, t0) == Lex(l1, t1);
    assert Lex(l1, t1) == Lex(l2, t2);
    assert Lex(l2, t2) == Lex(l3, t3);
    assert Lex(l3, t3) == Lex(l4, t4);
    assert Lex(l4, t4) == Lex(l4.(mode := InSingle), tail);
  }

  /** A quoted argument between words becomes exactly one word. */
  lemma LexQuote(l: Lexer, arg: string, rest: string)
    requires l.mode == Unquoted && l.current.None?
    ensures Lex(l, Quote(arg) + rest) == Lex(l.(current := Some(WordOf(arg))), rest)
  {
    var body := EscapeQuotes(arg) + "'" + rest;
    assert Quote(arg) + rest == "'" + body;
    assert (Quote(arg) + rest)[1..] == body;
    var l' := l.(mode := InSingle, current := Some([]));
    LexEscaped(l', arg, rest);
    assert l'.current.value + WordOf(arg) == WordOf(arg);
  }

  /** The joined line of several arguments: the first one, a blank, the line of the others. */
  lemma JoinUnfold(args: seq<string>)
    requires |args| > 1
    ensures ShellJoin(args) == Quote(args[0]) + (" " + ShellJoin(args[1..]))
  {
    assert QuoteAll(args)[1..] == QuoteAll(args[1..]);
  }

  lemma JoinSingle(arg: string)
    ensures ShellJoin([arg]) == Quote(arg) + ""
    ensures WordsOf([arg]) == [WordOf(arg)]
  {
  }

  /** The blank after a word ends it. */
  lemma LexBlank(l: Lexer, tail: string)
    requires l.mode == Unquoted
    ensures Lex(l, " " + tail) == Lex(Delimit(l), tail)
  {
    assert (" " + tail)[1..] == tail;
  }

  /** The first of several arguments becomes a word, and the lexer goes on with the others. */
  lemma LexFirst(l: Lexer, args: seq<string>, l': Lexer)
    requires l.mode == Unquoted && l.current.None? && |args| > 1
    requires l' == l.(words := l.words + [WordOf(args[0])])
    ensures Lex(l, ShellJoin(args)) == Lex(l', ShellJoin(args[1..]))
  {
    var tail := ShellJoin(args[1..]);
    var l1 := l.(current := Some(WordOf(args[0])));
    JoinUnfold(args);
    LexQuote(l, args[0], " " + tail);
    LexBlank(l1, tail);
  }

  lemma LexOnly(l: Lexer, arg: string)
    requires l.mode == Unquoted && l.current.None?
    ensures Lex(l, ShellJoin([arg])) == Some(l.words + [WordOf(arg)])
  {
    JoinSingle(arg);
    LexQuote(l, arg, "");
  }

  lemma {:induction false} LexJoin(l: Lexer, args: seq<string>)
    requires l.mode == Unquoted && l.current.None?
    ensures Lex(l, ShellJoin(args)) == Some(l.words + WordsOf(args))
    decreases |args|
  {
    if args == [] {
      assert l.words + WordsOf(args) == l.words;
    } else if |args| == 1 {
      assert args == [args[0]];
      LexOnly(l, args[0]);
      assert WordsOf(args) == [WordOf(args[0])];
    } else {
      var l' := l.(words := l.words + [WordOf(args[0])]);
      LexFirst(l, args, l');
      LexJoin(l', args[1..]);
      SplitWords(l.words, args);
    }
  }

  lemma SplitWords(words: seq<Word>, args: seq<string>)
    requires args != []
    ensures words + WordsOf(args) == words + [WordOf(args[0])] + WordsOf(args[1..])
  {
  }

  /** The shell reads back exactly the arguments, and reads none of their characters unquoted. */
  lemma ShellRoundTrip(args: seq<string>)
    ensures Lex(START, ShellJoin(args)).Some?
    ensures var words := Lex(START, ShellJoin(args)).value;
      && |words| == |args|
      && (forall i :: 0 <= i < |args| ==> Text(words[i]) == args[i])
      && (forall i, q :: 0 <= i < |args| && q in words[i] ==> q.how != Bare)
  {
    LexJoin(START, args);
    assert START.words + WordsOf(args) == WordsOf(args);
    forall i | 0 <= i < |args| ensures Text(WordOf(args[i])) == args[i] && forall q :: q in WordOf(args[i]) ==> q.how != Bare {
      WordOfIsQuoted(args[i]);
    }
  }

  /** Different argument lists give different command lines. */
  lemma ShellJoinInjective(a: seq<string>, b: seq<string>)
    requires ShellJoin(a) == ShellJoin(b)
    ensures a == b
  {
    ShellRoundTrip(a);
    ShellRoundTrip(b);
  }

  /** With two or more arguments the command runs on exactly those arguments; one argument is sent untouched. */
  lemma CommandLineKeepsArguments(args: seq<string>)
    ensures CommandLineOf(args).MissingCommand? <==> args == []
    ensures |args| == 1 ==> CommandLineOf(args).text == args[0]
    ensures |args| > 1 ==> Lex(START, CommandLineOf(args).text) == Some(WordsOf(args))
  {
    LexJoin(START, args);
    assert START.words + WordsOf(args) == WordsOf(args);
  }
}
