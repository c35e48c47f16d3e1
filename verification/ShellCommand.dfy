/**
 * The rendering of an argument vector as one POSIX shell command
 * (packages/cli/src/presentation/shell-command.ts).
 *
 * The reader it is meant for is a shell.  `Tokenize` follows section 2.2 (quoting) and
 * section 2.3 (token recognition) of the POSIX.1-2017 Shell Command Language for a command
 * line made of words: blanks separate words, a backslash or quotes keep characters literal,
 * and quote removal leaves the characters themselves.  An unquoted character with any other
 * meaning to the shell - an operator, an expansion, a pattern, a comment, a line end - makes
 * it give up.
 */
module ShellCommand {
  import opened Options

  // ---------------------------------------------------------------------------
  // The renderer
  // ---------------------------------------------------------------------------

  predicate BareChar(c: char) {
    || 'A' <= c <= 'Z' || 'a' <= c <= 'z' || '0' <= c <= '9'
    || c in "_@%+=:,./-"
  }

  /** The regular expression of bare arguments: one or more of these characters. */
  predicate Bare(s: string) {
    s != [] && AllBare(s)
  }

  predicate AllBare(s: string) {
    forall i | 0 <= i < |s| :: BareChar(s[i])
  }

  /** `replaceAll` of every single quote by `'\''`. */
  function Escaped(s: string): string {
    if s == [] then ""
    else (if s[0] == '\'' then "'\\''" else [s[0]]) + Escaped(s[1..])
  }

  function RenderArgument(s: string): string {
    if Bare(s) then s else "'" + Escaped(s) + "'"
  }

  /** `renderShellCommand` */
  function Render(argv: seq<string>): string {
    if argv == [] then ""
    else if |argv| == 1 then RenderArgument(argv[0])
    else RenderArgument(argv[0]) + " " + Render(argv[1..])
  }

  // ---------------------------------------------------------------------------
  // The shell
  // ---------------------------------------------------------------------------

  datatype Mode = Unquoted | Backslash | SingleQuoted | DoubleQuoted | DoubleBackslash

  /** A word after quote removal; `plain` counts the characters before its first quoting, if there is any. */
  datatype Word = Word(text: string, plain: nat, quoted: bool)

  /** The word being read, if one has been started, and the words already finished. */
  datatype Lexer = Lexer(mode: Mode, word: Option<Word>, words: seq<Word>)

  const START := Lexer(Unquoted, None, [])

  predicate Blank(c: char) {
    c == ' ' || c == '\t'
  }

  /** Characters that are special to the shell when they are not quoted (section 2.2), and line ends. */
  predicate Special(c: char) {
    c in "|&;<>()$`\\\"'*?[#~" || c == '\n'
  }

  function Current(l: Lexer): Word {
    if l.word.Some? then l.word.value else Word("", 0, false)
  }

  function Put(l: Lexer, c: char): Lexer {
    var w := Current(l);
    l.(word := Some(Word(w.text + [c], if w.quoted then w.plain else w.plain + 1, w.quoted)))
  }

  function Quote(l: Lexer, mode: Mode): Lexer {
    l.(mode := mode, word := Some(Current(l).(quoted := true)))
  }

  function Finish(l: Lexer): Lexer {
    if l.word.Some? then l.(word := None, words := l.words + [l.word.value]) else l
  }

  /** One character. */
  function Feed(l: Lexer, c: char): Option<Lexer> {
    match l.mode
    case Unquoted =>
      if c == '\\' then Some(Quote(l, Backslash))
      else if c == '\'' then Some(Quote(l, SingleQuoted))
      else if c == '"' then Some(Quote(l, DoubleQuoted))
      else if Blank(c) then Some(Finish(l))
      else if Special(c) then None
      else Some(Put(l, c))
    case Backslash => if c == '\n' then None else Some(Put(l, c).(mode := Unquoted))
    case SingleQuoted => if c == '\'' then Some(l.(mode := Unquoted)) else Some(Put(l, c))
    case DoubleQuoted =>
      if c == '"' then Some(l.(mode := Unquoted))
      else if c == '\\' then Some(l.(mode := DoubleBackslash))
      else if c == '$' || c == '`' then None
      else Some(Put(l, c))
    case DoubleBackslash =>
      if c == '\n' then None
      else if c in "$`\"\\" then Some(Put(l, c).(mode := DoubleQuoted))
      else Some(Put(Put(l, '\\'), c).(mode := DoubleQuoted))
  }

  function Scan(l: Lexer, input: string): Option<Lexer>
    decreases |input|
  {
    if input == [] then Some(l)
    else
      var next := Feed(l, input[0]);
      if next.None? then None else Scan(next.value, input[1..])
  }

  /** The words of a command line after quote removal; none if it is not a plain list of words. */
  function Tokenize(input: string): Option<seq<Word>> {
    var end := Scan(START, input);
    if end.None? || !end.value.mode.Unquoted? then None else Some(Finish(end.value).words)
  }

  function Texts(words: seq<Word>): (texts: seq<string>)
    ensures |texts| == |words| && forall i | 0 <= i < |words| :: texts[i] == words[i].text
  {
    seq(|words|, i requires 0 <= i < |words| => words[i].text)
  }

  predicate Name(s: string) {
    && s != [] && !('0' <= s[0] <= '9')
    && forall i | 0 <= i < |s| ::
         s[i] == '_' || 'A' <= s[i] <= 'Z' || 'a' <= s[i] <= 'z' || '0' <= s[i] <= '9'
  }

  /** A name and an equals sign at the beginning (section 2.10.2, rule 7). */
  predicate Assigns(s: string) {
    exists i | 0 <= i < |s| :: s[i] == '=' && Name(s[..i])
  }

  /** Section 2.4. */
  predicate Reserved(s: string) {
    s in {"!", "{", "}", "case", "do", "done", "elif", "else", "esac", "fi", "for", "if", "in", "then", "until", "while"}
  }

  /** Whether the shell reads a first word as something else than the name of a command. */
  predicate NotACommandName(w: Word) {
    Assigns(w.text[..if w.plain <= |w.text| then w.plain else |w.text|]) || (!w.quoted && Reserved(w.text))
  }

  /** The command and arguments the shell runs for a line that is one simple command without assignments. */
  function SimpleCommand(input: string): Option<seq<string>> {
    var words := Tokenize(input);
    if words.None? || (words.value != [] && NotACommandName(words.value[0])) then None else Some(Texts(words.value))
  }

  // ---------------------------------------------------------------------------
  // Round trip
  // ---------------------------------------------------------------------------

  lemma {:induction false} ScanAppend(l: Lexer, x: string, y: string)
    requires Scan(l, x).Some?
    ensures Scan(l, x + y) == Scan(Scan(l, x).value, y)
    decreases |x|
  {
    if x == [] {
      assert x + y == y;
    } else {
      assert (x + y)[1..] == x[1..] + y;
      ScanAppend(Feed(l, x[0]).value, x[1..], y);
    }
  }

  /** The bare form only uses characters the shell takes literally. */
  lemma FeedBare(l: Lexer, c: char)
    requires l.mode.Unquoted? && BareChar(c)
    ensures Feed(l, c) == Some(Put(l, c))
  {
  }

  function Longer(l: Lexer, s: string): Lexer
    requires l.word.Some?
  {
    l.(word := Some(Word(l.word.value.text + s, l.word.value.plain + |s|, l.word.value.quoted)))
  }

  lemma LongerTwice(l: Lexer, s: string)
    requires l.word.Some? && !l.word.value.quoted && s != []
    ensures Longer(Put(l, s[0]), s[1..]) == Longer(l, s)
  {
    assert l.word.value.text + [s[0]] + s[1..] == l.word.value.text + s;
  }

  lemma {:induction false} ScanBare(l: Lexer, s: string)
    requires l.mode.Unquoted? && AllBare(s)
    requires l.word.Some? && !l.word.value.quoted
    ensures Scan(l, s) == Some(Longer(l, s))
    decreases |s|
  {
    if s == [] {
      assert l.word.value.text + s == l.word.value.text;
    } else {
      FeedBare(l, s[0]);
      ScanBare(Put(l, s[0]), s[1..]);
      LongerTwice(l, s);
    }
  }

  lemma ScanQuoteEscape(l: Lexer)
    requires l.mode.SingleQuoted? && l.word.Some? && l.word.value.quoted
    ensures Scan(l, "'\\''") == Some(Put(l, '\''))
  {
    var closed := l.(mode := Unquoted);
    var escape := closed.(mode := Backslash);
    var put := Put(escape, '\'').(mode := Unquoted);
    assert "'\\''"[1..] == "\\''" && "\\''"[1..] == "''" && "''"[1..] == "'" && "'"[1..] == "";
    assert Scan(put, "'") == Some(put.(mode := SingleQuoted));
    assert Scan(escape, "''") == Scan(put, "'");
    assert Scan(closed, "\\''") == Scan(escape, "''");
  }

  lemma {:induction false} ScanEscaped(l: Lexer, s: string)
    requires l.mode.SingleQuoted? && l.word.Some? && l.word.value.quoted
    ensures Scan(l, Escaped(s)) == Some(l.(word := Some(l.word.value.(text := l.word.value.text + s))))
    decreases |s|
  {
    if s == [] {
      assert l.word.value.text + s == l.word.value.text;
    } else {
      var first := if s[0] == '\'' then "'\\''" else [s[0]];
      var after := Put(l, s[0]);
      if s[0] == '\'' {
        ScanQuoteEscape(l);
      } else {
        assert first[1..] == [];
        assert Scan(after, []) == Some(after);
      }
      ScanAppend(l, first, Escaped(s[1..]));
      ScanEscaped(after, s[1..]);
      assert l.word.value.text + [s[0]] + s[1..] == l.word.value.text + s;
    }
  }

  /** The word a rendered argument stands for: all plain, or quoted from its first character. */
  function WordOf(s: string): Word {
    if Bare(s) then Word(s, |s|, false) else Word(s, 0, true)
  }

  function WordsOf(argv: seq<string>): seq<Word> {
    if argv == [] then [] else [WordOf(argv[0])] + WordsOf(argv[1..])
  }

  lemma {:induction false} WordsOfTexts(argv: seq<string>)
    ensures Texts(WordsOf(argv)) == argv
    decreases |argv|
  {
    if argv != [] {
      WordsOfTexts(argv[1..]);
      assert forall i | 0 < i < |argv| :: WordsOf(argv)[i].text == Texts(WordsOf(argv[1..]))[i - 1];
    }
  }

  lemma {:induction false} ScanArgument(words: seq<Word>, s: string)
    ensures Scan(Lexer(Unquoted, None, words), RenderArgument(s)) == Some(Lexer(Unquoted, Some(WordOf(s)), words))
  {
    var l := Lexer(Unquoted, None, words);
    if Bare(s) {
      ScanBareWord(l, s);
    } else {
      ScanQuotedWord(l, s);
    }
  }

  lemma ScanBareWord(l: Lexer, s: string)
    requires l.mode.Unquoted? && l.word.None? && Bare(s)
    ensures Scan(l, s) == Some(l.(word := Some(Word(s, |s|, false))))
  {
    FeedBare(l, s[0]);
    ScanBare(Put(l, s[0]), s[1..]);
    assert "" + [s[0]] + s[1..] == s;
  }

  lemma ScanQuotedWord(l: Lexer, s: string)
    requires l.mode.Unquoted? && l.word.None?
    ensures Scan(l, "'" + Escaped(s) + "'") == Some(l.(word := Some(Word(s, 0, true))))
  {
    var inside := Lexer(SingleQuoted, Some(Word("", 0, true)), l.words);
    ScanEscaped(inside, s);
    assert "" + s == s;
    ScanAppend(inside, Escaped(s), "'");
    var rest := Escaped(s) + "'";
    assert "'" + Escaped(s) + "'" == "'" + rest;
    assert ("'" + rest)[1..] == rest;
  }

  /** A rendered argument, a blank and the rest of the line. */
  lemma {:induction false} ScanNext(words: seq<Word>, s: string, rest: string)
    ensures Scan(Lexer(Unquoted, None, words), RenderArgument(s) + (" " + rest))
         == Scan(Lexer(Unquoted, None, words + [WordOf(s)]), rest)
  {
    var l := Lexer(Unquoted, None, words);
    ScanArgument(words, s);
    ScanAppend(l, RenderArgument(s), " " + rest);
    assert (" " + rest)[1..] == rest;
  }

  /** Reading `input` after some finished words ends outside quotes, with these words. */
  predicate Reads(words: seq<Word>, input: string, all: seq<Word>) {
    var end := Scan(Lexer(Unquoted, None, words), input);
    end.Some? && end.value.mode.Unquoted? && Finish(end.value).words == all
  }

  lemma ReadsOne(words: seq<Word>, s: string)
    ensures Reads(words, RenderArgument(s), words + [WordOf(s)])
  {
    ScanArgument(words, s);
  }

  lemma ReadsNext(words: seq<Word>, s: string, rest: string, all: seq<Word>)
    requires Reads(words + [WordOf(s)], rest, all)
    ensures Reads(words, RenderArgument(s) + " " + rest, all)
  {
    ScanNext(words, s, rest);
    assert RenderArgument(s) + " " + rest == RenderArgument(s) + (" " + rest);
  }

  lemma WordsOfNext(words: seq<Word>, argv: seq<string>)
    requires argv != []
    ensures words + WordsOf(argv) == words + [WordOf(argv[0])] + WordsOf(argv[1..])
  {
  }

  lemma {:induction false} ReadsCommand(words: seq<Word>, argv: seq<string>)
    requires argv != []
    ensures Reads(words, Render(argv), words + WordsOf(argv))
    decreases |argv|
  {
    WordsOfNext(words, argv);
    if |argv| == 1 {
      ReadsOne(words, argv[0]);
      assert WordsOf(argv[1..]) == [];
    } else {
      var longer := words + [WordOf(argv[0])];
      ReadsCommand(longer, argv[1..]);
      ReadsNext(words, argv[0], Render(argv[1..]), longer + WordsOf(argv[1..]));
    }
  }

  /** A shell splits a rendered command into exactly the arguments it was made from. */
  lemma RoundTrip(argv: seq<string>)
    ensures Tokenize(Render(argv)) == Some(WordsOf(argv))
    ensures Texts(WordsOf(argv)) == argv
  {
    WordsOfTexts(argv);
    if argv != [] {
      ReadsCommand([], argv);
      assert [] + WordsOf(argv) == WordsOf(argv);
    }
  }

  /** So two different argument vectors are never rendered alike. */
  lemma RenderInjective(x: seq<string>, y: seq<string>)
    requires Render(x) == Render(y)
    ensures x == y
  {
    RoundTrip(x);
    RoundTrip(y);
  }

  /**
   * It also runs them as that command, unless the first argument was left bare although it reads
   * as an assignment or is a reserved word; the renderer does not treat the first argument specially.
   */
  lemma RunsAsCommand(argv: seq<string>)
    ensures SimpleCommand(Render(argv)) == Some(argv)
       <==> argv == [] || !Bare(argv[0]) || !(Assigns(argv[0]) || Reserved(argv[0]))
  {
    RoundTrip(argv);
    if argv != [] {
      assert WordsOf(argv)[0] == WordOf(argv[0]);
      assert argv[0][..|argv[0]|] == argv[0];
    }
  }

  /** The vector `A=1` is rendered as it stands, which a shell takes for an assignment. */
  lemma AssignmentIsNoCommand()
    ensures Render(["A=1"]) == "A=1" && SimpleCommand("A=1") == None
  {
    assert "A=1"[1] == '=' && "A=1"[..1] == "A" && Name("A");
    assert Bare("A=1") && Assigns("A=1");
    RoundTrip(["A=1"]);
    RunsAsCommand(["A=1"]);
  }
}
