/**
 `sh_single_quote` (src-tauri/src/git_credential.rs) against the shell that reads its output:
 sections 2.2.1 (escape character), 2.2.2 (single-quotes) and 2.3 (token recognition) of the
 POSIX.1-2017 Shell Command Language.
 */
module ShellQuote {
  import opened Sequences
  import opened Options

  // ---- the shell

  datatype Mode = Plain | Quoted | Escaped | Rejected

  /** Words finished, the word being read if one has begun, and the quoting in force. */
  datatype Shell = Shell(words: seq<string>, word: Option<string>, mode: Mode)

  const READY := Shell([], None, Plain)

  /**
   Unquoted characters that mean more than themselves: operators and the line break, expansions,
   double-quotes, comments, patterns. Input in which one occurs is not a plain list of words.
   */
  predicate Special(c: char) {
    || c == '|' || c == '&' || c == ';' || c == '<' || c == '>' || c == '(' || c == ')'
    || c == '\n' || c == '$' || c == '`' || c == '\"' || c == '#' || c == '*' || c == '?'
    || c == '[' || c == '~' || c == '=' || c == '%' || c == '{' || c == '}' || c == '!'
  }

  function Grow(sh: Shell, c: char): Shell {
    sh.(word := Some((if sh.word.Some? then sh.word.value else "") + [c]))
  }

  function EndWord(sh: Shell): Shell {
    if sh.word.Some? then Shell(sh.words + [sh.word.value], None, sh.mode) else sh
  }

  function Step(sh: Shell, c: char): Shell {
    match sh.mode
    case Rejected => sh
    case Quoted => if c == '\'' then sh.(mode := Plain) else Grow(sh, c)
    case Escaped =>
      // A line break after the escape character is a continuation: both are removed.
      if c == '\n' then sh.(mode := Plain) else Grow(sh, c).(mode := Plain)
    case Plain =>
      if c == '\'' then sh.(word := Some(if sh.word.Some? then sh.word.value else ""), mode := Quoted)
      else if c == '\\' then sh.(mode := Escaped)
      else if c == ' ' || c == '\t' then EndWord(sh)
      else if Special(c) then sh.(mode := Rejected)
      else Grow(sh, c)
  }

  function Scan(sh: Shell, input: string): Shell {
    if input == "" then sh else Step(Scan(sh, input[..|input| - 1]), input[|input| - 1])
  }

  /** The words the input is read as, if it is nothing but words. */
  function ParseWords(input: string): Option<seq<string>> {
    var sh := Scan(READY, input);
    if sh.mode == Plain then Some(EndWord(sh).words) else None
  }

  // ---- the printer

  function QuoteChar(c: char): string {
    if c == '\'' then "'\\''" else [c]
  }

  function QuoteBody(s: string): string {
    if s == "" then "" else QuoteBody(s[..|s| - 1]) + QuoteChar(s[|s| - 1])
  }

  method ShSingleQuote(s: string) returns (out: string)
    ensures out == "'" + QuoteBody(s) + "'"
    ensures ParseWords(out) == Some([s])
  {
    out := "'";
    for i := 0 to |s|
      invariant out == "'" + QuoteBody(s[..i])
    {
      assert s[..i + 1][..i] == s[..i];
      if s[i] == '\'' { out := out + "'\\''"; } else { out := out + [s[i]]; }
    }
    assert s[..|s|] == s;
    out := out + "'";
    QuotedArgumentsRoundTrip([s]);
    assert CommandLine([s]) == Quote(s);
  }

  function Quote(s: string): string {
    "'" + QuoteBody(s) + "'"
  }

  /** Quoted arguments separated by blanks. */
  function CommandLine(args: seq<string>): string {
    if args == [] then ""
    else if |args| == 1 then Quote(args[0])
    else CommandLine(args[..|args| - 1]) + " " + Quote(args[|args| - 1])
  }

  // ---- the round trip

  lemma {:induction false} ScanAppend(sh: Shell, a: string, b: string)
    ensures Scan(sh, a + b) == Scan(Scan(sh, a), b)
    decreases |b|
  {
    if b == "" {
      assert a + b == a;
    } else {
      assert (a + b)[..|a + b| - 1] == a + b[..|b| - 1];
      ScanAppend(sh, a, b[..|b| - 1]);
    }
  }

  lemma ScanOne(sh: Shell, c: char)
    ensures Scan(sh, [c]) == Step(sh, c)
  {
    assert [c][..0] == "";
  }

  /** Inside quotes one character's encoding adds that character. */
  lemma ScanQuoteChar(sh: Shell, c: char)
    requires sh.mode == Quoted && sh.word.Some?
    ensures Scan(sh, QuoteChar(c)) == sh.(word := Some(sh.word.value + [c]))
  {
    if c == '\'' {
      var enc := "'\\''";
      assert enc == ((['\''] + ['\\']) + ['\'']) + ['\''];
      ScanAppend(sh, (['\''] + ['\\']) + ['\''], ['\'']);
      ScanAppend(sh, ['\''] + ['\\'], ['\'']);
      ScanAppend(sh, ['\''], ['\\']);
      ScanOne(sh, '\'');
      ScanOne(sh.(mode := Plain), '\\');
      ScanOne(sh.(mode := Escaped), '\'');
      ScanOne(Grow(sh, '\'').(mode := Plain), '\'');
    } else {
      ScanOne(sh, c);
    }
  }

  lemma {:induction false} ScanQuoteBody(sh: Shell, s: string)
    requires sh.mode == Quoted && sh.word.Some?
    ensures Scan(sh, QuoteBody(s)) == sh.(word := Some(sh.word.value + s))
  {
    if s == "" {
      ScanNothing(sh);
    } else {
      var n := |s| - 1;
      ScanQuoteBody(sh, s[..n]);
      LastCharacter(s);
      ScanQuoteSnoc(sh, s[..n], QuoteBody(s[..n]), s[n]);
    }
  }

  lemma LastCharacter(s: string)
    requires s != ""
    ensures s[..|s| - 1] + [s[|s| - 1]] == s
  {
  }

  lemma ScanNothing(sh: Shell)
    requires sh.word.Some?
    ensures Scan(sh, QuoteBody("")) == sh.(word := Some(sh.word.value + ""))
  {
    assert sh.word.value + "" == sh.word.value;
  }

  lemma ScanQuoteSnoc(sh: Shell, s: string, quoted: string, c: char)
    requires sh.mode == Quoted && sh.word.Some?
    requires Scan(sh, quoted) == sh.(word := Some(sh.word.value + s))
    ensures Scan(sh, quoted + QuoteChar(c)) == sh.(word := Some(sh.word.value + (s + [c])))
  {
    var mid := sh.(word := Some(sh.word.value + s));
    var enc := QuoteChar(c);
    ScanQuoteChar(mid, c);
    ScanAppend(sh, quoted, enc);
    Associates(sh.word.value, s, [c]);
  }

  /** A quoted string adds exactly itself to the word being read, whatever characters it holds. */
  lemma ScanQuote(sh: Shell, s: string)
    requires sh.mode == Plain
    ensures Scan(sh, Quote(s)) == sh.(word := Some((if sh.word.Some? then sh.word.value else "") + s))
  {
    var begun := if sh.word.Some? then sh.word.value else "";
    var open := sh.(word := Some(begun), mode := Quoted);
    ScanAppend(sh, "'" + QuoteBody(s), "'");
    ScanAppend(sh, "'", QuoteBody(s));
    ScanOne(sh, '\'');
    ScanQuoteBody(open, s);
    ScanOne(open.(word := Some(begun + s)), '\'');
  }

  lemma {:induction false} ScanCommandLine(args: seq<string>)
    requires args != []
    ensures Scan(READY, CommandLine(args)) == Shell(args[..|args| - 1], Some(args[|args| - 1]), Plain)
  {
    var n := |args| - 1;
    if n == 0 {
      ScanQuote(READY, args[0]);
      assert "" + args[0] == args[0];
    } else {
      ScanCommandLine(args[..n]);
      ScanNextWord(args[..n], CommandLine(args[..n]), args[n]);
    }
  }

  lemma ScanNextWord(before: seq<string>, line: string, arg: string)
    requires before != [] && Scan(READY, line) == Shell(before[..|before| - 1], Some(before[|before| - 1]), Plain)
    ensures Scan(READY, line + " " + Quote(arg)) == Shell(before, Some(arg), Plain)
  {
    var sh := Shell(before[..|before| - 1], Some(before[|before| - 1]), Plain);
    ScanAppend(READY, line + " ", Quote(arg));
    ScanAppend(READY, line, " ");
    ScanOne(sh, ' ');
    assert before[..|before| - 1] + [before[|before| - 1]] == before;
    ScanQuote(Shell(before, None, Plain), arg);
    assert "" + arg == arg;
  }

  /** Any strings, quoted and separated by blanks, are read back as exactly those words, in order. */
  lemma QuotedArgumentsRoundTrip(args: seq<string>)
    ensures ParseWords(CommandLine(args)) == Some(args)
  {
    if args != [] {
      ScanCommandLine(args);
      assert args[..|args| - 1] + [args[|args| - 1]] == args;
    }
  }

  /** Two different strings are never quoted alike. */
  lemma QuoteIsInjective(s: string, t: string)
    ensures Quote(s) == Quote(t) ==> s == t
  {
    QuotedArgumentsRoundTrip([s]);
    QuotedArgumentsRoundTrip([t]);
    assert CommandLine([s]) == Quote(s) && CommandLine([t]) == Quote(t);
    assert Quote(s) == Quote(t) ==> [s] == [t];
    assert [s] == [t] ==> [s][0] == [t][0];
  }

  /**
   Characters that are never plain outside quotes, by their codes: those section 2.2 of the standard lists,
   and the reserved words' exclamation mark and braces.
   */
  const NEVER_PLAIN: set<int> := {10, 33, 34, 35, 36, 37, 38, 40, 41, 42, 59, 60, 61, 62, 63, 91, 96, 123, 124, 125, 126}

  /** The quoting and separating characters the scan looks for before it asks what is special. */
  predicate Structural(c: char) {
    c == '\'' || c == '\\' || c == ' ' || c == '\t'
  }

  lemma NeverPlainIsSpecial(c: char)
    requires c as int in NEVER_PLAIN
    ensures Special(c) && !Structural(c)
  {
  }

  lemma SpecialIsRejected(sh: Shell, c: char)
    requires Special(c) && !Structural(c) && sh.mode == Plain
    ensures Scan(sh, [c]).mode == Rejected
  {
    ScanOne(sh, c);
  }

  /** What the model calls a word is cautious: outside quotes none of them is taken for itself. */
  lemma UnquotedSpecialsAreNoWords(before: string, c: char, after: string)
    requires c as int in NEVER_PLAIN && Scan(READY, before).mode == Plain
    ensures ParseWords(before + [c] + after) == None
  {
    NeverPlainIsSpecial(c);
    ScanAppend(READY, before, [c]);
    SpecialIsRejected(Scan(READY, before), c);
    ScanAppend(READY, before + [c], after);
    RejectedStays(Scan(READY, before + [c]), after);
  }

  lemma {:induction false} RejectedStays(sh: Shell, input: string)
    requires sh.mode == Rejected
    ensures Scan(sh, input).mode == Rejected
  {
    if input != "" { RejectedStays(sh, input[..|input| - 1]); }
  }
}
