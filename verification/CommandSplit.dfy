/** Splitting the command line of an SSH request into arguments. Text is a sequence of Unicode scalar values. */
module CommandSplit {
  import opened Results
  import opened AppName

  datatype Mode = Unquoted | SingleQuoted | DoubleQuoted

  /** The arguments so far, and the word being read. */
  datatype Scan = Scan(args: seq<string>, word: string, mode: Mode, escaped: bool, started: bool)

  datatype SplitError = UnfinishedEscape | UnterminatedQuote

  const START := Scan([], "", Unquoted, false, false)

  function Flush(s: Scan): Scan {
    s.(args := s.args + [s.word], word := "", started := false)
  }

  function Take(s: Scan, c: char): Scan {
    s.(word := s.word + [c])
  }

  function Step(s: Scan, c: char): Scan {
    if s.escaped then Take(s, c).(started := true, escaped := false)
    else match s.mode
      case Unquoted =>
        if c == '\\' then s.(escaped := true, started := true)
        else if c == '\'' then s.(mode := SingleQuoted, started := true)
        else if c == '"' then s.(mode := DoubleQuoted, started := true)
        else if IsSpace(c) then (if s.started then Flush(s) else s)
        else Take(s, c).(started := true)
      case SingleQuoted => if c == '\'' then s.(mode := Unquoted) else Take(s, c)
      case DoubleQuoted =>
        if c == '"' then s.(mode := Unquoted) else if c == '\\' then s.(escaped := true) else Take(s, c)
  }

  function ScanAll(s: Scan, text: string): Scan
    decreases |text|
  {
    if text == "" then s else ScanAll(Step(s, text[0]), text[1..])
  }

  function Finish(s: Scan): Result<seq<string>, SplitError> {
    if s.escaped then Err(UnfinishedEscape)
    else if !s.mode.Unquoted? then Err(UnterminatedQuote)
    else Ok(if s.started then s.args + [s.word] else s.args)
  }

  function Split(command: string): Result<seq<string>, SplitError> {
    Finish(ScanAll(START, command))
  }

  method SplitSSHOriginalCommand(command: string) returns (r: Result<seq<string>, SplitError>)
    ensures r == Split(command)
  {
    var args: seq<string>, word, mode, escaped, wordStarted := [], "", Unquoted, false, false;
    var i := 0;
    while i < |command|
      invariant i <= |command|
      invariant ScanAll(START, command) == ScanAll(Scan(args, word, mode, escaped, wordStarted), command[i..])
    {
      var current := command[i];
      assert command[i..][0] == current && command[i..][1..] == command[i + 1..];
      if escaped {
        word, wordStarted, escaped := word + [current], true, false;
      } else {
        match mode {
          case Unquoted =>
            if current == '\\' {
              escaped, wordStarted := true, true;
            } else if current == '\'' {
              mode, wordStarted := SingleQuoted, true;
            } else if current == '"' {
              mode, wordStarted := DoubleQuoted, true;
            } else if IsSpace(current) {
              if wordStarted {
                args, word, wordStarted := args + [word], "", false;
              }
            } else {
              word, wordStarted := word + [current], true;
            }
          case SingleQuoted =>
            if current == '\'' {
              mode := Unquoted;
            } else {
              word := word + [current];
            }
          case DoubleQuoted =>
            if current == '"' {
              mode := Unquoted;
            } else if current == '\\' {
              escaped := true;
            } else {
              word := word + [current];
            }
        }
      }
      i := i + 1;
    }
    if escaped {
      return Err(UnfinishedEscape);
    }
    if mode != Unquoted {
      return Err(UnterminatedQuote);
    }
    if wordStarted {
      args := args + [word];
    }
    r := Ok(args);
  }

  // ---------- splitting is compositional ----------

  lemma {:induction false} ScanJoins(s: Scan, a: string, b: string)
    ensures ScanAll(s, a + b) == ScanAll(ScanAll(s, a), b)
    decreases |a|
  {
    if a == "" {
      assert a + b == b;
    } else {
      assert (a + b)[1..] == a[1..] + b;
      ScanJoins(Step(s, a[0]), a[1..], b);
    }
  }

  /** Arguments that are complete are not looked at again. */
  lemma {:induction false} EarlierArgsStay(s: Scan, earlier: seq<string>, text: string)
    ensures ScanAll(s.(args := earlier + s.args), text) == ScanAll(s, text).(args := earlier + ScanAll(s, text).args)
    decreases |text|
  {
    if text != "" {
      EarlierArgsStay(Step(s, text[0]), earlier, text[1..]);
      assert earlier + (s.args + [s.word]) == earlier + s.args + [s.word];
    }
  }

  /** A word that is not started is empty. */
  lemma {:induction false} UnstartedIsEmpty(s: Scan, text: string)
    requires !s.started ==> s.word == "" && s.mode.Unquoted? && !s.escaped
    ensures var e := ScanAll(s, text); !e.started ==> e.word == "" && e.mode.Unquoted? && !e.escaped
    decreases |text|
  {
    if text != "" {
      UnstartedIsEmpty(Step(s, text[0]), text[1..]);
    }
  }

  /** Two complete commands with white space between them are one command with the arguments of both. */
  lemma SplitJoins(a: string, space: char, b: string)
    requires Split(a).Ok? && Split(b).Ok? && IsSpace(space)
    ensures Split(a + [space] + b) == Ok(Split(a).value + Split(b).value)
  {
    var x := ScanAll(START, a);
    UnstartedIsEmpty(START, a);
    ScanJoins(START, a + [space], b);
    ScanJoins(START, a, [space]);
    assert [space][1..] == "";
    var y := Step(x, space);
    assert ScanAll(x, [space]) == y;
    assert y == START.(args := Split(a).value + START.args);
    EarlierArgsStay(START, Split(a).value, b);
    var z := ScanAll(START, b);
    assert Split(a).value + z.args + [z.word] == Split(a).value + (z.args + [z.word]);
  }

  // ---------- quoting ----------

  /** What stands for an argument between single quotes: a quote ends them, is escaped, and starts them again. */
  function Protect(arg: string): string {
    if arg == "" then "" else (if arg[0] == '\'' then "'\\''" else [arg[0]]) + Protect(arg[1..])
  }

  /** An argument in single quotes (section 2.2.2 of the POSIX Shell Command Language). */
  function Quote(arg: string): string {
    "'" + Protect(arg) + "'"
  }

  function QuoteAll(args: seq<string>): string {
    if args == [] then ""
    else if |args| == 1 then Quote(args[0])
    else Quote(args[0]) + [' '] + QuoteAll(args[1..])
  }

  lemma ScanEscapedQuote(s: Scan)
    requires s.mode.SingleQuoted? && !s.escaped && s.started
    ensures ScanAll(s, "'\\''") == Take(s, '\'')
  {
    var text := "'\\''";
    assert text[1..] == "\\''" && text[1..][1..] == "''" && text[1..][1..][1..] == "'"
      && text[1..][1..][1..][1..] == "";
    var s1 := Step(s, '\'');
    var s2 := Step(s1, '\\');
    var s3 := Step(s2, '\'');
    assert ScanAll(s, text) == ScanAll(s1, "\\''") == ScanAll(s2, "''") == ScanAll(s3, "'");
    assert ScanAll(s3, "'") == Step(s3, '\'');
  }

  lemma {:induction false} ScanProtected(s: Scan, arg: string)
    requires s.mode.SingleQuoted? && !s.escaped && s.started
    ensures ScanAll(s, Protect(arg)) == s.(word := s.word + arg)
    decreases |arg|
  {
    if arg == "" {
      assert s.word + arg == s.word;
    } else {
      var first := if arg[0] == '\'' then "'\\''" else [arg[0]];
      ScanJoins(s, first, Protect(arg[1..]));
      if arg[0] == '\'' {
        ScanEscapedQuote(s);
      } else {
        assert first[1..] == "";
        assert ScanAll(s, first) == Step(s, arg[0]);
      }
      ScanProtected(Take(s, arg[0]), arg[1..]);
      assert s.word + [arg[0]] + arg[1..] == s.word + arg;
    }
  }

  lemma ScanOne(s: Scan, c: char)
    ensures ScanAll(s, [c]) == Step(s, c)
  {
    assert [c][1..] == "";
    assert ScanAll(Step(s, c), "") == Step(s, c);
  }

  lemma QuotedIsOneArgument(arg: string)
    ensures Split(Quote(arg)) == Ok([arg])
  {
    var open := START.(mode := SingleQuoted, started := true);
    var quote := ['\''];
    assert Quote(arg) == quote + Protect(arg) + quote;
    ScanJoins(START, quote + Protect(arg), quote);
    ScanJoins(START, quote, Protect(arg));
    ScanOne(START, '\'');
    ScanProtected(open, arg);
    var inside := open.(word := arg);
    assert open.word + arg == arg;
    ScanOne(inside, '\'');
    assert START.args + [arg] == [arg];
  }

  /** For every argument list, quoting each argument and joining them with spaces splits into exactly that list. */
  lemma {:induction false} QuotingRoundTrips(args: seq<string>)
    ensures Split(QuoteAll(args)) == Ok(args)
    decreases |args|
  {
    if args != [] {
      QuotedIsOneArgument(args[0]);
      if |args| == 1 {
        assert [args[0]] == args;
      } else {
        QuotingRoundTrips(args[1..]);
        SplitJoins(Quote(args[0]), ' ', QuoteAll(args[1..]));
        assert [args[0]] + args[1..] == args;
      }
    }
  }
}
