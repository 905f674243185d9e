/** What the tokenizer of core/cmd.go guarantees, proved about its
    specification `Tokenize`: blank lines, the first word, the flag-key error,
    flag values, quoting, and worked examples. */
module CommandLineFacts {
  import opened Wrappers
  import opened GoStrings
  import opened CommandLine

  /** Handlers only ever append to the vector, so a successful run extends the
      vector it started from. */
  lemma {:induction false} DriveExtends(line: string, i: nat, state: State, args: seq<string>)
    requires state != Error && Entry(state, line, i)
    requires Drive(line, i, state, args).Ok?
    ensures args <= Drive(line, i, state, args).value
    decreases |line| - i, Rank(state)
  {
    if i < |line| {
      var st := Handle(state, line, i, args);
      HandleProgress(state, line, i, args);
      assert args <= st.args;
      DriveExtends(line, st.next, st.state, st.args);
    }
  }

  /** A blank or white-space-only line yields the empty vector and no error. */
  lemma BlankLine(line: string)
    requires forall k :: 0 <= k < |line| ==> IsSpace(line[k])
    ensures Tokenize(line) == Ok([])
  {
    BlankIffAllSpace(line);
  }

  /** For a non-blank line, a successful vector starts with the longest leading
      run of ASCII letters and digits of the trimmed line (empty for "./x"). */
  lemma FirstWord(line: string)
    requires !IsBlank(line) && Tokenize(line).Ok?
    ensures var t := TrimSpace(line);
      |Tokenize(line).value| >= 1 && Tokenize(line).value[0] == t[..AlnumRunEnd(t, 0)]
  {
    var t := TrimSpace(line);
    var st := Handle(CmdBegin, t, 0, []);
    assert st.args == [t[..AlnumRunEnd(t, 0)]];
    HandleProgress(CmdBegin, t, 0, []);
    DriveExtends(t, st.next, st.state, st.args);
  }

  /** A run that fails does so in FLAG_KEY: at some '-' the flag run
      `line[a..b]` is ended by a character other than space and '=', and the
      error message is "invalid flag key " followed by that run. */
  lemma {:induction false} DriveError(line: string, i: nat, state: State, args: seq<string>) returns (a: nat, b: nat)
    requires state != Error && Entry(state, line, i)
    requires Drive(line, i, state, args).Err?
    ensures a < b < |line| && line[a] == '-' && b == FlagRunEnd(line, a)
    ensures line[b] != ' ' && line[b] != '='
    ensures Drive(line, i, state, args).error == FlagKeyErrorPrefix + line[a..b]
    decreases |line| - i, Rank(state)
  {
    var st := Handle(state, line, i, args);
    HandleProgress(state, line, i, args);
    if st.state == Error {
      assert state == FlagKey;
      a, b := i, FlagRunEnd(line, i);
    } else {
      a, b := DriveError(line, st.next, st.state, st.args);
    }
  }

  /** The only error ParseCommandLine reports is the flag-key error, naming the
      characters of the flag read so far (dashes included). */
  lemma ErrorCause(line: string) returns (a: nat, b: nat)
    requires Tokenize(line).Err?
    ensures var t := TrimSpace(line);
      a < b < |t| && t[a] == '-' && b == FlagRunEnd(t, a) && t[b] != ' ' && t[b] != '='
      && Tokenize(line).error == FlagKeyErrorPrefix + t[a..b]
  {
    a, b := DriveError(TrimSpace(line), 0, CmdBegin, []);
  }

  /** In SPACE, a '-' starts a flag key at the same cursor. */
  lemma SpaceToFlag(line: string, i: nat, args: seq<string>)
    requires i < |line| && line[i] == '-'
    ensures Drive(line, i, Space, args) == Drive(line, i, FlagKey, args)
  {
  }

  /** A flag key that reaches the end of the line is the last word: no value
      word follows it. */
  lemma FlagAtEnd(line: string, i: nat, args: seq<string>)
    requires i < |line| && line[i] == '-' && FlagRunEnd(line, i) == |line|
    ensures Drive(line, i, FlagKey, args) == Ok(args + [line[i..]])
  {
    HandleProgress(FlagKey, line, i, args);
    assert line[i..FlagRunEnd(line, i)] == line[i..];
  }

  /** A flag key ended by a space or '=' is followed by exactly one value word:
      one separator is skipped and the value is scanned from the next character
      even when that character is '-' (possibly giving the empty value). */
  lemma FlagThenValue(line: string, i: nat, args: seq<string>)
    requires i < |line| && line[i] == '-'
    requires FlagRunEnd(line, i) < |line| && line[FlagRunEnd(line, i)] in {' ', '='}
    ensures var e := FlagRunEnd(line, i);
      var (j, v) := ValueScan(line, e + 1, NoQuote, []);
      Drive(line, i, FlagKey, args) == Drive(line, j, Space, args + [line[i..e], v])
  {
    var e := FlagRunEnd(line, i);
    HandleProgress(FlagKey, line, i, args);
    var st := HandleFlagKey(line, i, args);
    assert st == Step(e, FlagValue, args + [line[i..e]]);
    assert Drive(line, i, FlagKey, args) == Drive(line, e, FlagValue, st.args);
    HandleProgress(FlagValue, line, e, st.args);
    var jv := ValueScan(line, e + 1, NoQuote, []);
    assert HandleFlagValue(line, e, st.args) == Step(jv.0, Space, st.args + [jv.1]);
    assert Drive(line, e, FlagValue, st.args) == Drive(line, jv.0, Space, st.args + [jv.1]);
    assert st.args + [jv.1] == args + [line[i..e], jv.1];
  }

  /** Unquoted text of a flag value runs to the next space, which is consumed,
      or to the end of the line. */
  lemma {:induction false} ValuePlain(line: string, j: nat, e: nat, w: string)
    requires j <= e <= |line|
    requires forall k :: j <= k < e ==> !IsQuote(line[k]) && line[k] != ' '
    requires e == |line| || line[e] == ' '
    ensures ValueScan(line, j, NoQuote, w) == (if e == |line| then e else e + 1, w + line[j..e])
    decreases e - j
  {
    if j < e {
      ValuePlain(line, j + 1, e, w + [line[j]]);
      assert w + [line[j]] + line[j + 1..e] == w + line[j..e];
    } else {
      assert w + line[j..e] == w;
    }
  }

  /** Unquoted text of a positional word runs to the next space, which is not
      consumed, or to the end of the line. */
  lemma {:induction false} ArgsPlain(line: string, j: nat, e: nat, w: string)
    requires j <= e <= |line|
    requires forall k :: j <= k < e ==> !IsQuote(line[k]) && line[k] != ' '
    requires e == |line| || line[e] == ' '
    ensures ArgsScan(line, j, NoQuote, w) == (e, w + line[j..e])
    decreases e - j
  {
    if j < e {
      ArgsPlain(line, j + 1, e, w + [line[j]]);
      assert w + [line[j]] + line[j + 1..e] == w + line[j..e];
    } else {
      assert w + line[j..e] == w;
    }
  }

  /** Inside an open quote, text without quotes up to a matching quote that
      is not escaped is kept, spaces included; the closing quote is
      consumed and ends the word. */
  lemma {:induction false} ArgsQuotedRest(line: string, j: nat, e: nat, open: char, w: string)
    requires IsQuote(open) && 1 <= j <= e < |line|
    requires forall k :: j <= k < e ==> !IsQuote(line[k])
    requires line[e] == open && line[e - 1] != '\\'
    ensures ArgsScan(line, j, open, w) == (e + 1, w + line[j..e])
    decreases e - j
  {
    if j < e {
      ArgsQuotedRest(line, j + 1, e, open, w + [line[j]]);
      assert w + [line[j]] + line[j + 1..e] == w + line[j..e];
    } else {
      assert w + line[j..e] == w;
    }
  }

  /** A quoted positional word: the opening quote and the character right
      after it are skipped, the text up to the matching quote is the word,
      and the matching quote is consumed. */
  lemma ArgsQuotedWord(line: string, j: nat, e: nat, w: string)
    requires j + 2 <= e < |line| && IsQuote(line[j]) && line[e] == line[j]
    requires forall k :: j + 2 <= k < e ==> !IsQuote(line[k])
    requires line[e - 1] != '\\'
    ensures ArgsScan(line, j, NoQuote, w) == (e + 1, w + line[j + 2..e])
  {
    ArgsQuotedRest(line, j + 2, e, line[j], w);
  }

  /** Inside an open quote, a quote preceded by a backslash is kept, and so
      is the backslash: text whose every quote is escaped is copied as it
      is. */
  lemma {:induction false} ArgsEscapedKept(line: string, j: nat, e: nat, open: char, w: string)
    requires IsQuote(open) && 1 <= j <= e <= |line|
    requires forall k :: j <= k < e && IsQuote(line[k]) ==> line[k - 1] == '\\'
    ensures ArgsScan(line, j, open, w) == ArgsScan(line, e, open, w + line[j..e])
    decreases e - j
  {
    if j < e {
      ArgsEscapedKept(line, j + 1, e, open, w + [line[j]]);
      assert w + [line[j]] + line[j + 1..e] == w + line[j..e];
    } else {
      assert w + line[j..e] == w;
    }
  }

  /** The characters of `s` that are not quotes. */
  function Unquoted(s: string): string
    decreases |s|
  {
    if s == [] then [] else (if IsQuote(s[0]) then [] else [s[0]]) + Unquoted(s[1..])
  }

  /** Inside an open quote, an unescaped quote of the other kind is dropped:
      text whose quotes are all such quotes adds only its other
      characters. */
  lemma {:induction false} ArgsOtherQuoteDropped(line: string, j: nat, e: nat, open: char, w: string)
    requires IsQuote(open) && 1 <= j <= e <= |line|
    requires forall k :: j <= k < e && IsQuote(line[k]) ==> line[k] != open && line[k - 1] != '\\'
    ensures ArgsScan(line, j, open, w) == ArgsScan(line, e, open, w + Unquoted(line[j..e]))
    decreases e - j
  {
    if j < e {
      var s := line[j..e];
      assert s[0] == line[j] && s[1..] == line[j + 1..e];
      if IsQuote(line[j]) {
        ArgsOtherQuoteDropped(line, j + 1, e, open, w);
        assert Unquoted(s) == Unquoted(line[j + 1..e]);
      } else {
        ArgsOtherQuoteDropped(line, j + 1, e, open, w + [line[j]]);
        assert w + [line[j]] + Unquoted(line[j + 1..e]) == w + Unquoted(s);
      }
    } else {
      assert line[j..e] == [];
      assert w + Unquoted(line[j..e]) == w;
    }
  }

  /** Inside an open quote that is never closed, a positional word keeps every
      remaining character, spaces included, and ends at the end of the line
      without error. */
  lemma {:induction false} ArgsUnterminated(line: string, j: nat, open: char, w: string)
    requires IsQuote(open) && 1 <= j <= |line|
    requires forall k :: j <= k < |line| ==> !IsQuote(line[k])
    ensures ArgsScan(line, j, open, w) == (|line|, w + line[j..])
    decreases |line| - j
  {
    if j < |line| {
      ArgsUnterminated(line, j + 1, open, w + [line[j]]);
      assert w + [line[j]] + line[j + 1..] == w + line[j..];
    } else {
      assert w + line[j..] == w;
    }
  }

  /** The same for a flag value. */
  lemma {:induction false} ValueUnterminated(line: string, j: nat, open: char, w: string)
    requires IsQuote(open) && 1 <= j <= |line|
    requires forall k :: j <= k < |line| ==> !IsQuote(line[k])
    ensures ValueScan(line, j, open, w) == (|line|, w + line[j..])
    decreases |line| - j
  {
    if j < |line| {
      ValueUnterminated(line, j + 1, open, w + [line[j]]);
      assert w + [line[j]] + line[j + 1..] == w + line[j..];
    } else {
      assert w + line[j..] == w;
    }
  }

  /** The run end is the only position with those two properties. */
  lemma {:induction false} AlnumRunIs(line: string, i: nat, e: nat)
    requires i <= e <= |line|
    requires forall k :: i <= k < e ==> IsAlnum(line[k])
    requires e == |line| || !IsAlnum(line[e])
    ensures AlnumRunEnd(line, i) == e
    decreases e - i
  {
    if i < e {
      AlnumRunIs(line, i + 1, e);
    }
  }

  /** The same for flag runs. */
  lemma {:induction false} FlagRunIs(line: string, i: nat, e: nat)
    requires i <= e <= |line|
    requires forall k :: i <= k < e ==> IsFlagChar(line[k])
    requires e == |line| || !IsFlagChar(line[e])
    ensures FlagRunEnd(line, i) == e
    decreases e - i
  {
    if i < e {
      FlagRunIs(line, i + 1, e);
    }
  }

  /** The examples below start with the word "cmd" and one space. */
  lemma CommandThenSpace(t: string)
    requires |t| > 4 && t[0] == 'c' && t[1] == 'm' && t[2] == 'd' && t[3] == ' '
    ensures Drive(t, 0, CmdBegin, []) == Drive(t, 4, Space, ["cmd"])
  {
    assert AlnumRunEnd(t, 3) == 3;
    assert AlnumRunEnd(t, 1) == AlnumRunEnd(t, 3);
    assert AlnumRunEnd(t, 0) == 3;
    assert t[0..3] == "cmd";
    assert [] + ["cmd"] == ["cmd"];
    assert Handle(CmdBegin, t, 0, []) == Step(3, Space, ["cmd"]);
    assert Drive(t, 3, Space, ["cmd"]) == Drive(t, 4, Space, ["cmd"]);
  }

  /** A flag with no value at the end of the line gives just the flag word. */
  lemma ExampleFlagAtEnd()
    ensures Tokenize("cmd -flag") == Ok(["cmd", "-flag"])
  {
    var t := "cmd -flag";
    TrimSpaceTrimmed(t);
    CommandThenSpace(t);
    SpaceToFlag(t, 4, ["cmd"]);
    assert FlagRunEnd(t, 7) == 9;
    assert FlagRunEnd(t, 4) == 9;
    FlagAtEnd(t, 4, ["cmd"]);
    assert t[4..] == "-flag";
    assert ["cmd"] + ["-flag"] == ["cmd", "-flag"];
  }

  /** A flag key ended by a character other than space and '=' fails the whole
      line; the message names the dashes and characters read so far. */
  lemma ExampleBadFlag()
    ensures Tokenize("cmd -fl@g") == Err("invalid flag key -fl")
  {
    var t := "cmd -fl@g";
    TrimSpaceTrimmed(t);
    CommandThenSpace(t);
    SpaceToFlag(t, 4, ["cmd"]);
    assert FlagRunEnd(t, 7) == 7;
    assert FlagRunEnd(t, 4) == 7;
    assert t[4..7] == "-fl";
    assert FlagKeyErrorPrefix + t[4..7] == "invalid flag key -fl";
    assert Handle(FlagKey, t, 4, ["cmd"]) == Step(0, Error, ["invalid flag key -fl"]);
  }

  /** A quoted positional word loses the character right after its opening
      quote: "cmd 'a b'" gives the word " b", and the quotes are dropped. */
  lemma ExampleQuotedWord()
    ensures Tokenize("cmd 'a b'") == Ok(["cmd", " b"])
  {
    var t := "cmd 'a b'";
    TrimSpaceTrimmed(t);
    CommandThenSpace(t);
    assert Drive(t, 4, Space, ["cmd"]) == Drive(t, 4, Args, ["cmd"]);
    assert ArgsScan(t, 8, '\'', " b") == (9, " b");
    assert " " + [t[7]] == " b";
    assert ArgsScan(t, 7, '\'', " ") == ArgsScan(t, 8, '\'', " b");
    assert [] + [t[6]] == " ";
    assert ArgsScan(t, 6, '\'', []) == ArgsScan(t, 7, '\'', " ");
    assert ArgsScan(t, 4, NoQuote, []) == ArgsScan(t, 6, '\'', []);
    assert Handle(Args, t, 4, ["cmd"]) == Step(9, Space, ["cmd", " b"]);
    assert Drive(t, 4, Args, ["cmd"]) == Drive(t, 9, Space, ["cmd", " b"]);
  }
}
