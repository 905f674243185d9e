/** The command-line tokenizer of core/cmd.go: a finite-state machine that
    turns one rendered command line into the argument vector handed to a
    process. Each state has a handler that reads from a cursor, may append a
    word to the vector, and names the next cursor and state; the driver
    trims the line and calls handlers until the cursor reaches the end or
    the state is ERROR.

    The handlers are given twice: as functions (`HandleCmdBegin` ...), which
    are the specification, and as methods with the source's scanning loops
    (`ScanCommandWord` ...), each proved equal to its function. `Tokenize` is
    the specification of the driver `ParseCommandLine`. A character of a
    string stands for one byte of the Go string. */
module CommandLine {
  import opened Wrappers
  import opened GoStrings

  /** The parser states, PARSER_CMD_BEGIN ... PARSER_ERROR. */
  datatype State = CmdBegin | Space | FlagKey | FlagValue | Args | Error

  /** What a handler returns: the next cursor, the next state and the argument
      vector after the handler's append (or the one-element error buffer). */
  datatype Step = Step(next: nat, state: State, args: seq<string>)

  /** rune(0): no quote is open. */
  const NoQuote: char := '\0'

  const FlagKeyErrorPrefix: string := "invalid flag key "

  predicate IsAlnum(c: char) {
    ('a' <= c <= 'z') || ('A' <= c <= 'Z') || ('0' <= c <= '9')
  }

  predicate IsFlagChar(c: char) {
    IsAlnum(c) || c == '-'
  }

  predicate IsQuote(c: char) {
    c == '\'' || c == '\"'
  }

  /** The end of the longest run of letters and digits that starts at `i`. */
  function AlnumRunEnd(line: string, i: nat): (j: nat)
    requires i <= |line|
    ensures i <= j <= |line|
    decreases |line| - i
  {
    if i < |line| && IsAlnum(line[i]) then AlnumRunEnd(line, i + 1) else i
  }

  /** Every character of the run is a letter or a digit, and the character
      after it, if any, is not. */
  lemma {:induction false} AlnumRunEndSpec(line: string, i: nat)
    requires i <= |line|
    ensures var j := AlnumRunEnd(line, i);
      (forall k :: i <= k < j ==> IsAlnum(line[k])) && (j < |line| ==> !IsAlnum(line[j]))
    decreases |line| - i
  {
    if i < |line| && IsAlnum(line[i]) {
      AlnumRunEndSpec(line, i + 1);
    }
  }

  /** The end of the longest run of letters, digits and '-' that starts at `i`. */
  function FlagRunEnd(line: string, i: nat): (j: nat)
    requires i <= |line|
    ensures i <= j <= |line|
    decreases |line| - i
  {
    if i < |line| && IsFlagChar(line[i]) then FlagRunEnd(line, i + 1) else i
  }

  /** Every character of the run is a letter, a digit or '-', and the
      character after it, if any, is not. */
  lemma {:induction false} FlagRunEndSpec(line: string, i: nat)
    requires i <= |line|
    ensures var j := FlagRunEnd(line, i);
      (forall k :: i <= k < j ==> IsFlagChar(line[k])) && (j < |line| ==> !IsFlagChar(line[j]))
    decreases |line| - i
  {
    if i < |line| && IsFlagChar(line[i]) {
      FlagRunEndSpec(line, i + 1);
    }
  }

  /** The rest of a positional word (PARSER_ARGS) from cursor `j`, with quote
      `open` and the text `word` read so far: the cursor where the word ends and
      the word. An opening quote also skips the character after it; a quote
      preceded by a backslash is kept; an unescaped quote of the other kind is
      dropped; the matching quote ends the word and is consumed; an unquoted
      space ends the word and is not consumed. The cursor may pass |line|. */
  function ArgsScan(line: string, j: nat, open: char, word: string): (r: (nat, string))
    requires open == NoQuote || (IsQuote(open) && 1 <= j)
    ensures r.0 >= j
    decreases |line| - j
  {
    if j >= |line| then (j, word)
    else if IsQuote(line[j]) then
      if open == NoQuote then ArgsScan(line, j + 2, line[j], word)
      else if line[j - 1] == '\\' then ArgsScan(line, j + 1, open, word + [line[j]])
      else if open == line[j] then (j + 1, word)
      else ArgsScan(line, j + 1, open, word)
    else if line[j] == ' ' && open == NoQuote then (j, word)
    else ArgsScan(line, j + 1, open, word + [line[j]])
  }

  /** The rest of a flag value (PARSER_FLAG_VALUE) from cursor `j`. An opening
      quote is dropped; the matching quote not preceded by a backslash ends the
      value and is consumed; an unquoted space ends the value and is consumed;
      every other character, including a quote of the other kind, is kept. */
  function ValueScan(line: string, j: nat, open: char, word: string): (r: (nat, string))
    requires open == NoQuote || (IsQuote(open) && 1 <= j)
    ensures r.0 >= j
    decreases |line| - j
  {
    if j >= |line| then (j, word)
    else if IsQuote(line[j]) && open == NoQuote then ValueScan(line, j + 1, line[j], word)
    else if IsQuote(line[j]) && open == line[j] && line[j - 1] != '\\' then (j + 1, word)
    else if line[j] == ' ' && open == NoQuote then (j + 1, word)
    else ValueScan(line, j + 1, open, word + [line[j]])
  }

  /** PARSER_CMD_BEGIN: the leading run of letters and digits (possibly empty) is the first word. */
  function HandleCmdBegin(line: string, i: nat, args: seq<string>): Step
    requires i <= |line|
  {
    var j := AlnumRunEnd(line, i);
    Step(j, Space, args + [line[i..j]])
  }

  /** PARSER_SPACE: skip one space, or hand a '-' to FLAG_KEY and anything else to ARGS. */
  function HandleSpace(line: string, i: nat, args: seq<string>): Step
    requires i < |line|
  {
    if line[i] == ' ' then Step(i + 1, Space, args)
    else if line[i] == '-' then Step(i, FlagKey, args)
    else Step(i, Args, args)
  }

  /** PARSER_ARGS: one positional word. */
  function HandleArgs(line: string, i: nat, args: seq<string>): Step
    requires i < |line|
  {
    var (j, w) := ArgsScan(line, i, NoQuote, []);
    Step(j, Space, args + [w])
  }

  /** PARSER_FLAG_KEY: the flag word, dashes included. A terminator other than
      space or '=' replaces the vector by the error message and moves to ERROR
      with cursor 0. */
  function HandleFlagKey(line: string, i: nat, args: seq<string>): Step
    requires i < |line|
  {
    var j := FlagRunEnd(line, i);
    if j < |line| && line[j] != ' ' && line[j] != '=' then
      Step(0, Error, [FlagKeyErrorPrefix + line[i..j]])
    else
      Step(j, FlagValue, args + [line[i..j]])
  }

  /** PARSER_FLAG_VALUE: a '-' goes back to FLAG_KEY; otherwise one space or '='
      is skipped and the following text is the value. */
  function HandleFlagValue(line: string, i: nat, args: seq<string>): Step
    requires i < |line|
  {
    if line[i] == '-' then Step(i, FlagKey, args)
    else
      var start := if line[i] == ' ' || line[i] == '=' then i + 1 else i;
      var (j, w) := ValueScan(line, start, NoQuote, []);
      Step(j, Space, args + [w])
  }

  /** The handler table `states`. */
  function Handle(state: State, line: string, i: nat, args: seq<string>): Step
    requires i < |line| && state != Error
  {
    match state
    case CmdBegin => HandleCmdBegin(line, i, args)
    case Space => HandleSpace(line, i, args)
    case Args => HandleArgs(line, i, args)
    case FlagKey => HandleFlagKey(line, i, args)
    case FlagValue => HandleFlagValue(line, i, args)
  }

  /** What holds whenever a state is entered with the cursor inside the line:
      ARGS never starts at a space and FLAG_KEY always starts at a '-'. */
  predicate Entry(state: State, line: string, i: nat) {
    i < |line| ==> (state == Args ==> line[i] != ' ') && (state == FlagKey ==> line[i] == '-')
  }

  /** The order in which handlers may hand over without moving the cursor. */
  function Rank(state: State): nat {
    match state
    case CmdBegin => 2
    case Space => 1
    case FlagValue => 1
    case FlagKey => 0
    case Args => 0
    case Error => 0
  }

  /** Every handler either moves the cursor forward or hands over to a state
      of lower rank, and the state it hands over to is entered properly; only
      FLAG_KEY's error exit moves the cursor back. */
  lemma HandleProgress(state: State, line: string, i: nat, args: seq<string>)
    requires i < |line| && state != Error && Entry(state, line, i)
    ensures var st := Handle(state, line, i, args);
      st.state == Error ||
      (Entry(st.state, line, st.next) && (st.next > i || (st.next == i && Rank(st.state) < Rank(state))))
  {
    match state
    case Args =>
      assert ArgsScan(line, i, NoQuote, []).0 > i by {
        if IsQuote(line[i]) {
          assert ArgsScan(line, i, NoQuote, []) == ArgsScan(line, i + 2, line[i], []);
        } else {
          assert ArgsScan(line, i, NoQuote, []) == ArgsScan(line, i + 1, NoQuote, [] + [line[i]]);
        }
      }
    case FlagKey =>
      assert IsFlagChar(line[i]);
    case FlagValue =>
      if line[i] != '-' {
        var start := if line[i] == ' ' || line[i] == '=' then i + 1 else i;
        assert ValueScan(line, start, NoQuote, []).0 > i by {
          if start == i {
            assert ValueScan(line, i, NoQuote, []).0 >= i + 1;
          }
        }
      }
    case _ =>
  }

  /** The driver loop of ParseCommandLine from cursor `i` in state `state` with
      vector `args`. A handler that moves to ERROR ends the run with its message:
      the source's next loop test sees cursor 0 inside the non-empty line and the
      ERROR state, and returns args[0]. */
  function Drive(line: string, i: nat, state: State, args: seq<string>): (r: Result<seq<string>>)
    requires state != Error && Entry(state, line, i)
    decreases |line| - i, Rank(state)
  {
    if i >= |line| then Ok(args)
    else
      var st := Handle(state, line, i, args);
      HandleProgress(state, line, i, args);
      if st.state == Error then Err(st.args[0])
      else Drive(line, st.next, st.state, st.args)
  }

  /** ParseCommandLine(line): trim, then drive from the first character in CMD_BEGIN. */
  function Tokenize(line: string): Result<seq<string>> {
    Drive(TrimSpace(line), 0, CmdBegin, [])
  }

  // ---------------------------------------------------------------------------
  // The handlers and the driver as the source writes them: scanning loops that
  // build the word character by character.

  method ScanCommandWord(i: nat, line: string, args: seq<string>) returns (st: Step)
    requires i <= |line|
    ensures st == HandleCmdBegin(line, i, args)
  {
    var j := i;
    var b: string := [];
    while j < |line|
      invariant i <= j <= |line| && b == line[i..j]
      invariant AlnumRunEnd(line, j) == AlnumRunEnd(line, i)
      decreases |line| - j
    {
      var r := line[j];
      if IsAlnum(r) {
        b := b + [r];
        j := j + 1;
        continue;
      }
      break;
    }
    st := Step(j, Space, args + [b]);
  }

  method ScanSpace(i: nat, line: string, args: seq<string>) returns (st: Step)
    requires i < |line|
    ensures st == HandleSpace(line, i, args)
  {
    var r := line[i];
    if r == ' ' {
      return Step(i + 1, Space, args);
    }
    if r == '-' {
      return Step(i, FlagKey, args);
    }
    return Step(i, Args, args);
  }

  method ScanPositional(i: nat, line: string, args: seq<string>) returns (st: Step)
    requires i < |line|
    ensures st == HandleArgs(line, i, args)
  {
    var j := i;
    var b: string := [];
    var open := NoQuote;
    while j < |line|
      invariant open == NoQuote || (IsQuote(open) && 1 <= j)
      invariant ArgsScan(line, j, open, b) == ArgsScan(line, i, NoQuote, [])
      decreases |line| - j
    {
      var r := line[j];
      if r == '\'' || r == '\"' {
        if open == NoQuote {
          open := r;
          j := j + 2;
          continue;
        }
        if line[j - 1] == '\\' {
          b := b + [r];
          j := j + 1;
          continue;
        }
        if open == r {
          j := j + 1;
          break;
        }
        j := j + 1;
        continue;
      }
      if r == ' ' && open == NoQuote {
        break;
      }
      b := b + [r];
      j := j + 1;
    }
    st := Step(j, Space, args + [b]);
  }

  method ScanFlagKey(i: nat, line: string, args: seq<string>) returns (st: Step)
    requires i < |line|
    ensures st == HandleFlagKey(line, i, args)
  {
    var j := i;
    var b: string := [];
    while j < |line|
      invariant i <= j <= |line| && b == line[i..j]
      invariant FlagRunEnd(line, j) == FlagRunEnd(line, i)
      decreases |line| - j
    {
      var r := line[j];
      if IsFlagChar(r) {
        b := b + [r];
        j := j + 1;
        continue;
      }
      if r != ' ' && r != '=' {
        return Step(0, Error, [FlagKeyErrorPrefix + b]);
      }
      break;
    }
    st := Step(j, FlagValue, args + [b]);
  }

  method ScanFlagValue(i: nat, line: string, args: seq<string>) returns (st: Step)
    requires i < |line|
    ensures st == HandleFlagValue(line, i, args)
  {
    if line[i] == '-' {
      return Step(i, FlagKey, args);
    }
    var start := i;
    if line[i] == ' ' || line[i] == '=' {
      start := i + 1;
    }
    var b: string := [];
    var j := start;
    var open := NoQuote;
    while j < |line|
      invariant open == NoQuote || (IsQuote(open) && 1 <= j)
      invariant ValueScan(line, j, open, b) == ValueScan(line, start, NoQuote, [])
      decreases |line| - j
    {
      var r := line[j];
      if r == '\"' || r == '\'' {
        if open == NoQuote {
          open := r;
          j := j + 1;
          continue;
        }
        if open == r && line[j - 1] != '\\' {
          j := j + 1;
          break;
        }
      }
      if r == ' ' && open == NoQuote {
        j := j + 1;
        break;
      }
      b := b + [r];
      j := j + 1;
    }
    st := Step(j, Space, args + [b]);
  }

  /** ParseCommandLine: the argument vector of a rendered command line, or the
      flag-key error. */
  method ParseCommandLine(line0: string) returns (r: Result<seq<string>>)
    ensures r == Tokenize(line0)
    ensures IsBlank(line0) ==> r == Ok([])
  {
    var line := TrimSpace(line0);
    var state := CmdBegin;
    var args: seq<string> := [];
    var i: nat := 0;
    while i < |line|
      invariant Entry(state, line, i)
      invariant state == Error ==> i == 0 < |line| && |args| >= 1 && Tokenize(line0) == Err(args[0])
      invariant state != Error ==> Drive(line, i, state, args) == Tokenize(line0)
      decreases if state == Error then 0 else |line| - i + 1, Rank(state)
    {
      if state == Error {
        return Err(args[0]);
      }
      var st: Step;
      match state {
        case CmdBegin => st := ScanCommandWord(i, line, args);
        case Space => st := ScanSpace(i, line, args);
        case Args => st := ScanPositional(i, line, args);
        case FlagKey => st := ScanFlagKey(i, line, args);
        case FlagValue => st := ScanFlagValue(i, line, args);
      }
      HandleProgress(state, line, i, args);
      i, state, args := st.next, st.state, st.args;
    }
    r := Ok(args);
  }
}
