/** The build script the runners write and hand to `/bin/sh` inside the
    container: a fixed header that makes the shell stop at the first failing
    command, an empty line, then every command followed by an empty line
    (writeShellScript in cmd/buildtool/run_job.go, run_job.go and utils.go). */
module ShellScript {
  import opened Wrappers
  import opened GoStrings
  import opened GoPath

  const ShellBegin: string := "# exit when any command fails\nset -e\n\n"

  /** The commands, each followed by "\n\n". */
  function ScriptBody(cmd: seq<string>): string
    decreases |cmd|
  {
    if cmd == [] then [] else cmd[0] + "\n\n" + ScriptBody(cmd[1..])
  }

  /** The whole file. */
  function ScriptContent(cmd: seq<string>): string {
    ShellBegin + "\n" + ScriptBody(cmd)
  }

  lemma {:induction false} ScriptBodyAppend(cmd: seq<string>, line: string)
    ensures ScriptBody(cmd + [line]) == ScriptBody(cmd) + line + "\n\n"
    decreases |cmd|
  {
    if cmd == [] {
      assert ScriptBody([line]) == line + "\n\n" + ScriptBody([]);
    } else {
      assert (cmd + [line])[1..] == cmd[1..] + [line];
      ScriptBodyAppend(cmd[1..], line);
    }
  }

  /** The lines of a script body: every command followed by an empty line. */
  function Spaced(cmd: seq<string>): seq<string>
    decreases |cmd|
  {
    if cmd == [] then [] else [cmd[0], []] + Spaced(cmd[1..])
  }

  /** One command and its two newlines, read line by line. */
  lemma CommandLines(line: string, rest: string)
    requires '\n' !in line
    ensures Split(line + "\n\n" + rest, '\n') == [line, []] + Split(rest, '\n')
  {
    var tail := [] + ['\n'] + rest;
    assert line + "\n\n" + rest == line + ['\n'] + tail;
    SplitAtSeparator(line, '\n', tail);
    SplitAtSeparator([], '\n', rest);
  }

  /** Commands without a newline come back, read line by line, as the lines
      of the body: each one, then an empty line (the final "" is what follows
      the last newline). */
  lemma {:induction false} ScriptBodyLines(cmd: seq<string>)
    requires forall l <- cmd :: '\n' !in l
    ensures Split(ScriptBody(cmd), '\n') == Spaced(cmd) + [[]]
    decreases |cmd|
  {
    if cmd != [] {
      assert cmd[0] in cmd;
      assert forall l <- cmd[1..] :: l in cmd;
      ScriptBodyLines(cmd[1..]);
      CommandLines(cmd[0], ScriptBody(cmd[1..]));
    }
  }

  /** The bufio.Writer loop: the header, a newline, then each command and two
      newlines. */
  method WriteScript(cmd: seq<string>) returns (content: string)
    ensures content == ScriptContent(cmd)
  {
    content := ShellBegin;
    content := content + "\n";
    for i := 0 to |cmd|
      invariant content == ShellBegin + "\n" + ScriptBody(cmd[..i])
    {
      ScriptBodyAppend(cmd[..i], cmd[i]);
      assert cmd[..i + 1] == cmd[..i] + [cmd[i]];
      content := content + cmd[i];
      content := content + "\n";
      content := content + "\n";
    }
    assert cmd[..|cmd|] == cmd;
  }

  /** A script file: where it was written and what it holds. */
  datatype ScriptFile = ScriptFile(path: string, content: string)

  /** writeShellScript(jobId, cmd): the path `<pwd>/<jobId>.sh` is returned
      even when os.OpenFile fails (`openError`), and the error with it;
      otherwise the file is created or truncated and holds the script. */
  method WriteShellScript(pwd: string, jobId: string, cmd: seq<string>, openError: Option<string>)
    returns (p: string, err: Option<string>, file: Option<ScriptFile>)
    ensures p == JoinPath([pwd, jobId + ".sh"])
    ensures err == openError
    ensures file == if openError.Some? then None else Some(ScriptFile(p, ScriptContent(cmd)))
  {
    p := JoinPath([pwd, jobId + ".sh"]);
    if openError.Some? {
      return p, openError, None;
    }
    var content := WriteScript(cmd);
    err, file := None, Some(ScriptFile(p, content));
  }
}
