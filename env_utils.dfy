/** core/utils.go: environment-variable substitution for configuration values
    and loading of "KEY=VALUE" lines from an env file into the process
    environment. os.ExpandEnv is the function parameter `expand`; the process
    environment is a map passed in and handed back. */
module EnvUtils {
  import opened Wrappers
  import opened GoStrings
  import opened HostFiles

  /** ReadEnvVariableIfHas: the trimmed value, or, when it starts with '$',
      its expansion unless that expansion is empty. */
  function ReadEnvVariableIfHas(str: string, expand: string -> string): string {
    var origin := TrimSpace(str);
    if HasPrefix(origin, "$") && expand(origin) != [] then expand(origin) else origin
  }

  /** The result is the trimmed input, or a non-empty expansion of a trimmed
      input that starts with '$'; in particular a value that does not start
      with '$' is only trimmed, and a non-blank input never gives "". */
  lemma ReadEnvOutcome(str: string, expand: string -> string)
    ensures var o, r := TrimSpace(str), ReadEnvVariableIfHas(str, expand);
      r == o || (HasPrefix(o, "$") && r == expand(o) && r != [])
    ensures !HasPrefix(TrimSpace(str), "$") ==> ReadEnvVariableIfHas(str, expand) == TrimSpace(str)
    ensures TrimSpace(str) != [] ==> ReadEnvVariableIfHas(str, expand) != []
  {
  }

  /** A value that does not start with '$' is a fixed point after one pass:
      substituting twice gives what substituting once gives. */
  lemma ReadEnvPlainStable(str: string, expand: string -> string)
    requires !HasPrefix(TrimSpace(str), "$")
    ensures ReadEnvVariableIfHas(ReadEnvVariableIfHas(str, expand), expand) == ReadEnvVariableIfHas(str, expand)
  {
    TrimSpaceIdempotent(str);
  }

  const NotFileError: string := "destination of env is not file"

  /** A trimmed line that UpdateEnvFromFile turns into a variable: not a
      comment and holding at least one '='. */
  predicate IsAssignment(line: string) {
    !HasPrefix(line, "#") && |Split(line, '=')| >= 2
  }

  /** The variable name: the text before the first '='. */
  function KeyOf(line: string): string {
    Split(line, '=')[0]
  }

  /** The value: the text between the first and the second '=' (any later
      text is dropped). */
  function ValueOf(line: string): string {
    var parts := Split(line, '=');
    if |parts| >= 2 then parts[1] else []
  }

  /** An assignment line starts with KEY=VALUE, neither part holds '=', and
      whatever follows VALUE, if anything, starts with another '='. */
  lemma KeyValueLayout(line: string) returns (rest: string)
    requires IsAssignment(line)
    ensures line == KeyOf(line) + "=" + ValueOf(line) + rest
    ensures '=' !in KeyOf(line) && '=' !in ValueOf(line)
    ensures rest == [] || rest[0] == '='
  {
    SplitCount(line, '=');
    var i := SplitFirst(line, '=');
    var tail := line[i + 1..];
    var parts := Split(tail, '=');
    assert KeyOf(line) == line[..i];
    assert ValueOf(line) == parts[0] by {
      assert Split(line, '=')[1] == parts[0];
    }
    assert parts[0] in parts;
    rest := FirstPiece(tail, '=');
    assert line == line[..i] + [line[i]] + tail;
    Regroup(line[..i], "=", parts[0], rest);
  }

  /** The loading of the scanned lines `lines`, from the environment `env0`:
      the accepted lines so far or the Setenv error, and the environment.
      Defined on the prefix so that it follows the scanning loop. */
  function LoadEnv(lines: seq<string>, env0: map<string, string>): (r: (Result<seq<string>>, map<string, string>))
    decreases |lines|
  {
    if lines == [] then (Ok([]), env0)
    else
      var prev := LoadEnv(lines[..|lines| - 1], env0);
      var line := TrimSpace(lines[|lines| - 1]);
      if prev.0.Err? || !IsAssignment(line) then prev
      else
        var (failed, env) := Setenv(prev.1, KeyOf(line), ValueOf(line));
        if failed then (Err(SetenvError), env) else (Ok(prev.0.value + [line]), env)
  }

  /** The reference list of accepted lines: every scanned line, trimmed, that
      is an assignment, in file order. */
  function Assignments(lines: seq<string>): (r: seq<string>)
    ensures forall l <- r :: IsAssignment(l) && TrimSpace(l) == l
    decreases |lines|
  {
    if lines == [] then []
    else
      var line := TrimSpace(lines[|lines| - 1]);
      TrimSpaceIdempotent(lines[|lines| - 1]);
      Assignments(lines[..|lines| - 1]) + (if IsAssignment(line) then [line] else [])
  }

  /** Once the loading has failed, later lines change nothing. */
  lemma {:induction false} LoadEnvErrSticks(lines: seq<string>, i: nat, env0: map<string, string>)
    requires i <= |lines| && LoadEnv(lines[..i], env0).0.Err?
    ensures LoadEnv(lines, env0) == LoadEnv(lines[..i], env0)
    decreases |lines|
  {
    if i < |lines| {
      var front := lines[..|lines| - 1];
      assert front[..i] == lines[..i];
      LoadEnvErrSticks(front, i, env0);
    } else {
      assert lines[..i] == lines;
    }
  }

  /** A successful load returns exactly the assignment lines, trimmed, in
      file order. */
  lemma {:induction false} LoadEnvLines(lines: seq<string>, env0: map<string, string>)
    requires LoadEnv(lines, env0).0.Ok?
    ensures LoadEnv(lines, env0).0.value == Assignments(lines)
    decreases |lines|
  {
    if lines != [] {
      var front := lines[..|lines| - 1];
      LoadEnvLines(front, env0);
    }
  }

  /** A successful load leaves every variable that no accepted line names
      as it was. */
  lemma {:induction false} LoadEnvUntouched(lines: seq<string>, env0: map<string, string>, k: string)
    requires LoadEnv(lines, env0).0.Ok?
    requires forall l <- LoadEnv(lines, env0).0.value :: KeyOf(l) != k
    ensures var env := LoadEnv(lines, env0).1;
      (k in env <==> k in env0) && (k in env0 ==> env[k] == env0[k])
    decreases |lines|
  {
    if lines != [] {
      var front := lines[..|lines| - 1];
      var prev := LoadEnv(front, env0);
      assert prev.0.Ok?;
      assert forall l <- prev.0.value :: l in LoadEnv(lines, env0).0.value;
      LoadEnvUntouched(front, env0, k);
    }
  }

  /** A successful load gives every variable an accepted line names the
      value of the LAST accepted line that names it. */
  lemma {:induction false} LoadEnvLastWins(lines: seq<string>, env0: map<string, string>, j: nat)
    requires LoadEnv(lines, env0).0.Ok?
    requires var res := LoadEnv(lines, env0).0.value;
      j < |res| && forall j' :: j < j' < |res| ==> KeyOf(res[j']) != KeyOf(res[j])
    ensures var (res, env) := LoadEnv(lines, env0);
      KeyOf(res.value[j]) in env && env[KeyOf(res.value[j])] == ValueOf(res.value[j])
    decreases |lines|
  {
    assert lines != [];
    var front := lines[..|lines| - 1];
    var prev := LoadEnv(front, env0);
    var line := TrimSpace(lines[|lines| - 1]);
    assert prev.0.Ok?;
    var res := LoadEnv(lines, env0).0.value;
    if !IsAssignment(line) {
      assert LoadEnv(lines, env0) == prev;
      LoadEnvLastWins(front, env0, j);
    } else {
      var (failed, env) := Setenv(prev.1, KeyOf(line), ValueOf(line));
      assert !failed;
      assert LoadEnv(lines, env0) == (Ok(prev.0.value + [line]), env);
      assert res == prev.0.value + [line];
      if j < |prev.0.value| {
        assert res[|res| - 1] == line;
        assert KeyOf(line) != KeyOf(res[j]);
        forall j' | j < j' < |prev.0.value|
          ensures KeyOf(prev.0.value[j']) != KeyOf(prev.0.value[j])
        {
          assert prev.0.value[j'] == res[j'];
        }
        LoadEnvLastWins(front, env0, j);
      } else {
        assert res[j] == line;
      }
    }
  }

  /** UpdateEnvFromFile: open and stat errors are returned, a directory is
      refused, and otherwise every scanned line is trimmed; comments and lines
      without '=' are skipped; each other line is kept and sets KEY to VALUE,
      stopping at the first variable Setenv refuses. */
  method UpdateEnvFromFile(file: TextFile, env0: map<string, string>) returns (r: Result<seq<string>>, env: map<string, string>)
    ensures file.OpenFailed? || file.StatFailed? ==> r == Err(file.error) && env == env0
    ensures file.Directory? ==> r == Err(NotFileError) && env == env0
    ensures file.Lines? ==> (r, env) == LoadEnv(file.lines, env0)
  {
    env := env0;
    match file
    case OpenFailed(e) => return Err(e), env;
    case StatFailed(e) => return Err(e), env;
    case Directory => return Err(NotFileError), env;
    case Lines(lines) =>
      var envs: seq<string> := [];
      var i := 0;
      while i < |lines|
        invariant 0 <= i <= |lines|
        invariant LoadEnv(lines[..i], env0) == (Ok(envs), env)
      {
        assert lines[..i + 1][..i] == lines[..i];
        var line := TrimSpace(lines[i]);
        if HasPrefix(line, "#") {
          i := i + 1;
          continue;
        }
        var parts := Split(line, '=');
        if |parts| < 2 {
          i := i + 1;
          continue;
        }
        envs := envs + [line];
        var (failed, env') := Setenv(env, parts[0], parts[1]);
        if failed {
          LoadEnvErrSticks(lines, i + 1, env0);
          return Err(SetenvError), env;
        }
        env := env';
        i := i + 1;
      }
      assert lines[..i] == lines;
      r := Ok(envs);
  }
}
