/** utils.go: the root package's loading of "KEY=VALUE" lines from an env
    file into the process environment. Unlike UpdateEnvFromFile of
    core/utils.go it does not trim the lines, and it takes only the lines
    that hold exactly one '='. Its writeShellScript is the one of
    ShellScript. */
module RootUtils {
  import opened Wrappers
  import opened GoStrings
  import opened HostFiles
  import opened EnvUtils

  /** A scanned line this loader applies: not a comment, and splitting into
      exactly two parts on '='. */
  predicate Applies(line: string) {
    !HasPrefix(line, "#") && |Split(line, '=')| == 2
  }

  /** The loading of the scanned lines `lines` from the environment `env0`:
      the Setenv error that stopped it, if any, and the environment. Defined
      on the prefix so that it follows the scanning loop. */
  function EnvLoad(lines: seq<string>, env0: map<string, string>): (Option<string>, map<string, string>)
    decreases |lines|
  {
    if lines == [] then (None, env0)
    else
      var prev := EnvLoad(lines[..|lines| - 1], env0);
      var line := lines[|lines| - 1];
      if prev.0.Some? || !Applies(line) then prev
      else
        var parts := Split(line, '=');
        var (failed, env) := Setenv(prev.1, parts[0], parts[1]);
        if failed then (Some(SetenvError), env) else (None, env)
  }

  /** Once the loading has failed, later lines change nothing. */
  lemma {:induction false} EnvLoadErrSticks(lines: seq<string>, i: nat, env0: map<string, string>)
    requires i <= |lines| && EnvLoad(lines[..i], env0).0.Some?
    ensures EnvLoad(lines, env0) == EnvLoad(lines[..i], env0)
    decreases |lines|
  {
    if i < |lines| {
      var front := lines[..|lines| - 1];
      assert front[..i] == lines[..i];
      EnvLoadErrSticks(front, i, env0);
    } else {
      assert lines[..i] == lines;
    }
  }

  /** updateEnvFromFile: open and stat errors are returned, a directory is
      refused; otherwise comment lines and lines that do not split into
      exactly two parts are skipped, and each other line sets its first part
      to its second, stopping at the first variable Setenv refuses. */
  method UpdateEnvFromFile(file: TextFile, env0: map<string, string>) returns (err: Option<string>, env: map<string, string>)
    ensures file.OpenFailed? || file.StatFailed? ==> err == Some(file.error) && env == env0
    ensures file.Directory? ==> err == Some(NotFileError) && env == env0
    ensures file.Lines? ==> (err, env) == EnvLoad(file.lines, env0)
  {
    env := env0;
    match file
    case OpenFailed(e) => return Some(e), env;
    case StatFailed(e) => return Some(e), env;
    case Directory => return Some(NotFileError), env;
    case Lines(lines) =>
      var i := 0;
      while i < |lines|
        invariant 0 <= i <= |lines|
        invariant EnvLoad(lines[..i], env0) == (None, env)
      {
        assert lines[..i + 1][..i] == lines[..i];
        var line := lines[i];
        if HasPrefix(line, "#") {
          i := i + 1;
          continue;
        }
        var parts := Split(line, '=');
        if |parts| != 2 {
          i := i + 1;
          continue;
        }
        var (failed, env') := Setenv(env, parts[0], parts[1]);
        if failed {
          EnvLoadErrSticks(lines, i + 1, env0);
          return Some(SetenvError), env;
        }
        env := env';
        i := i + 1;
      }
      assert lines[..i] == lines;
      err := None;
  }

  /** On lines that are already trimmed and hold at most one '=', this
      loader and the one of core/utils.go set the same variables and fail
      alike. */
  lemma {:induction false} AgreesWithCore(lines: seq<string>, env0: map<string, string>)
    requires forall l <- lines :: TrimSpace(l) == l && |Split(l, '=')| <= 2
    ensures var (e, env) := EnvLoad(lines, env0);
      var (r, env') := LoadEnv(lines, env0);
      env == env' && (e.None? <==> r.Ok?) && (e.Some? ==> r == Err(e.value))
    decreases |lines|
  {
    if lines != [] {
      var front := lines[..|lines| - 1];
      assert forall l <- front :: l in lines;
      AgreesWithCore(front, env0);
      var line := lines[|lines| - 1];
      assert line in lines;
      assert Applies(line) <==> IsAssignment(TrimSpace(line));
    }
  }

  lemma SplitTwoSigns()
    ensures Split("A=b=c", '=') == ["A", "b", "c"]
  {
    assert "A=b=c" == "A" + ['='] + ("b" + ['='] + "c");
    SplitAtSeparator("A", '=', "b" + ['='] + "c");
    SplitAtSeparator("b", '=', "c");
    SplitNoSeparator("c", '=');
  }

  /** A line with a second '=' is skipped here, where core/utils.go sets
      its key to the text between the two signs. */
  lemma SecondEqualsDiffers(env0: map<string, string>)
    ensures EnvLoad(["A=b=c"], env0) == (None, env0)
    ensures LoadEnv(["A=b=c"], env0) == (Ok(["A=b=c"]), env0["A" := "b"])
  {
    var l := "A=b=c";
    SplitTwoSigns();
    var none: seq<string> := [];
    assert [l][..0] == none;
    assert EnvLoad([l], env0) == (None, env0);
    TrimSpaceTrimmed(l);
    assert !HasPrefix(l, "#") by {
      assert l[..1][0] == 'A';
    }
    assert IsAssignment(l) && KeyOf(l) == "A" && ValueOf(l) == "b";
    assert LoadEnv([], env0) == (Ok([]), env0);
    assert Setenv(env0, "A", "b") == (false, env0["A" := "b"]);
    assert none + [l] == [l];
  }
}
