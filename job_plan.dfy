/** What the script-writing runners (cmd/buildtool/run_job.go and
    run_job.go) share: the job-level variables and the scope of each step,
    the step-by-step assembly of the script's commands, and the bind mounts
    of the top-level entries of the working directory. */
module JobPlan {
  import opened Wrappers
  import opened GoStrings
  import opened GoPath
  import opened Config
  import opened Executor
  import opened Container
  import opened ShellScript

  const StepNotSpecified: string := "step is not specified for running"

  /** Where the working directory appears inside the build container. */
  const WorkDir: string := "/workdir"

  /** What the host answers a runner: the error of opening the script file,
      the names ioutil.ReadDir lists in the working directory (or its
      error), and the Docker daemon's answers. */
  datatype Host = Host(openError: Option<string>, listing: Result<seq<string>>, daemon: Daemon)

  /** The container a runner asks for: its configuration and its mounts. */
  datatype Plan = Plan(config: ContainerConfig, mounts: seq<Mount>)

  /** What running a job leaves: the error returned, the script file written
      (if any) and the container asked for (if any). */
  datatype JobResult = JobResult(err: Option<string>, script: Option<ScriptFile>, plan: Option<Plan>)

  // ---------------------------------------------------------------- scopes

  /** The job-level variables: a copy of the job's `args`, none when absent. */
  function JobArgs(c: JobConfig): Scope {
    if c.args.Some? then c.args.value else map[]
  }

  /** A step's variables: the job-level ones overridden by its `with`. */
  function LocalArgs(global: Scope, step: StepConfig): Scope {
    if step.with.Some? then global + step.with.value else global
  }

  /** The loop that copies the job's `args` into a fresh map. */
  method CopyJobArgs(c: JobConfig) returns (global: Scope)
    ensures global == JobArgs(c)
  {
    global := map[];
    if c.args.Some? {
      global := Overlay(global, c.args.value);
      assert global == c.args.value;
    }
  }

  /** The two loops that fill a step's fresh variable map. */
  method BuildLocalArgs(global: Scope, step: StepConfig) returns (args: Scope)
    ensures args == LocalArgs(global, step)
    ensures forall k :: k in args <==> k in global || (step.with.Some? && k in step.with.value)
  {
    args := Overlay(map[], global);
    assert args == global;
    if step.with.Some? {
      args := Overlay(args, step.with.value);
    }
  }

  /** The line announcing a step in the script. */
  function EchoStep(name: string): string {
    "echo 'Run step: " + name + "'"
  }

  // ---------------------------------------------------------------- the commands

  /** The script's commands for the steps from position `i` on, after
      `acc`: every step adds the lines `lines` gives it, and the first step
      that fails ends the assembly with its error. */
  function ScriptRun(steps: seq<StepConfig>, i: nat, lines: StepConfig -> Result<seq<string>>, acc: seq<string>): Result<seq<string>>
    requires i <= |steps|
    decreases |steps| - i
  {
    if i == |steps| then Ok(acc)
    else
      var r := lines(steps[i]);
      if r.Err? then Err(r.error) else ScriptRun(steps, i + 1, lines, acc + r.value)
  }

  /** The reference: the lines of every step, in step order. */
  function Flat(steps: seq<StepConfig>, lines: StepConfig -> Result<seq<string>>): seq<string>
    decreases |steps|
  {
    if steps == [] then []
    else (if lines(steps[0]).Ok? then lines(steps[0]).value else []) + Flat(steps[1..], lines)
  }

  /** The assembly succeeds exactly when every step gives its lines, and then
      it holds the lines of every step in step order; otherwise its error is
      that of the first step that fails. */
  lemma {:induction false} ScriptRunSpec(steps: seq<StepConfig>, i: nat, lines: StepConfig -> Result<seq<string>>, acc: seq<string>)
    requires i <= |steps|
    ensures var r := ScriptRun(steps, i, lines, acc);
      (r.Ok? <==> forall j :: i <= j < |steps| ==> lines(steps[j]).Ok?)
      && (r.Ok? ==> r.value == acc + Flat(steps[i..], lines))
      && (r.Err? ==> exists j :: i <= j < |steps| && lines(steps[j]).Err? && r.error == lines(steps[j]).error
                                 && forall j' :: i <= j' < j ==> lines(steps[j']).Ok?)
    decreases |steps| - i
  {
    if i == |steps| {
      assert acc + Flat(steps[i..], lines) == acc + [];
    } else {
      var r := lines(steps[i]);
      if r.Ok? {
        ScriptRunSpec(steps, i + 1, lines, acc + r.value);
        assert steps[i..][1..] == steps[i + 1..];
        assert Flat(steps[i..], lines) == r.value + Flat(steps[i + 1..], lines);
        assert acc + r.value + Flat(steps[i + 1..], lines) == acc + (r.value + Flat(steps[i + 1..], lines));
      }
    }
  }

  // ---------------------------------------------------------------- mounts

  /** The bind of the entry `name` of the host directory `from` to the same
      name under the container directory `to`. */
  function Bind(from: string, to: string, name: string): Mount {
    Mount(JoinPath([from, name]), JoinPath([to, name]))
  }

  /** One bind per listed entry, in listing order. */
  function Binds(from: string, to: string, names: seq<string>): (r: seq<Mount>)
    ensures |r| == |names|
  {
    seq(|names|, j requires 0 <= j < |names| => Bind(from, to, names[j]))
  }

  /** The loop over the entries ioutil.ReadDir lists. */
  method ListBinds(from: string, to: string, names: seq<string>) returns (mounts: seq<Mount>)
    ensures mounts == Binds(from, to, names)
  {
    mounts := [];
    for i := 0 to |names|
      invariant |mounts| == i
      invariant forall j :: 0 <= j < i ==> mounts[j] == Bind(from, to, names[j])
    {
      mounts := mounts + [Mount(JoinPath([from, names[i]]), JoinPath([to, names[i]]))];
    }
  }

  /** A clean absolute directory with a slash to put a name after. */
  function DirPrefix(dir: string): string {
    if dir == "/" then "/" else dir + "/"
  }

  /** Between clean absolute directories, the entry `name` is bound from
      `from/name` to `to/name`, both without any rewriting. */
  lemma BindsUnder(from: string, to: string, names: seq<string>, j: nat)
    requires from != [] && from[0] == '/' && Clean(from) == from
    requires to != [] && to[0] == '/' && Clean(to) == to
    requires forall n <- names :: IsName(n)
    requires j < |names|
    ensures Binds(from, to, names)[j] == Mount(DirPrefix(from) + names[j], DirPrefix(to) + names[j])
  {
    var n := names[j];
    assert n in names;
    assert Binds(from, to, names)[j] == Bind(from, to, n);
    JoinName(from, n);
    JoinName(to, n);
  }

  /** The working directory's top-level entries are bound under /workdir,
      one for one. */
  lemma WorkDirBinds(pwd: string, names: seq<string>, j: nat)
    requires pwd != [] && pwd[0] == '/' && Clean(pwd) == pwd
    requires forall n <- names :: IsName(n)
    requires j < |names|
    ensures Binds(pwd, WorkDir, names)[j] == Mount(DirPrefix(pwd) + names[j], "/workdir/" + names[j])
  {
    WorkDirClean();
    BindsUnder(pwd, WorkDir, names, j);
  }

  lemma WorkDirClean()
    ensures WorkDir != [] && WorkDir[0] == '/' && Clean(WorkDir) == WorkDir
    ensures DirPrefix(WorkDir) == "/workdir/"
  {
    CleanRootName("workdir");
    assert "/" + "workdir" == WorkDir;
  }
}
