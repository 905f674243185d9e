/** run_job.go: the older runner of the root package. Every step becomes ONE
    command, its whole trimmed `run` text (newlines included) or its plugin
    command line, rendered as a text/template in the job's `args`
    overridden by the step's `with`; the commands go to `<pwd>/vulcan.sh`,
    which `/bin/sh` runs in a container of the job's image with every
    top-level entry of the working directory bound under /workdir.
    Rendering and map iteration order are the `render` and `order` fields of
    the executor's World; its other fields play no part here. */
module RootRunner {
  import opened Wrappers
  import opened GoStrings
  import opened GoPath
  import opened Config
  import opened Executor
  import opened Container
  import opened ShellScript
  import opened JobPlan

  /** The template of a step: its trimmed `run` text, else its plugin
      command line, else none. */
  function Command(step: StepConfig, w: World): Option<string> {
    var run := TrimSpace(step.run);
    var use := TrimSpace(step.use);
    if run != [] then Some(run)
    else if use != [] then Some(UseLine(use, step.with, w))
    else None
  }

  /** The one line a step adds to the script, or why it cannot. */
  function StepCommand(step: StepConfig, global: Scope, w: World): Result<seq<string>> {
    var t := Command(step, w);
    if t.None? then Err(StepNotSpecified)
    else
      var r := w.render(t.value, LocalArgs(global, step));
      if r.Err? then Err(r.error) else Ok([r.value])
  }

  /** StepCommand as a function value, for the assembly over the steps. */
  function StepCommands(global: Scope, w: World): StepConfig -> Result<seq<string>> {
    step => StepCommand(step, global, w)
  }

  /** The commands of the whole job, or the first error. */
  function JobCommands(c: JobConfig, w: World): Result<seq<string>> {
    ScriptRun(c.steps, 0, StepCommands(JobArgs(c), w), [])
  }

  /** One pass of the loop over the steps. */
  method RenderStep(step: StepConfig, global: Scope, w: World) returns (r: Result<seq<string>>)
    ensures r == StepCommand(step, global, w)
  {
    var args := BuildLocalArgs(global, step);
    var run: string;
    var v := TrimSpace(step.run);
    if v != [] {
      run := v;
    } else {
      v := TrimSpace(step.use);
      if v != [] {
        run := BuildUseLine(v, step.with, w);
      } else {
        run := "";
      }
    }
    if run == "" {
      return Err(StepNotSpecified);
    }
    var out := w.render(run, args);
    if out.Err? {
      return Err(out.error);
    }
    r := Ok([out.value]);
  }

  /** The loop over the steps that collects one command per step. */
  method AssembleCommands(c: JobConfig, w: World) returns (r: Result<seq<string>>)
    ensures r == JobCommands(c, w)
  {
    var global := CopyJobArgs(c);
    ghost var lines := StepCommands(global, w);
    var shellCmds: seq<string> := [];
    for i := 0 to |c.steps|
      invariant ScriptRun(c.steps, i, lines, shellCmds) == ScriptRun(c.steps, 0, lines, [])
    {
      var s := RenderStep(c.steps[i], global, w);
      assert s == lines(c.steps[i]);
      if s.Err? {
        return Err(s.error);
      }
      shellCmds := shellCmds + s.value;
    }
    r := Ok(shellCmds);
  }

  /** The steps' lines laid end to end are one command per step when every
      step gives exactly one. */
  lemma {:induction false} FlatSingles(steps: seq<StepConfig>, f: StepConfig -> Result<seq<string>>)
    requires forall j :: 0 <= j < |steps| ==> f(steps[j]).Ok? && |f(steps[j]).value| == 1
    ensures |Flat(steps, f)| == |steps|
    ensures forall j :: 0 <= j < |steps| ==> Flat(steps, f)[j] == f(steps[j]).value[0]
    decreases |steps|
  {
    if steps != [] {
      FlatSingles(steps[1..], f);
    }
  }

  /** The commands are collected exactly when every step has `run` or
      `use` and its template renders, and they are then one per step, in
      step order: the step's template rendered in the job's `args`
      overridden by its `with`. Otherwise the error is the first failing
      step's, the missing `run` and `use` included. */
  lemma JobCommandsSpec(c: JobConfig, w: World)
    ensures var s := JobCommands(c, w);
      (s.Ok? <==> forall j :: 0 <= j < |c.steps| ==>
                    Command(c.steps[j], w).Some? && w.render(Command(c.steps[j], w).value, LocalArgs(JobArgs(c), c.steps[j])).Ok?)
      && (s.Ok? ==>
            |s.value| == |c.steps|
            && forall j :: 0 <= j < |c.steps| ==> s.value[j] == w.render(Command(c.steps[j], w).value, LocalArgs(JobArgs(c), c.steps[j])).value)
      && (s.Err? ==> exists j :: 0 <= j < |c.steps| && StepCommand(c.steps[j], JobArgs(c), w).Err?
                                 && s.error == StepCommand(c.steps[j], JobArgs(c), w).error)
  {
    var f := StepCommands(JobArgs(c), w);
    ScriptRunSpec(c.steps, 0, f, []);
    assert c.steps[0..] == c.steps;
    var s := JobCommands(c, w);
    if s.Ok? {
      FlatSingles(c.steps, f);
      assert [] + Flat(c.steps, f) == Flat(c.steps, f);
    }
  }

  /** A multi-line `run` text stays one command: its lines are not split. */
  lemma RunTextWhole(step: StepConfig, global: Scope, w: World)
    requires !IsBlank(step.run)
    requires w.render(TrimSpace(step.run), LocalArgs(global, step)).Ok?
    ensures StepCommand(step, global, w) == Ok([w.render(TrimSpace(step.run), LocalArgs(global, step)).value])
  {
  }

  // ---------------------------------------------------------------- the script

  /** The script's path inside the working directory. */
  function ScriptPath(pwd: string): string {
    JoinPath([pwd, "vulcan.sh"])
  }

  /** writeShellScript(pwd, cmd) of run_job.go: the open error, or the file
      `<pwd>/vulcan.sh` holding the script. */
  method WriteShellScript(pwd: string, cmd: seq<string>, openError: Option<string>) returns (err: Option<string>, file: Option<ScriptFile>)
    ensures err == openError
    ensures file == if openError.Some? then None else Some(ScriptFile(ScriptPath(pwd), ScriptContent(cmd)))
  {
    var p := JoinPath([pwd, "vulcan.sh"]);
    if openError.Some? {
      return openError, None;
    }
    var content := WriteScript(cmd);
    err, file := None, Some(ScriptFile(p, content));
  }

  // ---------------------------------------------------------------- the container

  /** The container of a job: the job's image running ./vulcan.sh in
      /workdir, without a terminal. */
  function RootConfig(image: string): ContainerConfig {
    ContainerConfig(image, ["/bin/sh", "-c", "./vulcan.sh"], WorkDir, false, false)
  }

  /** runBuildInDocker of run_job.go: a ReadDir error is returned before
      any container is asked for; otherwise the container runs, and only
      exit code 1 is a failure. */
  function BuildInDocker(pwd: string, image: string, h: Host): (Option<string>, Option<Plan>) {
    if h.listing.Err? then (Some(h.listing.error), None)
    else (RunContainer(OneFails, false, h.daemon).err, Some(Plan(RootConfig(image), Binds(pwd, WorkDir, h.listing.value))))
  }

  method RunBuildInDocker(pwd: string, image: string, h: Host) returns (err: Option<string>, plan: Option<Plan>)
    ensures (err, plan) == BuildInDocker(pwd, image, h)
  {
    if h.listing.Err? {
      return Some(h.listing.error), None;
    }
    var mounts := ListBinds(pwd, WorkDir, h.listing.value);
    var config := ContainerConfig(image, ["/bin/sh", "-c", "./vulcan.sh"], WorkDir, false, false);
    err := RunContainer(OneFails, false, h.daemon).err;
    plan := Some(Plan(config, mounts));
  }

  // ---------------------------------------------------------------- the job

  /** runJob: the commands, the script (whose write error is dropped), then
      the container. The script is left in place afterwards. */
  function Job(c: JobConfig, pwd: string, w: World, h: Host): JobResult {
    var s := JobCommands(c, w);
    if s.Err? then JobResult(Some(s.error), None, None)
    else
      var script := if h.openError.Some? then None else Some(ScriptFile(ScriptPath(pwd), ScriptContent(s.value)));
      var (err, plan) := BuildInDocker(pwd, c.runOn, h);
      JobResult(err, script, plan)
  }

  method RunJob(c: JobConfig, pwd: string, w: World, h: Host) returns (r: JobResult)
    ensures r == Job(c, pwd, w, h)
  {
    var s := AssembleCommands(c, w);
    if s.Err? {
      return JobResult(Some(s.error), None, None);
    }
    var _, file := WriteShellScript(pwd, s.value, h.openError);
    var err, plan := RunBuildInDocker(pwd, c.runOn, h);
    r := JobResult(err, file, plan);
  }

  /** Failing to write the script changes neither the error returned nor
      the container asked for: the container runs whatever ./vulcan.sh is
      already there, or none. */
  lemma WriteErrorIgnored(c: JobConfig, pwd: string, w: World, h: Host, e: string)
    ensures var r, r' := Job(c, pwd, w, h.(openError := Some(e))), Job(c, pwd, w, h.(openError := None));
      r.err == r'.err && r.plan == r'.plan && r.script == None
  {
  }
}
