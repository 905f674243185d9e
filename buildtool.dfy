/** cmd/buildtool/run_job.go: the runner that turns a whole job into one
    shell script, `<pwd>/<jobId>.sh`, and runs it with `/bin/sh` in a
    container of the job's image with every top-level entry of the working
    directory bound under /workdir. The `run` text of a step gives one
    command per line, its `use` one plugin command line; every command is a
    text/template rendered in the job's `args` overridden by the step's
    `with`. Rendering and map iteration order are the `render` and `order`
    fields of the executor's World; its other fields play no part here. */
module BuildTool {
  import opened Wrappers
  import opened GoStrings
  import opened GoPath
  import opened Config
  import opened Executor
  import opened Container
  import opened ShellScript
  import opened JobPlan

  // ---------------------------------------------------------------- one step

  /** The pieces of a `run` text: split on newlines, each piece trimmed. */
  function RunPieces(text: string): (r: seq<string>)
    ensures |r| == |Split(text, '\n')|
  {
    var parts := Split(text, '\n');
    seq(|parts|, j requires 0 <= j < |parts| => TrimSpace(parts[j]))
  }

  /** The templates of a step: the pieces of its trimmed `run` text, else
      its plugin command line, else none. */
  function Templates(step: StepConfig, w: World): Option<seq<string>> {
    var run := TrimSpace(step.run);
    var use := TrimSpace(step.use);
    if run != [] then Some(RunPieces(run))
    else if use != [] then Some([UseLine(use, step.with, w)])
    else None
  }

  /** Rendering the templates from position `i` on, after `acc`, until one
      fails. */
  function RenderFrom(ts: seq<string>, i: nat, scope: Scope, render: (string, Scope) -> Result<string>, acc: seq<string>): Result<seq<string>>
    requires i <= |ts|
    decreases |ts| - i
  {
    if i == |ts| then Ok(acc)
    else
      var r := render(ts[i], scope);
      if r.Err? then Err(r.error) else RenderFrom(ts, i + 1, scope, render, acc + [r.value])
  }

  /** The lines a step adds to the script: the line announcing it, then its
      rendered templates; a step without `run` and `use` is refused. */
  function StepLines(step: StepConfig, global: Scope, w: World): Result<seq<string>> {
    var ts := Templates(step, w);
    if ts.None? then Err(StepNotSpecified)
    else
      var r := RenderFrom(ts.value, 0, LocalArgs(global, step), w.render, []);
      if r.Err? then r else Ok([EchoStep(step.name)] + r.value)
  }

  /** StepLines as a function value, for the assembly over the steps. */
  function StepScripts(global: Scope, w: World): StepConfig -> Result<seq<string>> {
    step => StepLines(step, global, w)
  }

  /** The commands of the whole job, or the first error. */
  function JobScript(c: JobConfig, w: World): Result<seq<string>> {
    ScriptRun(c.steps, 0, StepScripts(JobArgs(c), w), [])
  }

  /** Rendering succeeds exactly when every template renders, and then gives
      the rendered templates in order after `acc`. */
  lemma {:induction false} RenderFromSpec(ts: seq<string>, i: nat, scope: Scope, render: (string, Scope) -> Result<string>, acc: seq<string>)
    requires i <= |ts|
    ensures var r := RenderFrom(ts, i, scope, render, acc);
      (r.Ok? <==> forall j :: i <= j < |ts| ==> render(ts[j], scope).Ok?)
      && (r.Ok? ==> |r.value| == |acc| + |ts| - i && r.value[..|acc|] == acc
                    && forall j :: i <= j < |ts| ==> r.value[|acc| + j - i] == render(ts[j], scope).value)
    decreases |ts| - i
  {
    if i < |ts| && render(ts[i], scope).Ok? {
      var acc' := acc + [render(ts[i], scope).value];
      RenderFromSpec(ts, i + 1, scope, render, acc');
      var r := RenderFrom(ts, i + 1, scope, render, acc');
      if r.Ok? {
        assert r.value[..|acc|] == r.value[..|acc'|][..|acc|];
      }
    }
  }

  /** A step without `run` and `use` is refused; otherwise its lines, when
      every template renders, are the line announcing it followed by each
      template rendered in the job's `args` overridden by its `with`. */
  lemma StepLinesSpec(step: StepConfig, global: Scope, w: World)
    ensures IsBlank(step.run) && IsBlank(step.use) ==> StepLines(step, global, w) == Err(StepNotSpecified)
    ensures var ts := Templates(step, w); var r := StepLines(step, global, w);
      ts.Some? ==>
        ((r.Ok? <==> forall j :: 0 <= j < |ts.value| ==> w.render(ts.value[j], LocalArgs(global, step)).Ok?)
        && (r.Ok? ==>
              |r.value| == |ts.value| + 1 && r.value[0] == EchoStep(step.name)
              && forall j :: 0 <= j < |ts.value| ==> r.value[j + 1] == w.render(ts.value[j], LocalArgs(global, step)).value))
  {
    var ts := Templates(step, w);
    if ts.Some? {
      RenderFromSpec(ts.value, 0, LocalArgs(global, step), w.render, []);
    }
  }

  /** A run text of one line gives that line as the step's one template. */
  lemma OneLineRun(step: StepConfig, w: World)
    requires TrimSpace(step.run) != [] && '\n' !in TrimSpace(step.run)
    ensures Templates(step, w) == Some([TrimSpace(step.run)])
  {
    var run := TrimSpace(step.run);
    SplitNoSeparator(run, '\n');
    TrimSpaceIdempotent(step.run);
    assert RunPieces(run) == [TrimSpace(run)];
  }

  /** The loop that splits a `run` text into trimmed pieces. */
  method SplitRun(text: string) returns (run: seq<string>)
    ensures run == RunPieces(text)
  {
    var parts := Split(text, '\n');
    run := [];
    for i := 0 to |parts|
      invariant |run| == i
      invariant forall j :: 0 <= j < i ==> run[j] == TrimSpace(parts[j])
    {
      run := run + [TrimSpace(parts[i])];
    }
  }

  method StepTemplates(step: StepConfig, w: World) returns (run: Option<seq<string>>)
    ensures run == Templates(step, w)
  {
    var v := TrimSpace(step.run);
    if v != [] {
      var pieces := SplitRun(v);
      return Some(pieces);
    }
    v := TrimSpace(step.use);
    if v != [] {
      var line := BuildUseLine(v, step.with, w);
      return Some([line]);
    }
    return None;
  }

  /** One pass of the loop over the steps: the step's variables, its
      templates, then each template rendered in turn. */
  method StepCommands(step: StepConfig, global: Scope, w: World) returns (r: Result<seq<string>>)
    ensures r == StepLines(step, global, w)
  {
    var args := BuildLocalArgs(global, step);
    var run := StepTemplates(step, w);
    if run.None? {
      return Err(StepNotSpecified);
    }
    var ts := run.value;
    var rendered: seq<string> := [];
    for i := 0 to |ts|
      invariant RenderFrom(ts, i, args, w.render, rendered) == RenderFrom(ts, 0, args, w.render, [])
    {
      var out := w.render(ts[i], args);
      if out.Err? {
        return Err(out.error);
      }
      rendered := rendered + [out.value];
    }
    r := Ok([EchoStep(step.name)] + rendered);
  }

  /** The loop over the steps that collects the script's commands. */
  method AssembleScript(c: JobConfig, w: World) returns (r: Result<seq<string>>)
    ensures r == JobScript(c, w)
  {
    var global := CopyJobArgs(c);
    ghost var lines := StepScripts(global, w);
    var contents: seq<string> := [];
    for i := 0 to |c.steps|
      invariant ScriptRun(c.steps, i, lines, contents) == ScriptRun(c.steps, 0, lines, [])
    {
      var s := StepCommands(c.steps[i], global, w);
      assert s == lines(c.steps[i]);
      if s.Err? {
        return Err(s.error);
      }
      contents := contents + s.value;
    }
    r := Ok(contents);
  }

  // ---------------------------------------------------------------- the container

  /** The container of a job: the job's image running the script under
      /workdir with a terminal and its output attached. */
  function BuildConfig(jobId: string, image: string): ContainerConfig {
    ContainerConfig(image, ["/bin/sh", "-c", JoinPath([WorkDir, jobId + ".sh"])], WorkDir, true, true)
  }

  /** runBuildInDocker: a ReadDir error is returned before any container is
      asked for; otherwise the container runs and any non-zero exit code is
      a failure. */
  function BuildInDocker(jobId: string, image: string, pwd: string, verbose: bool, h: Host): (Option<string>, Option<Plan>) {
    if h.listing.Err? then (Some(h.listing.error), None)
    else (RunContainer(NonZeroFails, verbose, h.daemon).err, Some(Plan(BuildConfig(jobId, image), Binds(pwd, WorkDir, h.listing.value))))
  }

  method RunBuildInDocker(jobId: string, image: string, pwd: string, verbose: bool, h: Host) returns (err: Option<string>, plan: Option<Plan>)
    ensures (err, plan) == BuildInDocker(jobId, image, pwd, verbose, h)
  {
    if h.listing.Err? {
      return Some(h.listing.error), None;
    }
    var mounts := ListBinds(pwd, WorkDir, h.listing.value);
    var shFile := JoinPath([WorkDir, jobId + ".sh"]);
    var config := ContainerConfig(image, ["/bin/sh", "-c", shFile], WorkDir, true, true);
    err := RunContainer(NonZeroFails, verbose, h.daemon).err;
    plan := Some(Plan(config, mounts));
  }

  // ---------------------------------------------------------------- the job

  /** runJob: the commands, the script file (removed again once the
      container has run), then the container. */
  function Job(c: JobConfig, pwd: string, verbose: bool, w: World, h: Host): JobResult {
    var s := JobScript(c, w);
    if s.Err? then JobResult(Some(s.error), None, None)
    else if h.openError.Some? then JobResult(h.openError, None, None)
    else
      var script := Some(ScriptFile(JoinPath([pwd, c.id + ".sh"]), ScriptContent(s.value)));
      var (err, plan) := BuildInDocker(c.id, c.runOn, pwd, verbose, h);
      JobResult(err, script, plan)
  }

  method RunJob(c: JobConfig, pwd: string, verbose: bool, w: World, h: Host) returns (r: JobResult)
    ensures r == Job(c, pwd, verbose, w, h)
  {
    var s := AssembleScript(c, w);
    if s.Err? {
      return JobResult(Some(s.error), None, None);
    }
    var p, err, file := WriteShellScript(pwd, c.id, s.value, h.openError);
    if err.Some? {
      return JobResult(err, None, None);
    }
    var plan;
    err, plan := RunBuildInDocker(c.id, c.runOn, pwd, verbose, h);
    r := JobResult(err, file, plan);
  }

  /** A job with a step that has neither `run` nor `use` writes no script
      and starts no container unless an earlier step fails first; every
      written script holds the lines of all steps in order, and a container
      is asked for only once the script is written, running
      `/bin/sh -c /workdir/<jobId>.sh` over one bind per listed entry, and
      its outcome is the job's. */
  lemma JobSpec(c: JobConfig, pwd: string, verbose: bool, w: World, h: Host)
    ensures var r := Job(c, pwd, verbose, w, h);
      (r.script.Some? ==> forall step <- c.steps :: !IsBlank(step.run) || !IsBlank(step.use))
      && (r.script.Some? ==> r.script.value == ScriptFile(JoinPath([pwd, c.id + ".sh"]), ScriptContent(Flat(c.steps, StepScripts(JobArgs(c), w)))))
      && (r.plan.Some? ==>
            r.script.Some? && h.listing.Ok?
            && r.plan.value == Plan(BuildConfig(c.id, c.runOn), Binds(pwd, WorkDir, h.listing.value))
            && r.err == RunContainer(NonZeroFails, verbose, h.daemon).err)
  {
    var f := StepScripts(JobArgs(c), w);
    ScriptRunSpec(c.steps, 0, f, []);
    assert c.steps[0..] == c.steps;
    assert [] + Flat(c.steps, f) == Flat(c.steps, f);
    forall step <- c.steps
      ensures JobScript(c, w).Ok? ==> !IsBlank(step.run) || !IsBlank(step.use)
    {
      StepLinesSpec(step, JobArgs(c), w);
    }
  }
}
