/** builtin/executor.go: the in-container executor. RunVExec selects one
    job of the project configuration; runJob runs its steps in order, each
    with its own variable scope, and folds the outputs a step left in its
    output file into the scope of the later steps; runCommandLine renders
    one command line as a template, tokenizes it and runs the first
    non-blank token as the program.

    Everything the executor asks of the outside world is a field of
    `World`; every command it starts is recorded, with the scope it was
    rendered in, as a `Call`. */
module Executor {
  import opened Wrappers
  import opened GoStrings
  import opened CommandLine
  import opened Config
  import opened Output
  import opened GoPath

  type Scope = map<string, string>

  /** The step's output file as Stat and ReadFile find it once the step's
      commands have run. */
  datatype StepFile = StatFailed(error: string) | IsDirectory | ReadFailed(error: string) | Data(text: string)

  /** The outside world: text/template rendering, starting a program and
      waiting for it, os.ExpandEnv, the iteration order of a map, and the
      results of the file operations on the output directory and on the
      output file of the step at each position. */
  datatype Oracles = Oracles(
    render: (string, Scope) -> Result<string>,
    run: (string, seq<string>) -> Option<string>,
    expand: string -> string,
    order: Scope -> seq<string>,
    mkdirError: Option<string>,
    createError: nat -> Option<string>,
    stepFile: nat -> StepFile)

  /** `order` lists every key of `m` exactly once. */
  predicate Enumerates(order: seq<string>, m: Scope) {
    (forall k <- order :: k in m) && (forall k <- m :: k in order)
    && forall i, j :: 0 <= i < j < |order| ==> order[i] != order[j]
  }

  /** Go visits every key of a map exactly once. */
  ghost predicate OrderOk(w: Oracles) {
    forall m: Scope {:trigger w.order(m)} :: Enumerates(w.order(m), m)
  }

  /** Some enumeration of the keys of `m`. */
  ghost function KeyList(m: Scope): (r: seq<string>)
    ensures Enumerates(r, m)
    decreases |m.Keys|
  {
    if m.Keys == {} then []
    else
      var k :| k in m.Keys;
      var rest := KeyList(m - {k});
      assert k !in rest;
      [k] + rest
  }

  /** The oracles of a run, iterating maps as Go does. */
  type World = w: Oracles | OrderOk(w)
    ghost witness Oracles((t, s) => Err([]), (p, a) => None, e => e, KeyList, None, i => None, i => IsDirectory)

  /** One call of runCommandLine: the command line and the scope it is
      rendered in. */
  datatype Call = Call(line: string, scope: Scope)

  /** What running some steps gives: the error that stopped them, the
      commands started, and the job-level variables at the end. */
  datatype Outcome = Outcome(err: Option<string>, calls: seq<Call>, global: Scope)

  const ConfigMissing: string := "path of config file is missing"
  const JobIdMissing: string := "job id is missing"
  const NeitherRunNorUse: string := "either run or use must be specified"

  function NotFile(stepId: string): string {
    "output of step " + stepId + " is not file"
  }

  // ---------------------------------------------------------------- runCommandLine

  /** One past the first token at or after `i` that is not blank once
      trimmed, or 0 when there is none: where the program's arguments start. */
  function ExecStart(argv: seq<string>, i: nat): (k: nat)
    requires i <= |argv|
    ensures k == 0 ==> forall j :: i <= j < |argv| ==> IsBlank(argv[j])
    ensures k != 0 ==> (i < k <= |argv| && !IsBlank(argv[k - 1])
                        && forall j :: i <= j < k - 1 ==> IsBlank(argv[j]))
    decreases |argv| - i
  {
    if i == |argv| then 0
    else if TrimSpace(argv[i]) != [] then i + 1
    else ExecStart(argv, i + 1)
  }

  /** The program: the first non-blank token, trimmed, or "". */
  function ExecName(argv: seq<string>): string {
    var k := ExecStart(argv, 0);
    if k == 0 then [] else TrimSpace(argv[k - 1])
  }

  /** What runCommandLine returns for `line` in `scope`: a template error, a
      tokenizer error, or the program's result. */
  function CommandOutcome(line: string, scope: Scope, w: World): Option<string> {
    match w.render(TrimSpace(line), scope)
    case Err(e) => Some(e)
    case Ok(text) =>
      match Tokenize(text)
      case Err(e) => Some(e)
      case Ok(argv) => w.run(ExecName(argv), argv[ExecStart(argv, 0)..])
  }

  /** The selection loop of runCommandLine. */
  method SelectExec(argv: seq<string>) returns (execFile: string, argStart: nat)
    ensures argStart <= |argv|
    ensures argStart == ExecStart(argv, 0) && execFile == ExecName(argv)
  {
    execFile, argStart := [], 0;
    var i := 0;
    while i < |argv|
      invariant 0 <= i <= |argv|
      invariant ExecStart(argv, i) == ExecStart(argv, 0)
      invariant execFile == [] && argStart == 0
    {
      execFile := TrimSpace(argv[i]);
      if execFile != [] {
        argStart := i + 1;
        assert ExecStart(argv, i) == i + 1;
        break;
      }
      i := i + 1;
    }
    // The source then clamps the start to len(argv); the first ensures
    // shows the clamp never fires.
  }

  method RunCommandLine(cmdLine: string, scope: Scope, w: World) returns (err: Option<string>)
    ensures err == CommandOutcome(cmdLine, scope, w)
  {
    var line := TrimSpace(cmdLine);
    var rendered := w.render(line, scope);
    if rendered.Err? {
      return Some(rendered.error);
    }
    var parsed := ParseCommandLine(rendered.value);
    if parsed.Err? {
      return Some(parsed.error);
    }
    var cmdArgs := parsed.value;
    var execFile, argStart := SelectExec(cmdArgs);
    err := w.run(execFile, cmdArgs[argStart..]);
  }

  // ---------------------------------------------------------------- scopes

  /** A fresh map holding `base` overridden by `top`, filled key by key as
      the source's copy loops do. */
  method Overlay(base: Scope, top: Scope) returns (r: Scope)
    ensures r.Keys == base.Keys + top.Keys
    ensures forall k :: k in top ==> r[k] == top[k]
    ensures forall k :: k in base && k !in top ==> r[k] == base[k]
    ensures r == base + top
  {
    r := base;
    var pending := top.Keys;
    while pending != {}
      invariant pending <= top.Keys
      invariant r.Keys == base.Keys + (top.Keys - pending)
      invariant forall k :: k in top && k !in pending ==> r[k] == top[k]
      invariant forall k :: k in base && (k !in top || k in pending) ==> r[k] == base[k]
      decreases pending
    {
      var k :| k in pending;
      r := r[k := top[k]];
      pending := pending - {k};
    }
    assert r == base + top;
  }

  /** The scope of a step: the job-level variables overridden by the step's
      own `args`, environment-expanded. */
  function StepScope(global: Scope, step: StepConfig, expand: string -> string): Scope {
    if step.args.Some? then global + Expanded(step.args.value, expand) else global
  }

  // ---------------------------------------------------------------- run mode

  /** runCommandLine as a function value, so that the steps can be stated
      without unfolding the tokenizer. */
  function Commands(w: World): (string, Scope) -> Option<string> {
    (line, scope) => CommandOutcome(line, scope, w)
  }

  /** One call of runCommandLine, seen through `Commands`. */
  method RunLine(line: string, scope: Scope, w: World, ghost cmd: (string, Scope) -> Option<string>) returns (err: Option<string>)
    requires cmd == Commands(w)
    ensures err == cmd(line, scope)
  {
    err := RunCommandLine(line, scope, w);
  }

  /** Running the lines of a `run` text from position `i` in order until
      one fails, after the commands `done` were started. */
  function LinesRun(lines: seq<string>, i: nat, scope: Scope, cmd: (string, Scope) -> Option<string>, done: seq<Call>): (Option<string>, seq<Call>)
    requires i <= |lines|
    decreases |lines| - i
  {
    if i == |lines| then (None, done)
    else
      var e := cmd(lines[i], scope);
      if e.Some? then (e, done + [Call(lines[i], scope)])
      else LinesRun(lines, i + 1, scope, cmd, done + [Call(lines[i], scope)])
  }

  method RunLines(lines: seq<string>, scope: Scope, w: World) returns (err: Option<string>, calls: seq<Call>)
    ensures (err, calls) == LinesRun(lines, 0, scope, Commands(w), [])
  {
    ghost var cmd := Commands(w);
    calls := [];
    var i := 0;
    while i < |lines|
      invariant 0 <= i <= |lines|
      invariant LinesRun(lines, i, scope, cmd, calls) == LinesRun(lines, 0, scope, cmd, [])
    {
      err := RunLine(lines[i], scope, w, cmd);
      calls := calls + [Call(lines[i], scope)];
      if err.Some? {
        return;
      }
      i := i + 1;
    }
    err := None;
  }

  // ---------------------------------------------------------------- use mode

  /** The flag a `with` entry becomes on the plugin's command line. */
  function Fragment(k: string, v: string): string {
    "--" + k + "=" + v + " "
  }

  /** The fragments of `with` in the order `order`. */
  function Fragments(order: seq<string>, with: Scope): (r: seq<string>)
    requires forall k <- order :: k in with
    ensures |r| == |order|
    ensures forall i :: 0 <= i < |order| ==> r[i] == Fragment(order[i], with[order[i]])
    decreases |order|
  {
    if order == [] then [] else Fragments(order[..|order| - 1], with) + [Fragment(order[|order| - 1], with[order[|order| - 1]])]
  }

  /** The plugin command line: the trimmed `use`, a space, and one fragment
      per `with` entry in the map's iteration order. */
  function UseLine(use: string, with: Option<Scope>, w: World): string
  {
    if with.None? then use + " "
    else
      assert Enumerates(w.order(with.value), with.value);
      use + " " + Concat(Fragments(w.order(with.value), with.value))
  }

  /** The strings.Builder loop that writes the plugin command line. */
  method BuildUseLine(use: string, with: Option<Scope>, w: World) returns (line: string)
    ensures line == UseLine(use, with, w)
  {
    line := use + " ";
    if with.Some? {
      var order := w.order(with.value);
      assert Enumerates(order, with.value);
      var i := 0;
      while i < |order|
        invariant 0 <= i <= |order|
        invariant line == use + " " + Concat(Fragments(order[..i], with.value))
      {
        assert order[..i + 1][..i] == order[..i];
        var f := Fragment(order[i], with.value[order[i]]);
        ConcatAppend(Fragments(order[..i], with.value), f);
        Regroup(use, " ", Concat(Fragments(order[..i], with.value)), f);
        line := line + f;
        i := i + 1;
      }
      assert order[..i] == order;
    }
  }

  /** The panic of calling ReplaceEnv through a nil *ArgsConfig. */
  const NilArgsPanic: string := "runtime error: invalid memory address or nil pointer dereference"

  /** In use mode with `with`, runJob calls ReplaceEnv on the step's
      `args`, which dereferences a nil pointer when they are absent. */
  predicate ReachesNilArgs(step: StepConfig) {
    IsBlank(step.run) && !IsBlank(step.use) && step.with.Some? && step.args.None?
  }

  /** The commands a step starts in `scope` and the error that stopped them;
      the nil-pointer panic ends the step before its plugin runs. */
  function StepCalls(step: StepConfig, scope: Scope, w: World): (r: (Option<string>, seq<Call>))
  {
    if TrimSpace(step.run) != [] then LinesRun(Split(TrimSpace(step.run), '\n'), 0, scope, Commands(w), [])
    else if TrimSpace(step.use) != [] then
      if step.with.Some? && step.args.None? then (Some(NilArgsPanic), [])
      else
        var line := UseLine(TrimSpace(step.use), step.with, w);
        var scope' := if step.with.Some? then scope + step.with.value else scope;
        (Commands(w)(line, scope'), [Call(line, scope')])
    else (Some(NeitherRunNorUse), [])
  }

  // ---------------------------------------------------------------- outputs

  /** What an output line assigns: the text after the first '=' (parts[1]
      when there are two parts, the rest rejoined with '=' otherwise). */
  function OutputValue(line: string): string {
    var parts := Split(line, '=');
    if |parts| == 2 then parts[1] else Join(parts[1..], '=')
  }

  /** The job-level variables after reading the output lines of step `id`:
      each line with '=' sets steps_<id>_outputs_<key>; the others are
      ignored. */
  function FoldOutputs(global: Scope, id: string, lines: seq<string>): Scope
    decreases |lines|
  {
    if lines == [] then global
    else
      var g := FoldOutputs(global, id, lines[..|lines| - 1]);
      var line := lines[|lines| - 1];
      var parts := Split(line, '=');
      if |parts| >= 2 then g[OutputKey(id, parts[0]) := OutputValue(line)] else g
  }

  method ReadOutputs(global: Scope, id: string, data: string) returns (g: Scope)
    ensures g == FoldOutputs(global, id, Split(data, '\n'))
  {
    var lines := Split(data, '\n');
    g := global;
    var i := 0;
    while i < |lines|
      invariant 0 <= i <= |lines|
      invariant g == FoldOutputs(global, id, lines[..i])
    {
      assert lines[..i + 1][..i] == lines[..i];
      var line := lines[i];
      var parts := Split(line, '=');
      if |parts| == 2 {
        g := g[OutputKey(id, parts[0]) := parts[1]];
      } else if |parts| > 2 {
        g := g[OutputKey(id, parts[0]) := Join(parts[1..], '=')];
      }
      i := i + 1;
    }
    assert lines[..i] == lines;
  }

  // ---------------------------------------------------------------- steps and jobs

  /** What follows a step's commands `sc`: their error, or, for a step
      with an id, reading its output file into the job-level variables. */
  function AfterCommands(id: string, f: StepFile, global: Scope, sc: (Option<string>, seq<Call>)): Outcome {
    if sc.0.Some? then Outcome(sc.0, sc.1, global)
    else if id == [] then Outcome(None, sc.1, global)
    else match f
      case StatFailed(e) => Outcome(Some(e), sc.1, global)
      case IsDirectory => Outcome(Some(NotFile(id)), sc.1, global)
      case ReadFailed(e) => Outcome(Some(e), sc.1, global)
      case Data(text) => Outcome(None, sc.1, FoldOutputs(global, id, Split(text, '\n')))
  }

  /** One pass of runJob's step loop for the step at position `idx`. */
  function StepRun(step: StepConfig, idx: nat, global: Scope, w: World): Outcome
  {
    if step.id != [] && w.createError(idx).Some? then Outcome(w.createError(idx), [], global)
    else AfterCommands(step.id, w.stepFile(idx), global, StepCalls(step, StepScope(global, step, w.expand), w))
  }

  /** The pass over one step as a function value, so that the run of the
      step list can be stated for any world. */
  function Steps(w: World): (StepConfig, nat, Scope) -> Outcome {
    (step: StepConfig, idx: nat, global: Scope) => StepRun(step, idx, global, w)
  }

  /** The steps from position `i` on, after commands `calls` were started;
      `run` is one pass of the loop. */
  function StepsRun(steps: seq<StepConfig>, i: nat, global: Scope, run: (StepConfig, nat, Scope) -> Outcome, calls: seq<Call>): Outcome
    requires i <= |steps|
    decreases |steps| - i
  {
    if i == |steps| then Outcome(None, calls, global)
    else
      var o := run(steps[i], i, global);
      if o.err.Some? then Outcome(o.err, calls + o.calls, o.global)
      else StepsRun(steps, i + 1, o.global, run, calls + o.calls)
  }

  /** runJob: the job-level variables start as a copy of the job's `args`. */
  function JobRun(c: JobConfig, w: World): Outcome
  {
    var global := if c.args.Some? then c.args.value else map[];
    if w.mkdirError.Some? then Outcome(w.mkdirError, [], global)
    else StepsRun(c.steps, 0, global, Steps(w), [])
  }

  /** The commands of one step, run in the step's scope. */
  method RunStepCommands(step: StepConfig, scope: Scope, w: World) returns (err: Option<string>, calls: seq<Call>)
    ensures (err, calls) == StepCalls(step, scope, w)
  {
    var run := TrimSpace(step.run);
    var use := TrimSpace(step.use);
    if run != [] {
      err, calls := RunLines(Split(run, '\n'), scope, w);
    } else if use != [] {
      var cmdLine := BuildUseLine(use, step.with, w);
      var args := scope;
      if step.with.Some? {
        if step.args.None? {
          return Some(NilArgsPanic), [];
        }
        args := Overlay(args, step.with.value);
      }
      err := RunLine(cmdLine, args, w, Commands(w));
      calls := [Call(cmdLine, args)];
    } else {
      err, calls := Some(NeitherRunNorUse), [];
    }
  }

  /** Reading the step's output file once its commands have succeeded. */
  method ReadStepFile(f: StepFile, id: string, calls: seq<Call>, global: Scope) returns (o: Outcome)
    requires id != []
    ensures o == AfterCommands(id, f, global, (None, calls))
  {
    match f
    case StatFailed(e) => o := Outcome(Some(e), calls, global);
    case IsDirectory => o := Outcome(Some(NotFile(id)), calls, global);
    case ReadFailed(e) => o := Outcome(Some(e), calls, global);
    case Data(text) =>
      var g := ReadOutputs(global, id, text);
      o := Outcome(None, calls, g);
  }

  /** The body of runJob's step loop. */
  method RunStep(step: StepConfig, idx: nat, global: Scope, w: World) returns (o: Outcome)
    ensures o == StepRun(step, idx, global, w)
  {
    var args := Overlay(map[], global);
    if step.args.Some? {
      var expanded, _ := ReplaceEnv(step.args.value, w.expand);
      args := Overlay(args, expanded);
    }
    assert args == StepScope(global, step, w.expand);
    if step.id != [] && w.createError(idx).Some? {
      return Outcome(w.createError(idx), [], global);
    }
    var err, calls := RunStepCommands(step, args, w);
    if err.Some? {
      return Outcome(err, calls, global);
    }
    if step.id == [] {
      return Outcome(None, calls, global);
    }
    o := ReadStepFile(w.stepFile(idx), step.id, calls, global);
  }

  /** runJob. */
  method RunJob(c: JobConfig, w: World) returns (o: Outcome)
    ensures o == JobRun(c, w)
  {
    var globalArgs: Scope := map[];
    if c.args.Some? {
      globalArgs := Overlay(globalArgs, c.args.value);
      assert globalArgs == c.args.value;
    }
    if w.mkdirError.Some? {
      return Outcome(w.mkdirError, [], globalArgs);
    }
    ghost var run := Steps(w);
    var calls: seq<Call> := [];
    var i := 0;
    while i < |c.steps|
      invariant 0 <= i <= |c.steps|
      invariant StepsRun(c.steps, i, globalArgs, run, calls) == JobRun(c, w)
    {
      assert c.steps[i] in c.steps;
      var so := RunStep(c.steps[i], i, globalArgs, w);
      assert so == run(c.steps[i], i, globalArgs);
      calls := calls + so.calls;
      if so.err.Some? {
        return Outcome(so.err, calls, so.global);
      }
      globalArgs := so.global;
      i := i + 1;
    }
    o := Outcome(None, calls, globalArgs);
  }

  /** RunVExec, given the two flags, what ReadProjectConfig meets, and the
      world. Only the job whose key is the trimmed id runs, with its `args`
      expanded and its id set; no such job is not an error. */
  method RunVExec(configFlag: string, jobIdFlag: string, notExist: bool, read: Result<string>,
                  unmarshal: string -> Result<ProjectConfig>, w: World) returns (err: Option<string>, calls: seq<Call>)
    ensures IsBlank(configFlag) ==> err == Some(ConfigMissing) && calls == []
    ensures !IsBlank(configFlag) && IsBlank(jobIdFlag) ==> err == Some(JobIdMissing) && calls == []
    ensures !IsBlank(configFlag) && !IsBlank(jobIdFlag) ==>
      var pc := ReadProjectConfig(notExist, read, unmarshal);
      var id := TrimSpace(jobIdFlag);
      if pc.Err? then err == Some(pc.error) && calls == []
      else if id !in pc.value.jobs then err == None && calls == []
      else
        var c := pc.value.jobs[id];
        var job := c.(id := id, args := if c.args.Some? then Some(Expanded(c.args.value, w.expand)) else None);
        var o := JobRun(job, w);
        err == o.err && calls == o.calls
  {
    calls := [];
    var configFile := TrimSpace(configFlag);
    if configFile == [] {
      return Some(ConfigMissing), calls;
    }
    var jobId := TrimSpace(jobIdFlag);
    if jobId == [] {
      return Some(JobIdMissing), calls;
    }
    var config := ReadProjectConfig(notExist, read, unmarshal);
    if config.Err? {
      return Some(config.error), calls;
    }
    var jobs := config.value.jobs;
    var pending := jobs.Keys;
    err := None;
    while pending != {}
      invariant pending <= jobs.Keys
      invariant jobId in pending || jobId !in jobs ==> err == None && calls == []
      invariant jobId in jobs && jobId !in pending ==>
        var c := jobs[jobId];
        var job := c.(id := jobId, args := if c.args.Some? then Some(Expanded(c.args.value, w.expand)) else None);
        err == JobRun(job, w).err && calls == JobRun(job, w).calls
      decreases pending
    {
      var k :| k in pending;
      pending := pending - {k};
      if k != jobId {
        continue;
      }
      var c := jobs[k];
      c := c.(id := jobId);
      if c.args.Some? {
        var expanded, _ := ReplaceEnv(c.args.value, w.expand);
        c := c.(args := Some(expanded));
      }
      var o := RunJob(c, w);
      calls := o.calls;
      if o.err.Some? {
        return o.err, calls;
      }
    }
  }
}
