/** The container run that ends runBuildInDocker (cmd/buildtool/run_job.go
    and run_job.go) and runJob (cmd/vlocal/run_job.go): create the
    container, start it, then either follow its logs (verbose) or wait for
    it and classify how it ended. The Docker calls are reduced to what the
    daemon hands back. */
module Container {
  import opened Wrappers

  /** A bind mount: a host path and the container path it appears at. */
  datatype Mount = Mount(source: string, target: string)

  /** The container.Config fields the runners set; the process environment
      passed as Env is not modelled. */
  datatype ContainerConfig = ContainerConfig(image: string, cmd: seq<string>, workingDir: string, tty: bool, attachStdout: bool)

  /** Which channel of ContainerWait delivers first: the error channel (its
      value may be nil) or the status channel with the exit code. */
  datatype WaitOutcome = WaitError(error: Option<string>) | Exited(code: int)

  /** What the daemon answers: the errors of ContainerCreate, ContainerStart
      and of the following ContainerLogs call in verbose mode, how the wait
      ends, and the log text ContainerLogs and StdCopy give (or the error of
      either). */
  datatype Daemon = Daemon(
    createError: Option<string>,
    startError: Option<string>,
    followError: Option<string>,
    wait: WaitOutcome,
    logs: Result<string>)

  /** The exit codes a runner counts as a failed build: any non-zero code
      (cmd/buildtool) or exactly 1 (run_job.go, cmd/vlocal). */
  datatype StatusRule = NonZeroFails | OneFails

  predicate FailedStatus(rule: StatusRule, code: int) {
    match rule
    case NonZeroFails => code != 0
    case OneFails => code == 1
  }

  /** The grace period ContainerStop is given after a wait error. */
  const StopGraceSeconds: nat := 30

  /** What the run leaves behind: the error returned, whether a container
      was created (and so removed by the deferred RemoveAfterDone), and the
      grace period of the ContainerStop call, if one was made. */
  datatype RunResult = RunResult(err: Option<string>, created: bool, stop: Option<nat>)

  /** The decision once the container has been started. */
  function AfterStart(rule: StatusRule, verbose: bool, d: Daemon): RunResult {
    if verbose then RunResult(d.followError, true, None)
    else match d.wait
      case WaitError(e) =>
        if e.Some? then RunResult(e, true, Some(StopGraceSeconds)) else RunResult(None, true, None)
      case Exited(code) =>
        if !FailedStatus(rule, code) then RunResult(None, true, None)
        else if d.logs.Err? then RunResult(Some(d.logs.error), true, None)
        else RunResult(Some(d.logs.value), true, None)
  }

  /** Create, start, then follow or wait. */
  function RunContainer(rule: StatusRule, verbose: bool, d: Daemon): RunResult {
    if d.createError.Some? then RunResult(d.createError, false, None)
    else if d.startError.Some? then RunResult(d.startError, true, None)
    else AfterStart(rule, verbose, d)
  }

  /** The run succeeds exactly when the container is created and started
      and then, in verbose mode, its logs can be followed, or otherwise the
      wait delivers a nil error or an exit code the rule accepts. */
  lemma RunSucceeds(rule: StatusRule, verbose: bool, d: Daemon)
    ensures RunContainer(rule, verbose, d).err.None? <==>
      d.createError.None? && d.startError.None?
      && (if verbose then d.followError.None?
          else d.wait == WaitError(None) || (d.wait.Exited? && !FailedStatus(rule, d.wait.code)))
  {
  }

  /** A failing exit code is reported with the container's log text as the
      error (or the error of reading the logs). */
  lemma FailureCarriesLogs(rule: StatusRule, d: Daemon)
    requires d.createError.None? && d.startError.None?
    requires d.wait.Exited? && FailedStatus(rule, d.wait.code)
    ensures RunContainer(rule, false, d).err == Some(if d.logs.Ok? then d.logs.value else d.logs.error)
  {
  }

  /** The container is stopped, with a 30-second grace period, only after
      a non-nil wait error, which is then the error returned; a created
      container is always removed. */
  lemma StopOnlyOnWaitError(rule: StatusRule, verbose: bool, d: Daemon)
    ensures var r := RunContainer(rule, verbose, d);
      (r.stop.Some? <==> d.createError.None? && d.startError.None? && !verbose && d.wait.WaitError? && d.wait.error.Some?)
      && (r.stop.Some? ==> r.stop.value == 30 && r.err == d.wait.error)
      && (r.created <==> d.createError.None?)
  {
  }

  /** In verbose mode the exit status is never looked at: a build that
      fails inside a started container is reported as a success. */
  lemma VerboseIgnoresExit(rule: StatusRule, d: Daemon, code: int)
    requires d.createError.None? && d.startError.None? && d.followError.None?
    ensures RunContainer(rule, true, d.(wait := Exited(code))).err == None
  {
  }

  /** Under the rule of run_job.go and cmd/vlocal, only exit code 1 is a
      failure: a script that stops with code 2, 126 or 127 (command not
      found) under `set -e` is reported as a success, where the rule of
      cmd/buildtool reports it. */
  lemma OnlyOneFails(d: Daemon, code: int)
    requires d.createError.None? && d.startError.None? && d.wait == Exited(code)
    ensures RunContainer(OneFails, false, d).err.None? <==> code != 1
    ensures RunContainer(NonZeroFails, false, d).err.None? <==> code == 0
  {
  }
}
