/** cmd/vlocal/run_job.go: the local runner. It starts `/bin/vexec` (the
    executor) in a container of the job's image, with every file of the
    working tree bound under /workdir, each artifact `host:target` bound
    from the host path to the container path, and every toolchain binary
    bound under /bin. The file-system walk, the home and working
    directories, os.Stat and os.MkdirAll are answers of the host. */
module LocalRunner {
  import opened Wrappers
  import opened GoStrings
  import opened GoPath
  import opened Config
  import opened Container
  import opened JobPlan

  /** An entry filepath.Walk visits: its path (the root itself, then every
      file and directory below it) and whether it is a directory. */
  datatype WalkEntry = WalkEntry(path: string, isDir: bool)

  /** What os.Stat says of a host path. */
  datatype FileState = Present | Missing | Unreadable(error: string)

  /** What the host answers the runner: the walk of the working tree,
      os.UserHomeDir, os.Getwd (used by filepath.Abs), os.Stat and the error
      of os.MkdirAll per path, the listing of the toolchain directory, and
      the Docker daemon's answers. */
  datatype LocalHost = LocalHost(
    walk: seq<WalkEntry>,
    home: Result<string>,
    cwd: Result<string>,
    stat: string -> FileState,
    mkdirError: string -> Option<string>,
    toolchains: Result<seq<string>>,
    daemon: Daemon)

  const BinDir: string := "/bin"

  /** The home directory of the container's user. */
  const RootHome: string := "/root"

  // ---------------------------------------------------------------- the working tree

  /** The bind of a file the walk finds: its path under /workdir. */
  function WorkMount(pwd: string, path: string): Mount {
    Mount(path, JoinPath([WorkDir, TrimPrefix(path, pwd)]))
  }

  /** Whether the walk callback binds an entry: not the root, not a
      directory. */
  predicate IsWorkFile(pwd: string, e: WalkEntry) {
    e.path != pwd && !e.isDir
  }

  /** The binds of the walk, in walk order. */
  function WorkMounts(pwd: string, walk: seq<WalkEntry>): seq<Mount>
    decreases |walk|
  {
    if walk == [] then []
    else
      var e := walk[|walk| - 1];
      WorkMounts(pwd, walk[..|walk| - 1]) + (if IsWorkFile(pwd, e) then [WorkMount(pwd, e.path)] else [])
  }

  /** The walk callback, applied to every visited entry. */
  method WalkMounts(pwd: string, walk: seq<WalkEntry>) returns (mounts: seq<Mount>)
    ensures mounts == WorkMounts(pwd, walk)
  {
    mounts := [];
    for i := 0 to |walk|
      invariant mounts == WorkMounts(pwd, walk[..i])
    {
      assert walk[..i + 1][..i] == walk[..i];
      var e := walk[i];
      if e.path == pwd {
        continue;
      }
      if e.isDir {
        continue;
      }
      var f := TrimPrefix(e.path, pwd);
      mounts := mounts + [Mount(e.path, JoinPath([WorkDir, f]))];
    }
    assert walk[..|walk|] == walk;
  }

  /** Exactly the visited files other than the root are bound. */
  lemma {:induction false} WorkMountsFiles(pwd: string, walk: seq<WalkEntry>)
    ensures forall m <- WorkMounts(pwd, walk) :: exists e <- walk :: IsWorkFile(pwd, e) && m == WorkMount(pwd, e.path)
    ensures forall e <- walk :: IsWorkFile(pwd, e) ==> WorkMount(pwd, e.path) in WorkMounts(pwd, walk)
    decreases |walk|
  {
    if walk != [] {
      var front := walk[..|walk| - 1];
      var e := walk[|walk| - 1];
      WorkMountsFiles(pwd, front);
      assert forall x <- front :: x in walk;
      assert walk == front + [e];
    }
  }

  /** A file `rel` below the working directory is bound at /workdir/rel,
      with doubled slashes and "." pieces dropped. */
  lemma WorkMountUnder(pwd: string, rel: string)
    requires var t := Kept(Split(rel, '/')); t != [] && forall n <- t :: n != ".."
    ensures WorkMount(pwd, pwd + "/" + rel) == Mount(pwd + "/" + rel, "/workdir/" + Join(Kept(Split(rel, '/')), '/'))
  {
    var path := pwd + "/" + rel;
    assert HasPrefix(path, pwd) by {
      assert path[..|pwd|] == pwd;
    }
    var f := TrimPrefix(path, pwd);
    assert f == "/" + rel;
    LeadingSlashKept(rel);
    WorkDirClean();
    JoinUnder(WorkDir, f);
  }

  /** A leading slash adds no kept piece. */
  lemma LeadingSlashKept(rel: string)
    ensures Kept(Split("/" + rel, '/')) == Kept(Split(rel, '/'))
  {
    assert "/" + rel == [] + ['/'] + rel;
    SplitConcat([], '/', rel);
    KeptAppend([[]], Split(rel, '/'));
    assert Kept([[]]) == [];
  }

  // ---------------------------------------------------------------- artifacts

  /** The host side of an artifact: a leading '~' stands for the home
      directory. */
  function HostPath(host: string, home: Result<string>): Result<string> {
    if !HasPrefix(host, "~") then Ok(host)
    else if home.Err? then Err(home.error)
    else Ok(JoinPath([home.value, host[1..]]))
  }

  /** The container side of an artifact: kept when absolute, under /root
      when it starts with '~' (the '~' stays a path piece), under /workdir
      otherwise. */
  function TargetPath(target: string): string {
    if HasPrefix(target, "/") then target
    else if HasPrefix(target, "~") then JoinPath([RootHome, target])
    else JoinPath([WorkDir, target])
  }

  /** What one artifact gives: its bind; a stop of the whole job, with the
      error returned and the directory created, if any; or the panic of an
      artifact without ':' (parts[1] is out of range). */
  datatype ArtifactStep = Bound(mount: Mount) | Halt(err: Option<string>, created: Option<string>) | Crash

  function ResolveArtifact(spec: string, h: LocalHost): ArtifactStep {
    var parts := Split(spec, ':');
    if |parts| < 2 then Crash
    else
      var host := HostPath(TrimSpace(parts[0]), h.home);
      if host.Err? then Halt(Some(host.error), None)
      else
        var hAbs := Abs(host.value, h.cwd);
        var tAbs := Abs(TargetPath(TrimSpace(parts[1])), h.cwd);
        if hAbs.Err? then Halt(Some(hAbs.error), None)
        else if tAbs.Err? then Halt(Some(tAbs.error), None)
        else match h.stat(hAbs.value)
          case Present => Bound(Mount(hAbs.value, tAbs.value))
          case Missing =>
            var e := h.mkdirError(hAbs.value);
            Halt(e, if e.Some? then None else Some(hAbs.value))
          case Unreadable(e) => Halt(Some(e), None)
  }

  /** One pass of the artifact loop, reassigning `host` and `target` step by
      step. */
  method ArtifactMount(spec: string, h: LocalHost) returns (s: ArtifactStep)
    ensures s == ResolveArtifact(spec, h)
  {
    var parts := Split(spec, ':');
    if |parts| < 2 {
      return Crash;
    }
    var host := TrimSpace(parts[0]);
    var target := TrimSpace(parts[1]);
    if HasPrefix(host, "~") {
      if h.home.Err? {
        return Halt(Some(h.home.error), None);
      }
      host := JoinPath([h.home.value, host[1..]]);
    }
    if !HasPrefix(target, "/") {
      if HasPrefix(target, "~") {
        target := JoinPath([RootHome, target]);
      } else {
        target := JoinPath([WorkDir, target]);
      }
    }
    var hAbs := Abs(host, h.cwd);
    if hAbs.Err? {
      return Halt(Some(hAbs.error), None);
    }
    var tAbs := Abs(target, h.cwd);
    if tAbs.Err? {
      return Halt(Some(tAbs.error), None);
    }
    var st := h.stat(hAbs.value);
    if st.Missing? {
      var e := h.mkdirError(hAbs.value);
      if e.Some? {
        return Halt(e, None);
      }
      return Halt(None, Some(hAbs.value));
    }
    if st.Unreadable? {
      return Halt(Some(st.error), None);
    }
    s := Bound(Mount(hAbs.value, tAbs.value));
  }

  /** ResolveArtifact as a function value, for the loop over the artifacts. */
  function Resolver(h: LocalHost): string -> ArtifactStep {
    spec => ResolveArtifact(spec, h)
  }

  /** How the artifact loop ends: with all binds so far, or stopped. */
  datatype ArtifactsEnd = Through(mounts: seq<Mount>) | Stopped(halt: ArtifactStep)

  /** The artifacts from position `i` on, after the binds `acc`. */
  function ArtifactsRun(arts: seq<string>, i: nat, resolve: string -> ArtifactStep, acc: seq<Mount>): (r: ArtifactsEnd)
    requires i <= |arts|
    ensures r.Stopped? ==> !r.halt.Bound?
    decreases |arts| - i
  {
    if i == |arts| then Through(acc)
    else
      var s := resolve(arts[i]);
      if s.Bound? then ArtifactsRun(arts, i + 1, resolve, acc + [s.mount]) else Stopped(s)
  }

  method BindArtifacts(arts: seq<string>, h: LocalHost, mounts0: seq<Mount>) returns (r: ArtifactsEnd)
    ensures r == ArtifactsRun(arts, 0, Resolver(h), mounts0)
  {
    ghost var resolve := Resolver(h);
    var mounts := mounts0;
    for i := 0 to |arts|
      invariant ArtifactsRun(arts, i, resolve, mounts) == ArtifactsRun(arts, 0, resolve, mounts0)
    {
      var s := ArtifactMount(arts[i], h);
      assert s == resolve(arts[i]);
      if !s.Bound? {
        return Stopped(s);
      }
      mounts := mounts + [s.mount];
    }
    r := Through(mounts);
  }

  /** The loop gets through exactly when every artifact is bound, and then
      adds their binds in order; otherwise it stops at the first artifact
      that is not. */
  lemma {:induction false} ArtifactsRunSpec(arts: seq<string>, i: nat, resolve: string -> ArtifactStep, acc: seq<Mount>)
    requires i <= |arts|
    ensures var r := ArtifactsRun(arts, i, resolve, acc);
      (r.Through? <==> forall j :: i <= j < |arts| ==> resolve(arts[j]).Bound?)
      && (r.Through? ==>
            |r.mounts| == |acc| + |arts| - i && r.mounts[..|acc|] == acc
            && forall j :: i <= j < |arts| ==> r.mounts[|acc| + j - i] == resolve(arts[j]).mount)
      && (r.Stopped? ==> exists j :: i <= j < |arts| && r.halt == resolve(arts[j]) && !r.halt.Bound?
                                     && forall j' :: i <= j' < j ==> resolve(arts[j']).Bound?)
    decreases |arts| - i
  {
    if i < |arts| && resolve(arts[i]).Bound? {
      var acc' := acc + [resolve(arts[i]).mount];
      ArtifactsRunSpec(arts, i + 1, resolve, acc');
      var r := ArtifactsRun(arts, i + 1, resolve, acc');
      if r.Through? {
        assert r.mounts[..|acc|] == r.mounts[..|acc'|][..|acc|];
      }
    }
  }

  /** A rooted path stays rooted through JoinPath. */
  lemma JoinRooted(dir: string, name: string)
    requires dir != [] && dir[0] == '/'
    ensures var r := JoinPath([dir, name]); r != [] && r[0] == '/'
  {
    var p := Join([dir, name], '/');
    assert [dir, name][1..] == [name];
    assert Join([name], '/') == name;
    assert p == dir + ['/'] + name;
    assert p[0] == '/';
    assert JoinPath([dir, name]) == Clean(p);
  }

  /** The container side of an artifact is always absolute, so its
      filepath.Abs never fails. */
  lemma TargetAbsolute(target: string, cwd: Result<string>)
    ensures var t := TargetPath(target); t != [] && t[0] == '/'
    ensures Abs(TargetPath(target), cwd).Ok?
  {
    if HasPrefix(target, "/") {
      assert target[..1] == "/";
    } else if HasPrefix(target, "~") {
      JoinRooted(RootHome, target);
    } else {
      JoinRooted(WorkDir, target);
    }
    var t := TargetPath(target);
    assert HasPrefix(t, "/") by {
      assert t[..1] == [t[0]];
    }
  }

  /** A relative target without ".." lands under /workdir, and one starting
      with '~' under /root with the '~' piece kept. */
  lemma TargetUnder(target: string)
    requires !HasPrefix(target, "/")
    requires var t := Kept(Split(target, '/')); t != [] && forall n <- t :: n != ".."
    ensures TargetPath(target) == (if HasPrefix(target, "~") then "/root/" else "/workdir/") + Join(Kept(Split(target, '/')), '/')
  {
    if HasPrefix(target, "~") {
      RootHomeClean();
      JoinUnder(RootHome, target);
    } else {
      WorkDirClean();
      JoinUnder(WorkDir, target);
    }
  }

  lemma RootHomeClean()
    ensures RootHome != [] && RootHome[0] == '/' && Clean(RootHome) == RootHome
    ensures DirPrefix(RootHome) == "/root/"
  {
    CleanRootName("root");
    assert "/" + "root" == RootHome;
  }

  // ---------------------------------------------------------------- the job

  /** The container's command: the executor with the configuration file in
      /workdir/.vulcan and the job's id. */
  function VexecCommand(configFile: string, jobId: string): seq<string> {
    ["/bin/vexec", "--config", JoinPath([WorkDir, ".vulcan", configFile]), "--job-id", jobId]
  }

  /** The container of a job: a terminal and attached output only when
      verbose. */
  function LocalConfig(configFile: string, c: JobConfig, verbose: bool): ContainerConfig {
    ContainerConfig(c.runOn, VexecCommand(configFile, c.id), WorkDir, verbose, verbose)
  }

  /** How runJob ends: with an error or nil, the container asked for (if
      any) and the directory created (if any); or with the panic of an
      artifact without ':'. */
  datatype LocalRun = Returned(err: Option<string>, plan: Option<Plan>, created: Option<string>) | Panicked

  /** runJob(configFile, jobConfig): the binds of the working tree, then of
      the artifacts, then of the toolchains, then the container, where only
      exit code 1 is a failure. The walk's own error is dropped. */
  function Job(configFile: string, c: JobConfig, pwd: string, toolChains: string, verbose: bool, h: LocalHost): LocalRun {
    var a := ArtifactsRun(c.artifacts, 0, Resolver(h), WorkMounts(pwd, h.walk));
    if a.Stopped? then
      (if a.halt.Crash? then Panicked else Returned(a.halt.err, None, a.halt.created))
    else if h.toolchains.Err? then Returned(Some(h.toolchains.error), None, None)
    else
      var plan := Plan(LocalConfig(configFile, c, verbose), a.mounts + Binds(toolChains, BinDir, h.toolchains.value));
      Returned(RunContainer(OneFails, verbose, h.daemon).err, Some(plan), None)
  }

  method RunJob(configFile: string, c: JobConfig, pwd: string, toolChains: string, verbose: bool, h: LocalHost) returns (r: LocalRun)
    ensures r == Job(configFile, c, pwd, toolChains, verbose, h)
  {
    var mounts := WalkMounts(pwd, h.walk);
    var a := BindArtifacts(c.artifacts, h, mounts);
    if a.Stopped? {
      if a.halt.Crash? {
        return Panicked;
      }
      return Returned(a.halt.err, None, a.halt.created);
    }
    mounts := a.mounts;
    if h.toolchains.Err? {
      return Returned(Some(h.toolchains.error), None, None);
    }
    var tools := ListBinds(toolChains, BinDir, h.toolchains.value);
    mounts := mounts + tools;
    var cmd := ["/bin/vexec", "--config", JoinPath([WorkDir, ".vulcan", configFile]), "--job-id", c.id];
    var config := ContainerConfig(c.runOn, cmd, WorkDir, verbose, verbose);
    var err := RunContainer(OneFails, verbose, h.daemon).err;
    r := Returned(err, Some(Plan(config, mounts)), None);
  }

  /** A container is asked for only when every artifact is bound and the
      toolchain directory is listed; its binds are the working tree's files,
      then the artifacts in order, then the toolchain entries under /bin,
      without removing duplicates. */
  lemma JobMounts(configFile: string, c: JobConfig, pwd: string, toolChains: string, verbose: bool, h: LocalHost)
    requires var r := Job(configFile, c, pwd, toolChains, verbose, h); r.Returned? && r.plan.Some?
    ensures forall j :: 0 <= j < |c.artifacts| ==> ResolveArtifact(c.artifacts[j], h).Bound?
    ensures h.toolchains.Ok?
    ensures var p := Job(configFile, c, pwd, toolChains, verbose, h).plan.value;
      var n, k := |WorkMounts(pwd, h.walk)|, |c.artifacts|;
      |p.mounts| == n + k + |h.toolchains.value|
      && p.mounts[..n] == WorkMounts(pwd, h.walk)
      && (forall j :: 0 <= j < k ==> p.mounts[n + j] == ResolveArtifact(c.artifacts[j], h).mount)
      && p.mounts[n + k..] == Binds(toolChains, BinDir, h.toolchains.value)
      && p.config == LocalConfig(configFile, c, verbose)
  {
    var work := WorkMounts(pwd, h.walk);
    var resolve := Resolver(h);
    var a := ArtifactsRun(c.artifacts, 0, resolve, work);
    assert a.Through?;
    var tools := Binds(toolChains, BinDir, h.toolchains.value);
    ThroughMounts(c.artifacts, resolve, work, tools);
    assert Job(configFile, c, pwd, toolChains, verbose, h).plan.value.mounts == a.mounts + tools;
    forall j | 0 <= j < |c.artifacts|
      ensures resolve(c.artifacts[j]) == ResolveArtifact(c.artifacts[j], h)
    {
    }
  }

  /** The binds of a loop that gets through, followed by `tools`. */
  lemma ThroughMounts(arts: seq<string>, resolve: string -> ArtifactStep, work: seq<Mount>, tools: seq<Mount>)
    requires ArtifactsRun(arts, 0, resolve, work).Through?
    ensures forall j :: 0 <= j < |arts| ==> resolve(arts[j]).Bound?
    ensures var ms, n, k := ArtifactsRun(arts, 0, resolve, work).mounts + tools, |work|, |arts|;
      |ms| == n + k + |tools|
      && ms[..n] == work
      && (forall j :: 0 <= j < k ==> ms[n + j] == resolve(arts[j]).mount)
      && ms[n + k..] == tools
  {
    ArtifactsRunSpec(arts, 0, resolve, work);
    var a := ArtifactsRun(arts, 0, resolve, work);
    var ms, n, k := a.mounts + tools, |work|, |arts|;
    assert ms[..n] == a.mounts[..n];
    assert ms[n + k..] == tools;
    forall j | 0 <= j < k
      ensures ms[n + j] == resolve(arts[j]).mount
    {
      assert ms[n + j] == a.mounts[n + j];
    }
  }

  /** A job whose artifact `j` is the first one not bound asks for no
      container: it panics on an artifact without ':', and otherwise returns
      what that artifact gives, the nil after creating a missing host
      directory included. */
  lemma JobStops(configFile: string, c: JobConfig, pwd: string, toolChains: string, verbose: bool, h: LocalHost, j: nat)
    requires j < |c.artifacts| && !ResolveArtifact(c.artifacts[j], h).Bound?
    requires forall j' :: 0 <= j' < j ==> ResolveArtifact(c.artifacts[j'], h).Bound?
    ensures var s, r := ResolveArtifact(c.artifacts[j], h), Job(configFile, c, pwd, toolChains, verbose, h);
      if s.Crash? then r.Panicked? else r == Returned(s.err, None, s.created)
  {
    var work := WorkMounts(pwd, h.walk);
    var resolve := Resolver(h);
    ArtifactsRunSpec(c.artifacts, 0, resolve, work);
    assert resolve(c.artifacts[j]) == ResolveArtifact(c.artifacts[j], h);
    var a := ArtifactsRun(c.artifacts, 0, resolve, work);
    assert !a.Through?;
    var j0 :| 0 <= j0 < |c.artifacts| && a.halt == resolve(c.artifacts[j0]) && !a.halt.Bound?
              && forall j' :: 0 <= j' < j0 ==> resolve(c.artifacts[j']).Bound?;
    assert forall j' :: 0 <= j' < j ==> resolve(c.artifacts[j']) == ResolveArtifact(c.artifacts[j'], h);
    assert j0 == j;
  }

  /** An artifact whose host directory is missing ends the job as soon as
      MkdirAll creates it: runJob returns nil, later artifacts are not
      looked at and no container is run. */
  lemma CreatedDirEndsJob(configFile: string, c: JobConfig, pwd: string, toolChains: string, verbose: bool, h: LocalHost, j: nat)
    returns (dir: string)
    requires j < |c.artifacts| && forall j' :: 0 <= j' < j ==> ResolveArtifact(c.artifacts[j'], h).Bound?
    requires var parts := Split(c.artifacts[j], ':');
      |parts| >= 2
      && var host := HostPath(TrimSpace(parts[0]), h.home);
      host.Ok? && Abs(host.value, h.cwd).Ok?
      && h.stat(Abs(host.value, h.cwd).value) == Missing && h.mkdirError(Abs(host.value, h.cwd).value).None?
    ensures h.stat(dir) == Missing
    ensures Job(configFile, c, pwd, toolChains, verbose, h) == Returned(None, None, Some(dir))
  {
    var parts := Split(c.artifacts[j], ':');
    dir := Abs(HostPath(TrimSpace(parts[0]), h.home).value, h.cwd).value;
    TargetAbsolute(TrimSpace(parts[1]), h.cwd);
    assert ResolveArtifact(c.artifacts[j], h) == Halt(None, Some(dir));
    JobStops(configFile, c, pwd, toolChains, verbose, h, j);
  }
}
