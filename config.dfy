/** core/config.go: the project configuration read from YAML, the in-place
    environment expansion of an argument map, and the error cases of
    ReadProjectConfig. YAML decoding itself is the function parameter
    `unmarshal`. */
module Config {
  import opened Wrappers
  import opened GoStrings
  import opened EnvUtils

  /** ArgsConfig: variable name to value. */
  type ArgsConfig = map<string, string>

  const RepeatedEveryDay: string := "every-day"
  const RepeatedEveryHour: string := "every-hour"

  datatype ScheduleConfig = ScheduleConfig(cron: string, repeated: string)

  datatype OnConfig = OnConfig(branch: seq<string>, event: seq<string>, schedule: Option<ScheduleConfig>)

  /** A step runs either its `run` text or the plugin named by `use`, with
      `with` as the plugin's flags. The optional maps are the source's nil
      pointers. */
  datatype StepConfig = StepConfig(
    id: string, name: string, run: string, use: string,
    args: Option<ArgsConfig>, with: Option<ArgsConfig>)

  datatype JobConfig = JobConfig(
    id: string, name: string, runOn: string, baseDir: string, os: string, arch: string,
    artifacts: seq<string>, args: Option<ArgsConfig>, steps: seq<StepConfig>)

  datatype ProjectConfig = ProjectConfig(name: string, on: Option<OnConfig>, jobs: map<string, JobConfig>)

  datatype RegistryConfig = RegistryConfig(address: string, username: string, password: string)

  datatype DockerConfig = DockerConfig(hosts: seq<string>, registries: seq<RegistryConfig>)

  /** The map every value of which has gone through ReadEnvVariableIfHas. */
  function Expanded(a: ArgsConfig, expand: string -> string): ArgsConfig {
    map k | k in a :: ReadEnvVariableIfHas(a[k], expand)
  }

  /** ArgsConfig.ReplaceEnv: rewrites every value in place, in the map's
      iteration order (any order gives the same map), and reports no error. */
  method ReplaceEnv(a: ArgsConfig, expand: string -> string) returns (r: ArgsConfig, err: Option<string>)
    ensures r == Expanded(a, expand)
    ensures err == None
  {
    r := a;
    var pending := a.Keys;
    while pending != {}
      invariant pending <= a.Keys && r.Keys == a.Keys
      invariant forall k <- r :: r[k] == if k in pending then a[k] else ReadEnvVariableIfHas(a[k], expand)
      decreases pending
    {
      var k :| k in pending;
      r := r[k := ReadEnvVariableIfHas(a[k], expand)];
      pending := pending - {k};
    }
    err := None;
  }

  const ConfigNotFound: string := "configuration file not found"
  const ReadConfigPrefix: string := "read application config file get error "
  const UnmarshalConfigPrefix: string := "unmarshal application config file get error "

  /** ReadProjectConfig, given whether Stat reported the file missing, what
      reading it gave, and the YAML decoder. Stat errors other than "does
      not exist" are ignored; read and decode errors are wrapped. */
  function ReadProjectConfig(notExist: bool, read: Result<string>, unmarshal: string -> Result<ProjectConfig>): (r: Result<ProjectConfig>)
    ensures r.Ok? <==> !notExist && read.Ok? && unmarshal(read.value).Ok?
    ensures r.Ok? ==> r == unmarshal(read.value)
  {
    if notExist then Err(ConfigNotFound)
    else if read.Err? then Err(ReadConfigPrefix + read.error)
    else match unmarshal(read.value)
      case Err(e) => Err(UnmarshalConfigPrefix + e)
      case Ok(c) => Ok(c)
  }

  /** The three failures are told apart by their text: the message alone
      says whether the file was missing, unreadable or not valid YAML, and
      carries the underlying error. */
  lemma ConfigErrorStage(notExist: bool, read: Result<string>, unmarshal: string -> Result<ProjectConfig>)
    requires ReadProjectConfig(notExist, read, unmarshal).Err?
    ensures var e := ReadProjectConfig(notExist, read, unmarshal).error;
      (e == ConfigNotFound <==> notExist)
      && (HasPrefix(e, ReadConfigPrefix) <==> !notExist && read.Err?)
      && (HasPrefix(e, UnmarshalConfigPrefix) <==> !notExist && read.Ok?)
    ensures var e := ReadProjectConfig(notExist, read, unmarshal).error;
      !notExist && read.Err? ==> e[|ReadConfigPrefix|..] == read.error
    ensures var e := ReadProjectConfig(notExist, read, unmarshal).error;
      !notExist && read.Ok? ==> e[|UnmarshalConfigPrefix|..] == unmarshal(read.value).error
  {
    var e := ReadProjectConfig(notExist, read, unmarshal).error;
    assert ConfigNotFound[0] == 'c' && ReadConfigPrefix[0] == 'r' && UnmarshalConfigPrefix[0] == 'u';
    if !notExist && read.Err? {
      assert e[..|ReadConfigPrefix|] == ReadConfigPrefix;
    } else if !notExist {
      assert e[..|UnmarshalConfigPrefix|] == UnmarshalConfigPrefix;
    }
  }
}
