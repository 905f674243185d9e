# vulcan, modelled in Dafny

vulcan is a small CI runner written in Go. A project keeps its jobs in YAML
files. A job names an image to run on, job-level `args`, artifact binds and
an ordered list of steps. A step either has a `run` text (shell command
lines) or `use`s a plugin with `with` flags, and it may have an `id` under
which it leaves outputs for later steps.

This project models the core of the runner:

- **Configuration** (`core/config.go`): loading a project file and
  substituting `$VARIABLE` references in `args`.
- **Environment files** (`core/utils.go`, `utils.go`): `KEY=VALUE` lines
  loaded into the process environment.
- **Command lines** (`core/cmd.go`): the state-machine tokenizer that turns
  a rendered command line into an argument vector.
- **Step outputs** (`core/output.go`, `builtin/set_output.go`): the bbolt
  store of outputs, and `vset`, which writes a step's `key=value` output
  file.
- **The in-container executor** (`builtin/executor.go`): `vexec` runs the
  steps of one job, gives each step its own variable scope, and folds the
  outputs of a step into the scope of later steps.
- **The script runners** (`cmd/buildtool/run_job.go`, `run_job.go`): they
  render every step into a shell script, bind the working directory under
  `/workdir` and run the script in a container.
- **The local runner** (`cmd/vlocal/run_job.go`): it binds the working tree,
  the artifacts and the toolchains, then runs `vexec` in a container.
- **Plugin and Docker helpers** (`plugins/jfrog/main.go`, `core/docker.go`):
  the jfrog upload plugin's flag checks and endpoint, image reference
  normalisation, pull credentials, Docker host selection and reading a
  Docker JSON log.

## How the model works

- Go's `strings` and `path/filepath` functions are written out as Dafny
  functions with their documented behaviour, in modules `GoStrings` and
  `GoPath`.
- `os.Setenv` is modelled on an explicit environment map, in `HostFiles`.
- Everything else the program asks of the outside world is a parameter.
  This covers:
  - text/template rendering and `os.ExpandEnv`;
  - the programs that are run;
  - Go's map iteration order;
  - file system answers (open, stat, read, mkdir, walk, ReadDir);
  - the Docker daemon's answers;
  - the HTTP server's answers.
- Loops of the source are methods with loop invariants, each proved equal
  to a specification function. The properties are then proved about those
  functions as lemmas.
- The output store, whose operations update a database in place, is a
  class with `modifies` clauses.

Where the code does something other than the project's description, the
model follows the code:

- `run_job.go` and `cmd/vlocal/run_job.go` treat only exit code 1 as a
  failed container. `cmd/buildtool/run_job.go` treats any non-zero code as
  failed. `Container.StatusRule` keeps both rules.
- `SetOutput` with no current step does not silently do nothing. The
  `current_step` bucket is missing, and `bck.Get` is called on a nil
  bucket, which panics. `Output.Store.SetOutput` returns a panic error
  there.
- The group pattern of the jfrog plugin needs at least two characters
  before the first dot (`[a-zA-Z][a-zA-Z0-9_-]+`). So "a.bc" is refused
  (`JfrogPlugin.GroupEnds`).
- `cmd/vlocal/main.go:140` calls `runJob` with three arguments, but
  `cmd/vlocal/run_job.go:24` declares two. The model follows the
  declaration.
- The root package declares `writeShellScript` twice, at `run_job.go:89`
  and `utils.go:16`. Both are modelled: `RootRunner.WriteShellScript` and
  `ShellScript.WriteShellScript`.
- `runCommandLine` clamps `argStart` to the length of the vector. It can
  never exceed the length, so the clamp never applies
  (`Executor.SelectExec`).

## Model

| member | source | states |
|---|---|---|
| CommandLine.AlnumRunEnd | core/cmd.go:25-32 | the end of the word PARSER_CMD_BEGIN collects lies between the cursor and the end of the line |
| CommandLine.AlnumRunEndSpec | core/cmd.go:25-32 | every character before the end is an ASCII letter or digit, and the character at the end (if any) is not |
| CommandLine.FlagRunEnd | core/cmd.go:81-92 | the end of the flag key lies between the cursor and the end of the line |
| CommandLine.FlagRunEndSpec | core/cmd.go:81-92 | every character of the flag key is a letter, digit or '-', and the character that stops it is not |
| CommandLine.ArgsScan | core/cmd.go:51-73 | scanning a positional word never moves the cursor back |
| CommandLine.ValueScan | core/cmd.go:107-124 | scanning a flag value never moves the cursor back |
| CommandLine.HandleProgress | core/cmd.go:135-144 | each handler moves the cursor forward, hands over to a lower-ranked state at the same cursor, or fails; so the driver loop ends |
| CommandLine.ScanCommandWord | core/cmd.go:22-36 | the PARSER_CMD_BEGIN loop appends the leading alphanumeric run and moves to SPACE |
| CommandLine.ScanSpace | core/cmd.go:37-46 | PARSER_SPACE skips one space, or hands a '-' to FLAG_KEY and anything else to ARGS |
| CommandLine.ScanPositional | core/cmd.go:47-77 | the PARSER_ARGS loop, with its quote handling, gives the word and cursor that `HandleArgs` defines |
| CommandLine.ScanFlagKey | core/cmd.go:78-96 | the PARSER_FLAG_KEY loop appends the flag word, or replaces the vector by "invalid flag key ..." and fails |
| CommandLine.ScanFlagValue | core/cmd.go:97-128 | the PARSER_FLAG_VALUE loop hands '-' back to FLAG_KEY, or skips one space or '=' and reads one value |
| CommandLine.ParseCommandLine | core/cmd.go:131-146 | ParseCommandLine trims the line, drives the state machine, and gives an empty vector for a blank line |
| CommandLineFacts.DriveExtends | core/cmd.go:131-146 | a successful parse only appends to the vector it started with |
| CommandLineFacts.BlankLine | core/cmd.go:132-135 | a line of white space gives no arguments and no error |
| CommandLineFacts.FirstWord | core/cmd.go:22-36 | on a non-blank line the first argument is the longest leading run of ASCII letters and digits of the trimmed line, possibly empty |
| CommandLineFacts.DriveError | core/cmd.go:86-90 | a failing parse fails in FLAG_KEY, at a '-' whose flag run ends on a character other than space and '=', with "invalid flag key " and the run |
| CommandLineFacts.ErrorCause | core/cmd.go:131-146 | the only error ParseCommandLine reports is the flag-key error, naming the flag run of the trimmed line |
| CommandLineFacts.SpaceToFlag | core/cmd.go:42-44 | in SPACE, a '-' starts a flag key at the same cursor |
| CommandLineFacts.FlagAtEnd | core/cmd.go:81-95 | a flag key that reaches the end of the line is the last argument, with no value |
| CommandLineFacts.FlagThenValue | core/cmd.go:93-103 | a flag key ended by a space or '=' is followed by exactly one value word, read after that one character |
| CommandLineFacts.ValuePlain | core/cmd.go:119-122 | unquoted value text runs to the next space, which is consumed |
| CommandLineFacts.ArgsPlain | core/cmd.go:69-71 | unquoted positional text runs to the next space, which is left for SPACE |
| CommandLineFacts.ArgsUnterminated | core/cmd.go:51-73 | with a quote that is never closed, a positional word keeps the rest of the line |
| CommandLineFacts.ArgsQuotedRest | core/cmd.go:51-73 | inside a quote, quote-free text up to the matching unescaped quote is kept, spaces included, and the closing quote is consumed |
| CommandLineFacts.ArgsQuotedWord | core/cmd.go:53-66 | a quoted positional word skips the opening quote and the character after it, and is the text up to the matching quote, which is consumed |
| CommandLineFacts.ArgsEscapedKept | core/cmd.go:59-62 | inside a quote, a quote preceded by a backslash is kept together with the backslash |
| CommandLineFacts.ArgsOtherQuoteDropped | core/cmd.go:53-67 | inside a quote, an unescaped quote of the other kind is dropped and the other characters are kept |
| CommandLineFacts.ValueUnterminated | core/cmd.go:107-124 | with a quote that is never closed, a flag value keeps the rest of the line |
| CommandLineFacts.AlnumRunIs | core/cmd.go:25-32 | the command-word run end is the only position with its two defining properties |
| CommandLineFacts.FlagRunIs | core/cmd.go:81-92 | the flag run end is the only position with its two defining properties |
| CommandLineFacts.CommandThenSpace | core/cmd.go:22-40 | a line starting "cmd " gives "cmd" and continues in SPACE at the fifth character |
| CommandLineFacts.ExampleFlagAtEnd | core/cmd.go:78-96 | "cmd -flag" gives ["cmd", "-flag"] |
| CommandLineFacts.ExampleBadFlag | core/cmd.go:87-89 | "cmd -fl@g" fails with "invalid flag key -fl" |
| CommandLineFacts.ExampleQuotedWord | core/cmd.go:53-57 | "cmd 'a b'" gives ["cmd", " b"]: the character right after an opening quote is skipped |
| Config.ReplaceEnv | core/config.go:35-40 | ArgsConfig.ReplaceEnv maps every value through ReadEnvVariableIfHas, keeps the keys and reports no error |
| Config.ReadProjectConfig | core/config.go:63-81 | the configuration loads exactly when the file exists, is read and unmarshals, and is then what unmarshalling gave |
| Config.ConfigErrorStage | core/config.go:63-81 | an error names its stage: "configuration file not found", or the read or unmarshal prefix followed by the underlying error |
| Container.RunSucceeds | cmd/buildtool/run_job.go:128-180 | a container run succeeds exactly when create and start succeed and then the log follow (verbose) or the wait and status rule succeed |
| Container.FailureCarriesLogs | cmd/buildtool/run_job.go:164-177 | a failing exit code returns the container's logs as the error, or the error of reading them |
| Container.StopOnlyOnWaitError | cmd/buildtool/run_job.go:156-163 | ContainerStop (with 30 s grace) is called only on a non-nil wait error, which is returned; the container is removed whenever it was created |
| Container.VerboseIgnoresExit | cmd/buildtool/run_job.go:141-155 | in verbose mode the exit code is never looked at |
| Container.OnlyOneFails | run_job.go:158-173 | under the `== 1` rule only exit code 1 fails; under the `!= 0` rule every non-zero code fails |
| DockerHelpers.ImageExist | core/docker.go:37-52 | a listing error gives (false, no ids, the error); otherwise the ids of the listed images in order, and true exactly when some image is listed |
| DockerHelpers.ImageRefSpec | core/docker.go:38-40 | a reference holding ':' anywhere (a tag or a registry port) is kept, any other gets ":latest"; the result always holds ':' and is stable |
| DockerHelpers.PullAuthSpec | core/docker.go:54-113 | the pull is anonymous exactly when the username or password is blank; otherwise auth's credentials, ReadEnvVariableIfHas of each, which are never empty |
| DockerHelpers.VerifyDockerHostConnection | core/docker.go:134-161 | the host loop, with its Setenv calls and probes, gives the host, error and environment that `VerifyFrom` defines (as written, with the shadowed `err`) |
| DockerHelpers.VerifyFromFirst | core/docker.go:136-155 | the first host in list order that Setenv accepts and that answers Info is returned, with no error |
| DockerHelpers.VerifyFromNone | core/docker.go:135-160 | when no host is usable the result is "" with an error exactly when Setenv refused the last host |
| DockerHelpers.ProbeErrorsDropped | core/docker.go:141-160 | when every Setenv succeeds and no host answers, the result is ("", nil): probe failures are not reported |
| DockerHelpers.VerifyReportingSpec | core/docker.go:134-161 | with one `err` variable, the same host and environment are chosen, and a search that finds none reports the last attempt's error |
| DockerHelpers.DisplayDockerLog | core/docker.go:163-184 | the decode loop gives the log text and no error, or "" and the error, as `LogText` defines them |
| DockerHelpers.LogErrSticks | core/docker.go:169-177 | once a message fails, the messages after it change nothing |
| DockerHelpers.LogTextWhole | core/docker.go:167-183 | the log is read whole exactly when no message fails, and is then the concatenation of the stream texts in order |
| DockerHelpers.LogTextFirstError | core/docker.go:169-177 | a failing log ends with the decode error or message error of its first failing message, dropping the collected text |
| EnvUtils.ReadEnvOutcome | core/utils.go:12-21 | the result is the trimmed input, or a non-empty expansion of a trimmed input starting with '$'; a non-blank input never gives "" |
| EnvUtils.ReadEnvPlainStable | core/utils.go:12-21 | for a value not starting with '$' (after trimming), substituting twice is substituting once |
| EnvUtils.KeyValueLayout | core/utils.go:49-54 | an applied line is KEY=VALUE followed by nothing or by more '=' text, and the key and value hold no '=' |
| EnvUtils.Assignments | core/utils.go:44-58 | every reported line is a trimmed assignment line |
| EnvUtils.LoadEnvErrSticks | core/utils.go:54-57 | once Setenv fails, later lines change neither the result nor the environment |
| EnvUtils.LoadEnvLines | core/utils.go:44-59 | a successful load reports exactly the assignment lines, in file order |
| EnvUtils.LoadEnvUntouched | core/utils.go:49-57 | a variable that no reported line names is left as it was |
| EnvUtils.LoadEnvLastWins | core/utils.go:49-57 | the last line naming a variable sets it, to the text between its first and second '=' |
| EnvUtils.UpdateEnvFromFile | core/utils.go:23-60 | open and stat errors and a directory are returned with the environment unchanged; otherwise the scan loop gives the lines and environment that `LoadEnv` defines |
| Executor.ExecStart | builtin/executor.go:181-192 | the arguments start one past the first token that is not blank, or at 0 when every token is blank |
| Executor.SelectExec | builtin/executor.go:181-192 | the selection loop finds that start and the trimmed program name, and the start never exceeds the vector's length |
| Executor.RunCommandLine | builtin/executor.go:164-197 | runCommandLine returns the template error, the tokenizer error or the program's result, running the program on the arguments after it |
| Executor.Overlay | builtin/executor.go:69-78 | copying `top` into `base` gives `base + top`: every key of either, top's value winning |
| Executor.RunLine | builtin/executor.go:101-104 | one runCommandLine call gives the line's outcome in the step's scope |
| Executor.RunLines | builtin/executor.go:98-105 | the loop over the lines of `run` gives the outcome and calls that `LinesRun` defines |
| Executor.Fragments | builtin/executor.go:112-117 | one "--key=value " fragment per key of `with`, in the iteration order |
| Executor.BuildUseLine | builtin/executor.go:106-119 | the builder loop gives the use line that `UseLine` defines: the plugin, a space, then the fragments in map order |
| Executor.ReadOutputs | builtin/executor.go:150-158 | the loop over the output file's lines gives the fold `FoldOutputs` defines |
| Executor.RunStepCommands | builtin/executor.go:98-134 | a step's command loop gives the outcome and calls that `StepCalls` defines |
| Executor.ReadStepFile | builtin/executor.go:136-159 | the stat, directory and read errors are returned with the scope unchanged; otherwise the outputs are folded into it |
| Executor.RunStep | builtin/executor.go:67-159 | one pass of the step loop gives the outcome that `StepRun` defines |
| Executor.RunJob | builtin/executor.go:51-162 | runJob gives the error, calls and final job-level scope that `JobRun` defines |
| Executor.RunVExec | builtin/executor.go:18-49 | a blank --config or --job-id is refused first; a config error is returned; an unknown job id runs nothing; otherwise the job runs with its args substituted |
| ExecutorFacts.LinesRunStops | builtin/executor.go:98-105 | the lines run in order in the step's scope, and they stop after the first failing line, whose error is returned |
| ExecutorFacts.OutputLineLayout | builtin/executor.go:150-157 | an output line with '=' names the text before its first '=' and assigns the text after it; both source cases agree on this |
| ExecutorFacts.FoldOutputsUntouched | builtin/executor.go:150-158 | a variable no output line names is left as it was |
| ExecutorFacts.FoldOutputsLastWins | builtin/executor.go:150-158 | the last output line with a given key sets steps_<id>_outputs_<key> to its value |
| ExecutorFacts.PairLinesJoin | builtin/set_output.go:35-43 | the file vset writes is the trimmed pairs joined by newlines, with a final newline |
| ExecutorFacts.PairLinesSplit | builtin/set_output.go:35-43 | splitting that file at newlines gives back the trimmed pairs and one empty last line |
| ExecutorFacts.SetThenRead | builtin/executor.go:150-158 | a pair written by vset, and not overridden by a later pair with the same key, is read back by the executor as steps_<id>_outputs_<key> |
| ExecutorFacts.StepCallsScopes | builtin/executor.go:98-130 | every command of a step runs in the step's scope; a use line runs in that scope overridden by `with` |
| ExecutorFacts.AfterCommandsShape | builtin/executor.go:136-159 | reading the output file keeps the calls, and changes the scope only by folding the file of a step with an id |
| ExecutorFacts.NilArgsStep | builtin/executor.go:120-125 | a use step with `with` and no `args` panics on the nil pointer before its plugin runs: no command starts and the job scope is kept |
| ExecutorFacts.StepRunScopes | builtin/executor.go:67-159 | a step's commands run in the job scope overridden by its substituted args (and by `with` for a use line); the job scope changes only by its outputs |
| ExecutorFacts.FragmentsPermute | builtin/executor.go:112-117 | two iteration orders that are permutations of each other give the same multiset of fragments |
| ExecutorFacts.EnumerationsPermute | builtin/executor.go:112-117 | any two enumerations of a map's keys are permutations of each other |
| ExecutorFacts.UseLineOrderFree | builtin/executor.go:106-119 | whatever the map order, the use line is the plugin, a space and the same multiset of fragments |
| GoStrings.TrimLeftSpec | core/utils.go:13 | TrimLeft drops exactly the leading white space |
| GoStrings.TrimRightSpec | core/utils.go:13 | TrimRight drops exactly the trailing white space |
| GoStrings.TrimSpace | core/utils.go:13 | the trimmed text starts and ends with a non-space character, or is empty |
| GoStrings.TrimSpaceSlice | core/utils.go:13 | the trimmed text is a slice of the input with only white space around it |
| GoStrings.BlankIffAllSpace | builtin/executor.go:23-29 | a flag is blank exactly when all its characters are white space |
| GoStrings.TrimSpaceIdempotent | builtin/set_output.go:36 | trimming twice is trimming once |
| GoStrings.TrimSpaceTrimmed | core/utils.go:13 | text without white space at either end is left alone |
| GoStrings.TrimPrefix | cmd/vlocal/run_job.go:35 | the prefix is removed when present, and the text is kept otherwise |
| GoStrings.ReplaceChar | plugins/jfrog/main.go:132 | every '.' of the group becomes '/', and nothing else changes |
| GoStrings.Split | builtin/executor.go:99 | strings.Split gives at least one piece, and no piece holds the separator |
| GoStrings.JoinSplit | builtin/executor.go:156 | joining the pieces with the separator gives the text back |
| GoStrings.SplitJoin | builtin/executor.go:156 | splitting joined pieces without separators gives the pieces back |
| GoStrings.SplitFirst | core/utils.go:49 | a text with the separator splits into the text before its first occurrence and the split of the rest |
| GoStrings.SplitCount | core/utils.go:49-52 | a split has two or more pieces exactly when the separator occurs |
| GoStrings.SplitConcat | builtin/executor.go:150 | the split of a text joined at a separator is the two splits laid end to end |
| GoPath.Ext | plugins/jfrog/main.go:133 | filepath.Ext is the suffix from the last '.' when no '/' follows it, and empty only when every '.' is followed by a '/' |
| GoPath.JoinUnder | cmd/vlocal/run_job.go:39 | joining a clean absolute directory and a relative path without ".." is the directory, '/' and the kept pieces |
| GoPath.JoinName | cmd/buildtool/run_job.go:109-110 | joining a clean absolute directory and a plain name is the directory, '/' and the name |
| GoPath.CleanNoDoubleSlash | plugins/jfrog/main.go:147 | path.Clean never gives an empty path or two consecutive slashes |
| GoPath.CleanRootName | run_job.go:122 | "/" followed by a plain name is already clean |
| HostFiles.Setenv | core/utils.go:54 | os.Setenv fails exactly on an empty key, '=' or NUL in the key, or NUL in the value, and then changes nothing; otherwise it sets the one variable |
| JfrogPlugin.DottedRunWords | plugins/jfrog/main.go:100 | the character-by-character group recogniser accepts exactly the dot-joined words `[a-zA-Z0-9_-]+(\.[a-zA-Z0-9_-]+)*` |
| JfrogPlugin.GroupRecogniser | plugins/jfrog/main.go:100-109 | the group check accepts exactly what groupPattern matches |
| JfrogPlugin.GroupShape | plugins/jfrog/main.go:100 | a group has at least three characters, does not start or end with '.', and has no two dots in a row |
| JfrogPlugin.GroupEnds | plugins/jfrog/main.go:100 | "a.bc" and "ab.c" are refused and "ab.c.de" is accepted |
| JfrogPlugin.DotFreeGroups | plugins/jfrog/main.go:100-101 | without dots, groups of three or more characters are exactly the artifact ids, and no two-character group exists |
| JfrogPlugin.CheckArguments | plugins/jfrog/main.go:33-81 | main's checks, trimming each flag in place, give the outcome `CheckFlags` defines |
| JfrogPlugin.TrimRequired | plugins/jfrog/main.go:33-61 | the presence checks name the first blank flag in main's order, or give the trimmed package |
| JfrogPlugin.ValidateFormats | plugins/jfrog/main.go:63-81 | the format checks give the outcome `CheckFormats` defines |
| JfrogPlugin.FirstMissingSpec | plugins/jfrog/main.go:33-61 | no flag is reported missing exactly when none is blank; otherwise the first blank one is reported |
| JfrogPlugin.PresenceFirst | plugins/jfrog/main.go:33-61 | the presence checks test group, artifact id, repository, username, password and source in that order |
| JfrogPlugin.MissingReported | plugins/jfrog/main.go:33-61 | the first blank flag ends the run with "<name> is missing" |
| JfrogPlugin.CheckFlagsSpec | plugins/jfrog/main.go:33-92 | the flags pass exactly when none is blank, both patterns match and the source is a regular file; the package then holds the trimmed flags and the version as given |
| JfrogPlugin.FormatAfterPresence | plugins/jfrog/main.go:33-81 | a format error is reported only when every required flag is present |
| JfrogPlugin.EndpointText | plugins/jfrog/main.go:135-146 | the text written to the builder starts with the repository |
| JfrogPlugin.BuildEndpoint | plugins/jfrog/main.go:131-147 | the builder writes and path.Clean give `Endpoint`, the cleaned `EndpointText` |
| JfrogPlugin.EndpointLosesScheme | plugins/jfrog/main.go:147 | for an "http://" repository the builder text keeps the scheme but path.Clean's result does not |
| JfrogPlugin.SchemeEndpointSpec | plugins/jfrog/main.go:131-147 | with the scheme kept out of path.Clean, an "http://" endpoint keeps its scheme, has no doubled slash after it, and is unchanged without a scheme |
| JfrogPlugin.UploadSpec | plugins/jfrog/main.go:124-191 | the upload succeeds exactly when parse, open, checksum, request and send succeed and the server answers 201; a request goes to path.Clean of the built text with the checksum and credentials, skips TLS checks only for https, and for an "http://" repository has lost the scheme's "//" |
| JfrogPlugin.UploadSchemeKeptSpec | plugins/jfrog/main.go:124-191 | the corrected upload fails and succeeds exactly where uploadFile does and sends the same request, but to the endpoint that keeps "http://" |
| JobPlan.CopyJobArgs | cmd/buildtool/run_job.go:26-32 | the copy loop gives the job's args, or none |
| JobPlan.BuildLocalArgs | cmd/buildtool/run_job.go:35-43 | a step's scope is the job args overridden by its `with`, with every key of either |
| JobPlan.ScriptRunSpec | cmd/buildtool/run_job.go:33-84 | assembly succeeds exactly when every step gives its lines, which are then laid out in step order; otherwise the first failing step's error |
| JobPlan.Binds | cmd/buildtool/run_job.go:106-112 | one bind per listed entry |
| JobPlan.ListBinds | cmd/buildtool/run_job.go:106-112 | the ReadDir loop binds every entry from the working directory to /workdir, in listing order |
| JobPlan.BindsUnder | cmd/buildtool/run_job.go:106-112 | between clean absolute directories, entry n is bound from dir/n to target/n without rewriting |
| JobPlan.WorkDirBinds | run_job.go:118-124 | each top-level entry of the working directory is bound to /workdir/<name> |
| Output.OutputKeyInjective | core/output.go:86 | within one step, distinct keys are stored under distinct names |
| Output.OutputKeyCollision | core/output.go:86 | across steps the names collide: step "a" key "b_outputs_c" and step "a_outputs_b" key "c" share one name |
| Output.Store.constructor | core/output.go:13-18 | a fresh store has no current step and no variables |
| Output.Store.SetCurrentStep | core/output.go:20-46 | an open error is returned; a blank id changes nothing; otherwise the trimmed id becomes the current step, variables untouched |
| Output.Store.SetOutput | core/output.go:48-89 | an open error is returned; with no current_step bucket the call panics; a blank current step changes nothing; otherwise steps_<step>_outputs_<key> is set |
| Output.Store.GetAllOutputs | core/output.go:96-124 | every stored variable is listed exactly once, with its value, and nothing else |
| Output.RecordAndRead | core/output.go:20-124 | after SetCurrentStep(s) and SetOutput(k, v), GetAllOutputs lists (steps_s_outputs_k, v) |
| RootRunner.RenderStep | run_job.go:33-76 | one pass of the step loop gives the step's one command or its error |
| RootRunner.AssembleCommands | run_job.go:22-77 | the step loop gives the job's commands or the first error |
| RootRunner.JobCommandsSpec | run_job.go:32-77 | the commands are collected exactly when every step has run or use and renders, one per step in order; otherwise a failing step's error |
| RootRunner.RunTextWhole | run_job.go:46-47 | a multi-line run text stays one command |
| RootRunner.WriteShellScript | run_job.go:89-108 | the open error is returned; otherwise <pwd>/vulcan.sh holds the header and the commands |
| RootRunner.RunBuildInDocker | run_job.go:110-176 | a ReadDir error comes first; otherwise the container runs ./vulcan.sh with every entry bound, and only exit code 1 fails |
| RootRunner.RunJob | run_job.go:22-82 | runJob gives the error, script and container that `Job` defines |
| RootRunner.WriteErrorIgnored | run_job.go:79-81 | a script write error changes neither the error returned nor the container asked for |
| RootUtils.EnvLoadErrSticks | utils.go:70-73 | once Setenv fails, later lines change nothing |
| RootUtils.UpdateEnvFromFile | utils.go:41-76 | open and stat errors and a directory are returned with the environment unchanged; otherwise the scan loop's result |
| RootUtils.AgreesWithCore | utils.go:61-74 | on trimmed lines with at most one '=', this loader and core's set the same environment and fail alike |
| RootUtils.SecondEqualsDiffers | utils.go:66-69 | "A=b=c" is skipped here but sets A to "b" in core's loader |
| SetOutput.FirstMalformed | builtin/set_output.go:35-40 | the first trimmed pair without '=', or the number of pairs when all have one |
| SetOutput.RunVSet | builtin/set_output.go:14-46 | a blank step id fails first; no pairs leave the file alone; an open error is returned; otherwise the file is truncated and gets the well-formed pairs; at a malformed pair it keeps what the 4096-byte writer had flushed, a prefix of the earlier lines that is empty while they fit in the buffer |
| SetOutput.WritePairs | builtin/set_output.go:34-44 | the writer loop writes every trimmed pair and a newline and flushes, or stops at the first malformed pair with only the writer's flushed prefix of the earlier lines in the file |
| SetOutput.WriteString | builtin/set_output.go:41-42 | bufio's WriteString loses nothing, keeps at most 4096 bytes buffered, and writes to the file only once more than 4096 bytes were written |
| SetOutput.Writes | builtin/set_output.go:34-43 | after the loop's writes, file plus buffer hold exactly the pair lines, and the file is touched only past 4096 bytes |
| SetOutput.WritesPrefix | builtin/set_output.go:34-43 | what reached the file is a prefix of the pair lines, and nothing while they fit in the buffer |
| ShellScript.ScriptBodyAppend | cmd/buildtool/run_job.go:200-204 | each command adds its line and a blank line |
| ShellScript.ScriptBodyLines | cmd/buildtool/run_job.go:197-205 | read line by line, the script body is every command followed by an empty line |
| ShellScript.WriteScript | cmd/buildtool/run_job.go:197-205 | the writer loop gives the header, a newline, and every command followed by "\n\n" |
| ShellScript.WriteShellScript | cmd/buildtool/run_job.go:188-207 | the path is <pwd>/<jobId>.sh; an open error is returned with no file; otherwise the file holds the script (utils.go:16-35 is the same function) |
| BuildTool.RunPieces | cmd/buildtool/run_job.go:47-51 | one trimmed line per line of the run text |
| BuildTool.RenderFromSpec | cmd/buildtool/run_job.go:72-83 | rendering succeeds exactly when every template renders, and gives the rendered lines in order |
| BuildTool.StepLinesSpec | cmd/buildtool/run_job.go:45-83 | a step with neither run nor use fails; otherwise its lines are the echo line and each rendered template, exactly when all render |
| BuildTool.OneLineRun | cmd/buildtool/run_job.go:47-51 | a one-line run text is one template |
| BuildTool.SplitRun | cmd/buildtool/run_job.go:47-51 | the splitting loop gives the trimmed lines |
| BuildTool.StepTemplates | cmd/buildtool/run_job.go:45-67 | run lines, else the use line, else none |
| BuildTool.StepCommands | cmd/buildtool/run_job.go:33-83 | one pass of the step loop gives the step's lines or its error |
| BuildTool.AssembleScript | cmd/buildtool/run_job.go:23-84 | the step loop gives the script lines or the first error |
| BuildTool.RunBuildInDocker | cmd/buildtool/run_job.go:98-181 | a ReadDir error comes first; otherwise the container runs /workdir/<id>.sh with every entry bound, and any non-zero exit fails |
| BuildTool.RunJob | cmd/buildtool/run_job.go:23-96 | runJob gives the error, script and container that `Job` defines |
| BuildTool.JobSpec | cmd/buildtool/run_job.go:23-96 | a script is written only when every step has run or use, and holds every step's lines; a container is asked for only after it, with the working directory bound |
| LocalRunner.WalkMounts | cmd/vlocal/run_job.go:27-42 | the walk callback binds every entry that is neither the root nor a directory, in walk order |
| LocalRunner.WorkMountsFiles | cmd/vlocal/run_job.go:28-42 | every bind comes from a walked file, and every walked file is bound |
| LocalRunner.WorkMountUnder | cmd/vlocal/run_job.go:35-39 | the file pwd/rel is bound to /workdir/ followed by its cleaned relative path |
| LocalRunner.ArtifactMount | cmd/vlocal/run_job.go:45-90 | one pass of the artifact loop gives the bind, the stop or the panic that `ResolveArtifact` defines |
| LocalRunner.BindArtifacts | cmd/vlocal/run_job.go:44-91 | the artifact loop gives the outcome that `ArtifactsRun` defines |
| LocalRunner.ArtifactsRunSpec | cmd/vlocal/run_job.go:44-91 | the loop gets through exactly when every artifact binds, appending the binds in order; otherwise it stops at the first one that does not |
| LocalRunner.TargetAbsolute | cmd/vlocal/run_job.go:57-72 | every container path is rooted, so filepath.Abs never fails on it |
| LocalRunner.TargetUnder | cmd/vlocal/run_job.go:57-63 | a relative target goes under /root/ when it starts with '~' (the '~' kept as a piece), and under /workdir/ otherwise |
| LocalRunner.RunJob | cmd/vlocal/run_job.go:24-176 | runJob gives the outcome that `Job` defines |
| LocalRunner.JobMounts | cmd/vlocal/run_job.go:27-122 | a container is asked for only when every artifact binds and the toolchains are listed; its binds are the work tree, the artifacts and the toolchains, in that order |
| LocalRunner.JobStops | cmd/vlocal/run_job.go:44-91 | the first artifact that does not bind ends the job: with a panic for a spec without ':', otherwise with its error and no container |
| LocalRunner.CreatedDirEndsJob | cmd/vlocal/run_job.go:74-83 | a missing host directory that MkdirAll creates ends the job with no error and no container |

## Left out

- Printing and logging (`fmt.Print*`, `log.*`) are not modelled. The bufio writer of `vset` is modelled with its 4096-byte buffer, after the WriteString of recent Go releases, which writes a long text straight to the file when the buffer is empty (older releases copy it through the buffer; the prefix properties hold for both). File writes are taken to succeed.
- Error texts made with a format string (`fmt.Errorf(buf.String())`, `fmt.Errorf(jm.Error.Message)`): the text is kept as is, and `%` verbs in it are not interpreted.
- text/template rendering, `os.ExpandEnv` and process execution are parameters of the model, not models of those packages.
- Go's map iteration order is a parameter. Each enumeration visits every key once.
- Config.ReplaceEnv: the update in place of a map that other values share (a step's `args` map is rewritten inside the job configuration) is modelled as a new map.
- Executor.RunStepCommands: the nil-pointer panic of `step.Args.ReplaceEnv()` (builtin/executor.go:122) is an error outcome with the runtime's message that ends the job; the process crash itself is not modelled.
- The bbolt database is the `Store` class. Opening it is an `openError` parameter. Transactions, file locking and the one-second timeout are not modelled.
- `CreateTmpDir` and `os.MkdirAll` of the output directory are not modelled beyond their error.
- The bufio scanner's line length limit is not modelled: a longer line would stop the scan in Go.
- filepath.Walk is a given sequence of entries. Its own error is dropped by the source and not modelled. A callback receiving a nil `info` with an error would panic in Go; that is not modelled.
- The Docker SDK calls are answers of a `Daemon` or parameters:
  - ContainerCreate, Start, Wait, Logs and Stop;
  - ImageList and ImagePull;
  - NewClientWithOpts and Info.
- The content of a streamed log (StreamDockerLog) is not modelled.
- RemoveImage, BuildImageWithOpts, TagImage, DeployImage, ConnectDockerHost and DockerClient.Close (core/docker.go) are single SDK calls with no logic of their own and are not modelled.
- DockerHelpers.PullAuthSpec: the JSON and base64 encoding of the credentials (core/docker.go:114-118) and its error are not modelled.
- The container's environment (`Env: os.Environ()`) is not part of `ContainerConfig`.
- JfrogPlugin.UploadSpec: URL parsing, MD5 hashing, the HTTP request and TLS are parameters of the `Server` answer. The 60-second timeout is not modelled.
- JfrogPlugin.SchemeEndpoint: a scheme is taken to be a run of ASCII letters followed by "://". URL schemes also allow digits, '+', '-' and '.'.
- `core.SumContentMD5` (core/utils.go:62-75) is not modelled: it only hashes a file.
- Characters stand for bytes of Go strings. The tokenizer's re-encoding of non-ASCII bytes as runes is not modelled.
- GoStrings.TrimSpace: only the six ASCII white-space bytes are trimmed. Go's TrimSpace also trims the multi-byte UTF-8 encodings of Unicode white space (U+0085, U+00A0, U+2000 and the like) at either end; over bytes the model keeps them.

## Findings

| source | as written | input that shows it | evidently intended | confidence | as-written member | corrected member |
|---|---|---|---|---|---|---|
| plugins/jfrog/main.go:147 | `path.Clean` is applied to the whole URL text, so the "//" of the scheme collapses to "/" | repository "http://host/repo" gives an endpoint starting "http:/host/repo" | the scheme's "//" is kept and only the path is cleaned | not executed | JfrogPlugin.EndpointLosesScheme | JfrogPlugin.UploadSchemeKeptSpec |
| core/docker.go:141 | `cli, err :=` declares a new `err` inside the loop, so client and Info errors never reach the error returned | two hosts that Setenv accepts and neither of which answers give ("", nil) | a search that finds no usable host reports the last error | not executed | DockerHelpers.ProbeErrorsDropped | DockerHelpers.VerifyReportingSpec |
