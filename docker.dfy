/** core/docker.go: the helpers around the Docker client. The Docker API
    calls (listing images, pulling, creating a client, asking a daemon for
    its information, decoding the JSON messages of a log) are answers given
    as parameters; what is modelled is what the helpers do with them. */
module DockerHelpers {
  import opened Wrappers
  import opened GoStrings
  import opened HostFiles
  import opened EnvUtils
  import opened Config

  // ---------------------------------------------------------------- ImageExist

  /** The reference ImageExist lists: given a ":latest" tag unless it holds
      a ':' anywhere, a registry port included. */
  function ImageRef(ref: string): string {
    if ':' in ref then ref else ref + ":latest"
  }

  /** A listed image. */
  datatype ImageSummary = ImageSummary(id: string)

  /** The ids of the listed images, in list order. */
  function ImageIds(images: seq<ImageSummary>): (ids: seq<string>)
    ensures |ids| == |images|
  {
    seq(|images|, i requires 0 <= i < |images| => images[i].id)
  }

  /** ImageExist: the images listed under the reference, their ids copied
      into a slice of the same length; the listing's error is returned with
      no ids. */
  method ImageExist(imageRef: string, list: string -> Result<seq<ImageSummary>>) returns (found: bool, ids: seq<string>, err: Option<string>)
    ensures var l := list(ImageRef(imageRef));
      (l.Err? ==> !found && ids == [] && err == Some(l.error))
      && (l.Ok? ==> err == None && ids == ImageIds(l.value) && (found <==> |l.value| > 0))
  {
    var ref := imageRef;
    if ':' !in ref {
      ref := ref + ":latest";
    }
    var images := list(ref);
    if images.Err? {
      return false, [], Some(images.error);
    }
    var imgs := images.value;
    var buf := new string[|imgs|];
    for i := 0 to |imgs|
      invariant forall j :: 0 <= j < i ==> buf[j] == imgs[j].id
    {
      buf[i] := imgs[i].id;
    }
    ids := buf[..];
    found, err := |ids| > 0, None;
  }

  /** A reference with a tag, or with a registry port and no tag, is listed
      as it is; any other gets ":latest"; the result always holds a ':' and
      is listed unchanged a second time. */
  lemma ImageRefSpec(ref: string)
    ensures ':' in ref ==> ImageRef(ref) == ref
    ensures ':' !in ref ==> ImageRef(ref) == ref + ":latest"
    ensures ':' in ImageRef(ref) && ImageRef(ImageRef(ref)) == ImageRef(ref)
  {
    if ':' !in ref {
      var r := ref + ":latest";
      assert r[|ref|] == ':';
    }
  }

  // ---------------------------------------------------------------- PullImage

  /** How PullImage pulls: anonymously, or with the registry's credentials
      after their '$' references are substituted. */
  datatype PullAuth = Anonymous | Credentials(username: string, password: string)

  function PullAuthOf(registry: RegistryConfig, expand: string -> string): PullAuth {
    if IsBlank(registry.username) || IsBlank(registry.password) then Anonymous
    else Credentials(ReadEnvVariableIfHas(registry.username, expand), ReadEnvVariableIfHas(registry.password, expand))
  }

  /** The pull is anonymous exactly when the username or the password is
      blank; credentials are never blank. */
  lemma PullAuthSpec(registry: RegistryConfig, expand: string -> string)
    ensures PullAuthOf(registry, expand).Anonymous? <==> IsBlank(registry.username) || IsBlank(registry.password)
    ensures var a := PullAuthOf(registry, expand); a.Credentials? ==> a.username != [] && a.password != []
  {
    ReadEnvOutcome(registry.username, expand);
    ReadEnvOutcome(registry.password, expand);
  }

  // ---------------------------------------------------------------- VerifyDockerHostConnection

  const DockerHostKey: string := "DOCKER_HOST"
  const NilClientError: string := "can not init docker client"

  function ConnectError(e: string): string {
    "connect docker host error: " + e
  }

  /** What trying a host gives once DOCKER_HOST names it: the error of
      creating the client, a nil client, the error of Info, or an answer. */
  datatype Probe = ClientError(error: string) | NilClient | InfoError(error: string) | Reached

  /** A host the loop settles on: DOCKER_HOST can be set to it and it
      answers. */
  predicate Usable(host: string, probe: string -> Probe) {
    !SetenvFails(DockerHostKey, host) && probe(host).Reached?
  }

  /** The loop as written, from host `i` on, in environment `env`; `failed`
      is whether the outer `err` holds a Setenv error. A client or Info
      error goes to the `err` declared inside the loop by `cli, err :=`, so
      only the last Setenv decides the error returned. */
  function VerifyFrom(hosts: seq<string>, i: nat, env: map<string, string>, failed: bool, probe: string -> Probe): (string, Option<string>, map<string, string>)
    requires i <= |hosts|
    decreases |hosts| - i
  {
    if i == |hosts| then ("", if failed then Some(ConnectError(SetenvError)) else None, env)
    else
      var (f, env') := Setenv(env, DockerHostKey, hosts[i]);
      if f then VerifyFrom(hosts, i + 1, env', true, probe)
      else if probe(hosts[i]).Reached? then (hosts[i], None, env')
      else VerifyFrom(hosts, i + 1, env', false, probe)
  }

  method VerifyDockerHostConnection(hosts: seq<string>, env0: map<string, string>, probe: string -> Probe)
    returns (host: string, err: Option<string>, env: map<string, string>)
    ensures (host, err, env) == VerifyFrom(hosts, 0, env0, false, probe)
  {
    env := env0;
    var lastErr: Option<string> := None;
    for i := 0 to |hosts|
      invariant VerifyFrom(hosts, i, env, lastErr.Some?, probe) == VerifyFrom(hosts, 0, env0, false, probe)
      invariant lastErr.Some? ==> lastErr == Some(SetenvError)
    {
      var (failed, env') := Setenv(env, DockerHostKey, hosts[i]);
      env := env';
      lastErr := if failed then Some(SetenvError) else None;
      if failed {
        continue;
      }
      var p := probe(hosts[i]);
      var innerErr: Option<string> := None;
      if p.ClientError? {
        innerErr := Some(p.error);
        continue;
      }
      if p.NilClient? {
        innerErr := Some(NilClientError);
        continue;
      }
      if p.InfoError? {
        innerErr := Some(p.error);
        continue;
      }
      return hosts[i], None, env;
    }
    if lastErr.Some? {
      return "", Some(ConnectError(lastErr.value)), env;
    }
    host, err := "", None;
  }

  /** The loop settles on the first usable host, with no error. */
  lemma {:induction false} VerifyFromFirst(hosts: seq<string>, i: nat, env: map<string, string>, failed: bool, probe: string -> Probe, j: nat)
    requires i <= j < |hosts| && Usable(hosts[j], probe)
    requires forall j' :: i <= j' < j ==> !Usable(hosts[j'], probe)
    ensures VerifyFrom(hosts, i, env, failed, probe).0 == hosts[j]
    ensures VerifyFrom(hosts, i, env, failed, probe).1 == None
    decreases |hosts| - i
  {
    if i < j {
      var (f, env') := Setenv(env, DockerHostKey, hosts[i]);
      VerifyFromFirst(hosts, i + 1, env', f, probe, j);
    }
  }

  /** When no host is usable the loop returns "" and an error only if
      Setenv refused the last host (or, with no host left, refused the one
      before). */
  lemma {:induction false} VerifyFromNone(hosts: seq<string>, i: nat, env: map<string, string>, failed: bool, probe: string -> Probe)
    requires i <= |hosts|
    requires forall j :: i <= j < |hosts| ==> !Usable(hosts[j], probe)
    ensures var r := VerifyFrom(hosts, i, env, failed, probe);
      r.0 == "" && r.1 == (if (i < |hosts| && SetenvFails(DockerHostKey, hosts[|hosts| - 1])) || (i == |hosts| && failed)
                           then Some(ConnectError(SetenvError)) else None)
    decreases |hosts| - i
  {
    if i < |hosts| {
      var (f, env') := Setenv(env, DockerHostKey, hosts[i]);
      VerifyFromNone(hosts, i + 1, env', f, probe);
    }
  }

  /** Failing probes are not reported: when Setenv accepts every host and
      none answers, the result is "" with no error. */
  lemma ProbeErrorsDropped(hosts: seq<string>, env: map<string, string>, probe: string -> Probe)
    requires |hosts| > 0
    requires forall h <- hosts :: !SetenvFails(DockerHostKey, h) && !probe(h).Reached?
    ensures VerifyFrom(hosts, 0, env, false, probe).0 == ""
    ensures VerifyFrom(hosts, 0, env, false, probe).1 == None
  {
    VerifyFromNone(hosts, 0, env, false, probe);
    assert hosts[|hosts| - 1] in hosts;
  }

  /** The error a failed attempt leaves, when one is left. */
  function AttemptError(host: string, probe: string -> Probe): Option<string> {
    if SetenvFails(DockerHostKey, host) then Some(SetenvError)
    else match probe(host)
      case ClientError(e) => Some(e)
      case NilClient => Some(NilClientError)
      case InfoError(e) => Some(e)
      case Reached => None
  }

  /** The loop with one `err`: every failed attempt, of Setenv or of the
      probe, is remembered, and the last one is reported when no host
      answers. */
  function VerifyReporting(hosts: seq<string>, i: nat, env: map<string, string>, lastErr: Option<string>, probe: string -> Probe): (string, Option<string>, map<string, string>)
    requires i <= |hosts|
    decreases |hosts| - i
  {
    if i == |hosts| then ("", if lastErr.Some? then Some(ConnectError(lastErr.value)) else None, env)
    else
      var (f, env') := Setenv(env, DockerHostKey, hosts[i]);
      if !f && probe(hosts[i]).Reached? then (hosts[i], None, env')
      else VerifyReporting(hosts, i + 1, env', AttemptError(hosts[i], probe), probe)
  }

  /** With the error kept, a search over at least one host that finds none
      always reports one, the last attempt's; the host chosen and the
      environment left are those of the loop as written. */
  lemma {:induction false} VerifyReportingSpec(hosts: seq<string>, i: nat, env: map<string, string>, lastErr: Option<string>, failed: bool, probe: string -> Probe)
    requires i <= |hosts|
    ensures var r, w := VerifyReporting(hosts, i, env, lastErr, probe), VerifyFrom(hosts, i, env, failed, probe);
      r.0 == w.0 && r.2 == w.2
      && ((forall j :: i <= j < |hosts| ==> !Usable(hosts[j], probe)) && i < |hosts| ==>
            r.1 == Some(ConnectError(AttemptError(hosts[|hosts| - 1], probe).value)))
    decreases |hosts| - i
  {
    if i < |hosts| {
      var (f, env') := Setenv(env, DockerHostKey, hosts[i]);
      VerifyReportingSpec(hosts, i + 1, env', AttemptError(hosts[i], probe), f, probe);
    }
  }

  // ---------------------------------------------------------------- DisplayDockerLog

  /** What one Decode call gives: a message, with its stream text and its
      error if it carries one, or a decoding error other than io.EOF. The
      end of the input (io.EOF) is the end of the sequence. */
  datatype Decoded = Message(stream: string, error: Option<string>) | DecodeError(reason: string)

  /** The text collected from the messages, or the first error; on an
      error the text collected so far is dropped. */
  function LogText(ms: seq<Decoded>): Result<string>
    decreases |ms|
  {
    if ms == [] then Ok([])
    else
      var prev := LogText(ms[..|ms| - 1]);
      var m := ms[|ms| - 1];
      if prev.Err? then prev
      else match m
        case DecodeError(e) => Err(e)
        case Message(s, e) => if e.Some? then Err(e.value) else Ok(prev.value + s)
  }

  method DisplayDockerLog(ms: seq<Decoded>) returns (text: string, err: Option<string>)
    ensures var r := LogText(ms);
      (r.Ok? ==> text == r.value && err == None) && (r.Err? ==> text == [] && err == Some(r.error))
  {
    var buf: string := [];
    var i := 0;
    while i < |ms|
      invariant 0 <= i <= |ms|
      invariant LogText(ms[..i]) == Ok(buf)
    {
      assert ms[..i + 1][..i] == ms[..i];
      var jm := ms[i];
      if jm.DecodeError? {
        LogErrSticks(ms, i + 1);
        return "", Some(jm.reason);
      }
      if jm.error.Some? {
        LogErrSticks(ms, i + 1);
        return "", jm.error;
      }
      if jm.stream == "" {
        assert buf + jm.stream == buf;
        i := i + 1;
        continue;
      }
      buf := buf + jm.stream;
      i := i + 1;
    }
    assert ms[..i] == ms;
    text, err := buf, None;
  }

  /** Once a message has failed, later ones change nothing. */
  lemma {:induction false} LogErrSticks(ms: seq<Decoded>, i: nat)
    requires i <= |ms| && LogText(ms[..i]).Err?
    ensures LogText(ms) == LogText(ms[..i])
    decreases |ms|
  {
    if i < |ms| {
      var front := ms[..|ms| - 1];
      assert front[..i] == ms[..i];
      LogErrSticks(front, i);
    } else {
      assert ms[..i] == ms;
    }
  }

  /** A message that does not end the log. */
  predicate Passes(m: Decoded) {
    m.Message? && m.error.None?
  }

  /** The error a failing message ends the log with. */
  function Failure(m: Decoded): string
    requires !Passes(m)
  {
    if m.DecodeError? then m.reason else m.error.value
  }

  /** The stream text of each message, "" for a decoding error. */
  function Streams(ms: seq<Decoded>): (r: seq<string>)
    ensures |r| == |ms|
  {
    seq(|ms|, i requires 0 <= i < |ms| => if ms[i].Message? then ms[i].stream else [])
  }

  /** The log is read whole exactly when no message fails, and is then the
      messages' stream texts in order. */
  lemma {:induction false} LogTextWhole(ms: seq<Decoded>)
    ensures LogText(ms).Ok? <==> forall m <- ms :: Passes(m)
    ensures LogText(ms).Ok? ==> LogText(ms).value == Concat(Streams(ms))
    decreases |ms|
  {
    if ms != [] {
      var front := ms[..|ms| - 1];
      var m := ms[|ms| - 1];
      LogTextWhole(front);
      assert ms == front + [m];
      assert forall x <- front :: x in ms;
      assert m in ms;
      if LogText(front).Err? {
        var x :| x in front && !Passes(x);
        assert x in ms;
      } else if Passes(m) {
        assert Streams(ms) == Streams(front) + [m.stream];
        ConcatAppend(Streams(front), m.stream);
      }
    }
  }

  /** A log that fails ends with the error of its first failing message. */
  lemma {:induction false} LogTextFirstError(ms: seq<Decoded>, j: nat)
    requires j < |ms| && !Passes(ms[j])
    requires forall j' :: 0 <= j' < j ==> Passes(ms[j'])
    ensures LogText(ms) == Err(Failure(ms[j]))
    decreases |ms|
  {
    var front := ms[..|ms| - 1];
    if j < |ms| - 1 {
      LogTextFirstError(front, j);
    } else {
      assert front == ms[..j];
      LogTextWhole(front);
      assert forall m <- front :: Passes(m);
    }
  }
}
