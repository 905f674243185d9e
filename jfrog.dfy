/** plugins/jfrog/main.go: the plugin that uploads one file to a JFrog
    Artifactory repository. `main` trims and checks its flags, one after the
    other, and stops at the first failure; `uploadFile` builds the
    repository path of the artifact and sends the file there with an HTTP
    PUT. The two regular expressions `isValid` applies are written out as
    character tests, each proved equal to a reading of its pattern. The
    file system, the MD5 sum and the HTTP exchange are answers of the host. */
module JfrogPlugin {
  import opened Wrappers
  import opened GoStrings
  import opened GoPath
  import opened CommandLine

  // ---------------------------------------------------------------- the patterns

  predicate IsLetter(c: char) {
    ('a' <= c <= 'z') || ('A' <= c <= 'Z')
  }

  /** The class [a-zA-Z0-9_-]. */
  predicate IsWordChar(c: char) {
    IsAlnum(c) || c == '_' || c == '-'
  }

  /** One or more characters of [a-zA-Z0-9_-]. */
  predicate IsWord(p: string) {
    p != [] && forall k :: 0 <= k < |p| ==> IsWordChar(p[k])
  }

  /** `[a-zA-Z0-9_-]+(\.[a-zA-Z0-9_-]+)*`: words joined by single dots. */
  predicate DotWords(m: string) {
    forall p <- Split(m, '.') :: IsWord(p)
  }

  /** groupPattern, `^[a-zA-Z][a-zA-Z0-9_-]+(\.[a-zA-Z0-9_-]+)*[0-9a-zA-Z]$`:
      a letter, dot-joined words, an alphanumeric character. */
  predicate GroupPattern(s: string) {
    |s| >= 2 && IsLetter(s[0]) && IsAlnum(s[|s| - 1]) && DotWords(s[1..|s| - 1])
  }

  /** artifactPattern, `^[a-zA-Z]([a-zA-Z0-9_-])*[0-9a-zA-Z]$`. */
  predicate ArtifactPattern(s: string) {
    |s| >= 2 && IsLetter(s[0]) && IsAlnum(s[|s| - 1])
    && forall k :: 1 <= k < |s| - 1 ==> IsWordChar(s[k])
  }

  /** The middle of a group, tested character by character: word
      characters and dots, neither first nor last, no dot next to a dot. */
  predicate DottedRun(m: string) {
    m != [] && m[0] != '.' && m[|m| - 1] != '.'
    && forall k {:trigger m[k]} :: 0 <= k < |m| ==>
         IsWordChar(m[k]) || (m[k] == '.' && k + 1 < |m| && m[k + 1] != '.')
  }

  /** The recogniser of groups: at least three characters, a letter first,
      an alphanumeric character last, a dotted run between them. */
  predicate ValidGroup(s: string) {
    |s| >= 3 && IsLetter(s[0]) && IsAlnum(s[|s| - 1]) && DottedRun(s[1..|s| - 1])
  }

  /** Splitting after a first piece of word characters. */
  lemma DottedRunAfterFirst(m: string, i: nat)
    requires i < |m| && m[i] == '.' && '.' !in m[..i]
    ensures DottedRun(m) <==> IsWord(m[..i]) && DottedRun(m[i + 1..])
  {
    var a, b := m[..i], m[i + 1..];
    assert m == a + ['.'] + b;
    if DottedRun(m) {
      assert i > 0;
      forall k | 0 <= k < |a|
        ensures IsWordChar(a[k])
      {
        assert a[k] == m[k] && a[k] in m[..i];
        assert m[k] != '.';
      }
      assert b != [] && b[0] == m[i + 1];
      forall k | 0 <= k < |b|
        ensures IsWordChar(b[k]) || (b[k] == '.' && k + 1 < |b| && b[k + 1] != '.')
      {
        assert b[k] == m[i + 1 + k];
        if k + 1 < |b| {
          assert b[k + 1] == m[i + 1 + k + 1];
        }
      }
    }
    if IsWord(a) && DottedRun(b) {
      forall k | 0 <= k < |m|
        ensures IsWordChar(m[k]) || (m[k] == '.' && k + 1 < |m| && m[k + 1] != '.')
      {
        if k < i {
          assert m[k] == a[k];
        } else if k == i {
          assert m[k + 1] == b[0];
        } else {
          assert m[k] == b[k - i - 1];
          if k + 1 < |m| {
            assert m[k + 1] == b[k - i];
          }
        }
      }
    }
  }

  /** The character test of the middle agrees with the pattern's words. */
  lemma {:induction false} DottedRunWords(m: string)
    ensures DottedRun(m) <==> DotWords(m)
    decreases |m|
  {
    if '.' in m {
      var i := SplitFirst(m, '.');
      DottedRunAfterFirst(m, i);
      DottedRunWords(m[i + 1..]);
      var ps := Split(m[i + 1..], '.');
      assert Split(m, '.') == [m[..i]] + ps;
      assert forall p <- ps :: p in Split(m, '.');
    } else {
      SplitNoSeparator(m, '.');
      assert Split(m, '.') == [m];
      NoDotRun(m);
    }
  }

  /** Without dots, the middle's test is that of a word. */
  lemma NoDotRun(m: string)
    requires '.' !in m
    ensures DottedRun(m) <==> IsWord(m)
  {
    forall k | 0 <= k < |m|
      ensures m[k] != '.'
    {
      assert m[k] in m;
    }
  }

  /** isValid(groupPattern, s) is the character test. */
  lemma GroupRecogniser(s: string)
    ensures ValidGroup(s) <==> GroupPattern(s)
  {
    if |s| >= 2 {
      var m := s[1..|s| - 1];
      DottedRunWords(m);
      if |s| == 2 {
        assert m == [];
        assert Split(m, '.') == [[]];
      }
    }
  }

  /** A group has at least three characters; it neither starts nor ends
      with a dot and has no two dots in a row. */
  lemma GroupShape(s: string)
    requires GroupPattern(s)
    ensures |s| >= 3 && s[0] != '.' && s[|s| - 1] != '.'
    ensures forall k :: 0 <= k < |s| - 1 ==> s[k] != '.' || s[k + 1] != '.'
  {
    GroupRecogniser(s);
    var m := s[1..|s| - 1];
    forall k | 0 <= k < |s| - 1
      ensures s[k] != '.' || s[k + 1] != '.'
    {
      if 1 <= k && s[k] == '.' {
        assert m[k - 1] == s[k];
      }
    }
  }

  /** Its first and last dot-separated pieces have at least two characters:
      a one-character piece there is refused, inside it is accepted. */
  lemma GroupEnds()
    ensures !GroupPattern("a.bc") && !GroupPattern("ab.c")
    ensures GroupPattern("ab.c.de")
  {
    GroupRecogniser("a.bc");
    GroupRecogniser("ab.c");
    GroupRecogniser("ab.c.de");
    var m := "ab.c.de"[1..6];
    assert m == "b.c.d";
    forall k | 0 <= k < |m|
      ensures IsWordChar(m[k]) || (m[k] == '.' && k + 1 < |m| && m[k + 1] != '.')
    {
      assert k == 0 || k == 1 || k == 2 || k == 3 || k == 4;
    }
  }

  /** On names without dots of at least three characters the two patterns
      accept the same names; two characters make an artifact id only. */
  lemma DotFreeGroups(s: string)
    requires '.' !in s
    ensures |s| >= 3 ==> (GroupPattern(s) <==> ArtifactPattern(s))
    ensures |s| == 2 ==> !GroupPattern(s)
  {
    GroupRecogniser(s);
    if |s| >= 2 {
      var m := s[1..|s| - 1];
      assert forall c <- m :: c in s;
      NoDotRun(m);
      assert IsWord(m) <==> m != [] && forall k :: 1 <= k < |s| - 1 ==> IsWordChar(s[k]) by {
        assert forall k :: 1 <= k < |s| - 1 ==> s[k] == m[k - 1];
      }
    }
  }

  // ---------------------------------------------------------------- the flags

  /** The flags as parsed. */
  datatype Flags = Flags(
    repository: string, group: string, artifactId: string, version: string,
    insecure: bool, username: string, password: string, source: string)

  /** What os.Stat says of the source. */
  datatype SourceState = RegularFile | Folder | StatError(error: string)

  /** The checked flags handed to uploadFile. */
  datatype Package = Package(
    repository: string, insecure: bool, group: string, artifactId: string,
    version: string, source: string, username: string, password: string)

  /** The flags main requires, in the order it checks them, with the names
      its messages give them. */
  function Required(f: Flags): seq<(string, string)> {
    [("group", f.group), ("artifact id", f.artifactId), ("repository", f.repository),
     ("username", f.username), ("password", f.password), ("source", f.source)]
  }

  /** The name of the first blank flag, if any. */
  function FirstMissing(req: seq<(string, string)>): Option<string>
    decreases |req|
  {
    if req == [] then None
    else if IsBlank(req[0].1) then Some(req[0].0)
    else FirstMissing(req[1..])
  }

  /** The checks of main: the presence of each required flag, then the
      group's and the artifact id's patterns, then the source, which must
      be a file that os.Stat can read. The message of the first failure, or
      the trimmed flags; the version is passed on as given. */
  function CheckFlags(f: Flags, stat: string -> SourceState): Result<Package> {
    var missing := Missing(f);
    if missing.Some? then Err(missing.value + " is missing") else CheckFormats(Trimmed(f), stat)
  }

  /** The presence checks, in the order main makes them: the name of the
      first blank flag. */
  function Missing(f: Flags): Option<string> {
    if IsBlank(f.group) then Some("group")
    else if IsBlank(f.artifactId) then Some("artifact id")
    else if IsBlank(f.repository) then Some("repository")
    else if IsBlank(f.username) then Some("username")
    else if IsBlank(f.password) then Some("password")
    else if IsBlank(f.source) then Some("source")
    else None
  }

  /** The flags trimmed, all but the version. */
  function Trimmed(f: Flags): Package {
    Package(TrimSpace(f.repository), f.insecure, TrimSpace(f.group), TrimSpace(f.artifactId), f.version,
            TrimSpace(f.source), TrimSpace(f.username), TrimSpace(f.password))
  }

  /** The checks after the presence checks. */
  function CheckFormats(p: Package, stat: string -> SourceState): Result<Package> {
    if !ValidGroup(p.group) then Err("group value is malformed")
    else if !ArtifactPattern(p.artifactId) then Err("artifact value is malformed")
    else match stat(p.source)
      case StatError(e) => Err("source is malformed: " + e)
      case Folder => Err("source is not file")
      case RegularFile => Ok(p)
  }

  /** main up to the upload: each flag trimmed in place, then tested, an
      error ending the run. */
  method CheckArguments(f: Flags, stat: string -> SourceState) returns (r: Result<Package>)
    ensures r == CheckFlags(f, stat)
  {
    var missing, p := TrimRequired(f);
    if missing.Some? {
      return Err(missing.value + " is missing");
    }
    r := ValidateFormats(p, stat);
  }

  /** The presence checks of main, each flag trimmed in place first. */
  method TrimRequired(f: Flags) returns (missing: Option<string>, p: Package)
    ensures missing == Missing(f)
    ensures missing.None? ==> p == Trimmed(f)
  {
    p := Trimmed(f);
    var group := TrimSpace(f.group);
    if group == "" {
      return Some("group"), p;
    }
    var artifactId := TrimSpace(f.artifactId);
    if artifactId == "" {
      return Some("artifact id"), p;
    }
    var repository := TrimSpace(f.repository);
    if repository == "" {
      return Some("repository"), p;
    }
    var username := TrimSpace(f.username);
    if username == "" {
      return Some("username"), p;
    }
    var password := TrimSpace(f.password);
    if password == "" {
      return Some("password"), p;
    }
    var source := TrimSpace(f.source);
    if source == "" {
      return Some("source"), p;
    }
    missing, p := None, Package(repository, f.insecure, group, artifactId, f.version, source, username, password);
  }

  /** The format checks of main, on the trimmed flags. */
  method ValidateFormats(p: Package, stat: string -> SourceState) returns (r: Result<Package>)
    ensures r == CheckFormats(p, stat)
  {
    if !ValidGroup(p.group) {
      return Err("group value is malformed");
    }
    if !ArtifactPattern(p.artifactId) {
      return Err("artifact value is malformed");
    }
    var fi := stat(p.source);
    if fi.StatError? {
      return Err("source is malformed: " + fi.error);
    }
    if fi.Folder? {
      return Err("source is not file");
    }
    r := Ok(p);
  }

  /** FirstMissing names the first blank flag, and only when there is one. */
  lemma {:induction false} FirstMissingSpec(req: seq<(string, string)>)
    ensures FirstMissing(req).None? <==> forall j :: 0 <= j < |req| ==> !IsBlank(req[j].1)
    ensures FirstMissing(req).Some? ==>
      exists j :: 0 <= j < |req| && IsBlank(req[j].1) && FirstMissing(req) == Some(req[j].0)
                  && forall j' :: 0 <= j' < j ==> !IsBlank(req[j'].1)
    decreases |req|
  {
    if req != [] && !IsBlank(req[0].1) {
      FirstMissingSpec(req[1..]);
      var r := FirstMissing(req[1..]);
      if r.Some? {
        var j :| 0 <= j < |req[1..]| && IsBlank(req[1..][j].1) && r == Some(req[1..][j].0)
                 && forall j' :: 0 <= j' < j ==> !IsBlank(req[1..][j'].1);
        assert req[j + 1] == req[1..][j];
        assert forall j' :: 1 <= j' < j + 1 ==> req[j'] == req[1..][j' - 1];
      }
    }
  }

  /** The presence checks stop at the first blank flag of Required. */
  lemma PresenceFirst(f: Flags)
    ensures Missing(f) == FirstMissing(Required(f))
  {
    var r0 := Required(f);
    var r5: seq<(string, string)> := [("source", f.source)];
    var r4 := [("password", f.password)] + r5;
    var r3 := [("username", f.username)] + r4;
    var r2 := [("repository", f.repository)] + r3;
    var r1 := [("artifact id", f.artifactId)] + r2;
    assert r0 == [("group", f.group)] + r1;
    assert r5[1..] == [];
    assert FirstMissing(r5) == if IsBlank(f.source) then Some("source") else None;
    assert r4[1..] == r5;
    assert FirstMissing(r4) == if IsBlank(f.password) then Some("password") else FirstMissing(r5);
    assert r3[1..] == r4;
    assert FirstMissing(r3) == if IsBlank(f.username) then Some("username") else FirstMissing(r4);
    assert r2[1..] == r3;
    assert FirstMissing(r2) == if IsBlank(f.repository) then Some("repository") else FirstMissing(r3);
    assert r1[1..] == r2;
    assert FirstMissing(r1) == if IsBlank(f.artifactId) then Some("artifact id") else FirstMissing(r2);
    assert r0[1..] == r1;
    assert FirstMissing(r0) == if IsBlank(f.group) then Some("group") else FirstMissing(r1);
  }

  /** The first blank required flag, in the order group, artifact id,
      repository, username, password, source, is the one reported. */
  lemma MissingReported(f: Flags, stat: string -> SourceState, j: nat)
    requires j < |Required(f)| && IsBlank(Required(f)[j].1)
    requires forall j' :: 0 <= j' < j ==> !IsBlank(Required(f)[j'].1)
    ensures CheckFlags(f, stat) == Err(Required(f)[j].0 + " is missing")
  {
    var req := Required(f);
    FirstMissingSpec(req);
    PresenceFirst(f);
    var i :| 0 <= i < |req| && IsBlank(req[i].1) && FirstMissing(req) == Some(req[i].0)
             && forall j' :: 0 <= j' < i ==> !IsBlank(req[j'].1);
    assert i == j;
  }

  /** The flags are accepted exactly when every required flag is present,
      the group and the artifact id match their patterns and the source is
      a file; the package then holds the trimmed flags and the version as
      given, which is never checked. */
  lemma CheckFlagsSpec(f: Flags, stat: string -> SourceState)
    ensures var r := CheckFlags(f, stat);
      (r.Ok? <==>
        (forall j :: 0 <= j < |Required(f)| ==> !IsBlank(Required(f)[j].1))
        && GroupPattern(TrimSpace(f.group)) && ArtifactPattern(TrimSpace(f.artifactId))
        && stat(TrimSpace(f.source)) == RegularFile)
      && (r.Ok? ==> r.value.version == f.version && r.value.group == TrimSpace(f.group)
                    && r.value.artifactId == TrimSpace(f.artifactId) && r.value.source == TrimSpace(f.source)
                    && r.value.repository == TrimSpace(f.repository))
  {
    FirstMissingSpec(Required(f));
    PresenceFirst(f);
    GroupRecogniser(TrimSpace(f.group));
  }

  /** A format error is reported only once every required flag is present. */
  lemma FormatAfterPresence(f: Flags, stat: string -> SourceState)
    requires CheckFlags(f, stat) in {Err("group value is malformed"), Err("artifact value is malformed"), Err("source is not file")}
    ensures forall j :: 0 <= j < |Required(f)| ==> !IsBlank(Required(f)[j].1)
  {
    FirstMissingSpec(Required(f));
    PresenceFirst(f);
  }

  // ---------------------------------------------------------------- the endpoint

  /** The artifact's file name: id, '-', version, the source's extension. */
  function FileName(p: Package): string {
    p.artifactId + "-" + p.version + Ext(p.source)
  }

  /** The text uploadFile writes to its builder: the repository, a '/'
      unless it ends with one, the group with its dots as slashes, the id,
      the version and the file name, separated by '/'. */
  function EndpointText(p: Package): (t: string)
    ensures HasPrefix(t, p.repository)
  {
    var t := p.repository + (if HasSuffix(p.repository, "/") then "" else "/")
      + ReplaceChar(p.group, '.', '/') + "/" + p.artifactId + "/" + p.version + "/" + FileName(p);
    assert t[..|p.repository|] == p.repository;
    t
  }

  /** The endpoint as uploadFile builds it: the whole text through
      path.Clean. */
  function Endpoint(p: Package): string {
    Clean(EndpointText(p))
  }

  /** The successive writes to the builder, then path.Clean. */
  method BuildEndpoint(p: Package) returns (endpoint: string)
    ensures endpoint == Endpoint(p)
  {
    var group := ReplaceChar(p.group, '.', '/');
    var ext := Ext(p.source);
    var fileName := p.artifactId + "-" + p.version + ext;
    var builder := p.repository;
    if !HasSuffix(p.repository, "/") {
      builder := builder + "/";
    } else {
      assert builder == builder + "";
    }
    builder := builder + group;
    builder := builder + "/";
    builder := builder + p.artifactId;
    builder := builder + "/";
    builder := builder + p.version;
    builder := builder + "/";
    builder := builder + fileName;
    endpoint := Clean(builder);
  }

  /** path.Clean turns the "//" after "http:" into one slash: the text
      built from an http repository starts with "http://", the endpoint
      never does. */
  lemma EndpointLosesScheme(p: Package)
    requires HasPrefix(p.repository, "http://")
    ensures HasPrefix(EndpointText(p), "http://")
    ensures !HasPrefix(Endpoint(p), "http://")
  {
    var t := EndpointText(p);
    assert t[..7] == t[..|p.repository|][..7];
    var r := Endpoint(p);
    CleanNoDoubleSlash(t);
    if |r| >= 7 {
      assert !(r[5] == '/' && r[6] == '/');
      assert r[..7][5] == r[5] && r[..7][6] == r[6];
    }
  }

  /** The length of the run of letters that starts the text. */
  function LetterRun(s: string): (n: nat)
    ensures n <= |s| && (forall k :: 0 <= k < n ==> IsLetter(s[k]))
    ensures n < |s| ==> !IsLetter(s[n])
    decreases |s|
  {
    if s != [] && IsLetter(s[0]) then 1 + LetterRun(s[1..]) else 0
  }

  /** The length of a leading "<letters>://", or 0. */
  function SchemeEnd(s: string): (e: nat)
    ensures e <= |s|
    ensures e > 0 ==> e >= 4 && s[e - 3..e] == "://"
  {
    var k := LetterRun(s);
    if k > 0 && HasPrefix(s[k..], "://") then k + 3 else 0
  }

  /** The endpoint with the scheme kept: only what follows "<scheme>://"
      goes through path.Clean. */
  function SchemeEndpoint(p: Package): string {
    var t := EndpointText(p);
    var e := SchemeEnd(t);
    t[..e] + Clean(t[e..])
  }

  /** An http repository keeps its "http://", and what follows has no
      doubled slash; without a scheme the endpoint is uploadFile's. */
  lemma SchemeEndpointSpec(p: Package)
    ensures HasPrefix(p.repository, "http://") ==> HasPrefix(SchemeEndpoint(p), "http://")
    ensures var e, r := SchemeEnd(EndpointText(p)), SchemeEndpoint(p);
      forall i :: e <= i < |r| - 1 ==> !(r[i] == '/' && r[i + 1] == '/')
    ensures SchemeEnd(EndpointText(p)) == 0 ==> SchemeEndpoint(p) == Endpoint(p)
  {
    var t := EndpointText(p);
    var e := SchemeEnd(t);
    var c := Clean(t[e..]);
    CleanNoDoubleSlash(t[e..]);
    var r := SchemeEndpoint(p);
    assert r == t[..e] + c;
    forall i | e <= i < |r| - 1
      ensures !(r[i] == '/' && r[i + 1] == '/')
    {
      assert r[i] == c[i - e] && r[i + 1] == c[i - e + 1];
    }
    if HasPrefix(p.repository, "http://") {
      assert t[..7] == t[..|p.repository|][..7];
      HttpScheme(t);
      assert r[..7] == t[..7];
    }
    if e == 0 {
      assert t[..0] == [] && t[0..] == t;
    }
  }

  lemma HttpScheme(s: string)
    requires HasPrefix(s, "http://")
    ensures SchemeEnd(s) == 7
  {
    var k := LetterRun(s);
    assert s[4] == ':' && IsLetter(s[0]) && IsLetter(s[1]) && IsLetter(s[2]) && IsLetter(s[3]);
    assert k == 4;
    assert s[k..][..3] == "://";
  }

  // ---------------------------------------------------------------- the upload

  const StatusCreated: int := 201

  /** What the host answers uploadFile: url.Parse's error and the parsed
      scheme, the errors of os.Open, of the MD5 sum, of building the request
      and of sending it, the sum, and the response's status code and text. */
  datatype Server = Server(
    parseError: Option<string>, scheme: string, openError: Option<string>,
    sumError: Option<string>, md5: string, requestError: Option<string>,
    sendError: Option<string>, status: int, statusText: string)

  /** The PUT request sent: where, its checksum header, its basic
      credentials, and whether TLS certificates go unverified. */
  datatype Request = Request(endpoint: string, checksum: string, username: string, password: string, skipVerify: bool)

  /** uploadFile once its endpoint is built: the error returned and the
      request sent to `endpoint`, if any. Only a 201 answer is a success;
      TLS verification is skipped only for an https repository with the
      insecure flag. */
  function UploadTo(p: Package, s: Server, endpoint: string): (Option<string>, Option<Request>) {
    if s.parseError.Some? then (s.parseError, None)
    else if s.openError.Some? then (s.openError, None)
    else if s.sumError.Some? then (s.sumError, None)
    else if s.requestError.Some? then (s.requestError, None)
    else
      var req := Request(endpoint, s.md5, p.username, p.password, s.scheme == "https" && p.insecure);
      if s.sendError.Some? then (s.sendError, Some(req))
      else if s.status != StatusCreated then (Some(s.statusText), Some(req))
      else (None, Some(req))
  }

  /** uploadFile as written: the request goes to path.Clean of the whole
      text. */
  function Upload(p: Package, s: Server): (Option<string>, Option<Request>) {
    UploadTo(p, s, Endpoint(p))
  }

  /** The upload succeeds exactly when every step succeeds and the server
      answers 201; whenever a request goes out it goes to uploadFile's
      endpoint with the package's credentials, and for an http repository
      that endpoint has lost the "//" of its scheme. */
  lemma UploadSpec(p: Package, s: Server)
    ensures var (err, req) := Upload(p, s);
      (err.None? <==>
        s.parseError.None? && s.openError.None? && s.sumError.None? && s.requestError.None?
        && s.sendError.None? && s.status == StatusCreated)
      && (req.Some? ==> req.value.endpoint == Endpoint(p) && req.value.username == p.username
                        && req.value.password == p.password && req.value.checksum == s.md5
                        && (req.value.skipVerify ==> s.scheme == "https"))
      && (req.Some? && HasPrefix(p.repository, "http://") ==> !HasPrefix(req.value.endpoint, "http://"))
      && (err.None? ==> req.Some?)
  {
    if HasPrefix(p.repository, "http://") {
      EndpointLosesScheme(p);
    }
  }

  /** The upload with the scheme kept out of path.Clean. */
  function UploadSchemeKept(p: Package, s: Server): (Option<string>, Option<Request>) {
    UploadTo(p, s, SchemeEndpoint(p))
  }

  /** The corrected upload fails and succeeds exactly where uploadFile
      does, sends the same request but for its endpoint, and an http
      repository's request keeps its "http://". */
  lemma UploadSchemeKeptSpec(p: Package, s: Server)
    ensures UploadSchemeKept(p, s).0 == Upload(p, s).0
    ensures UploadSchemeKept(p, s).1.Some? <==> Upload(p, s).1.Some?
    ensures var req := UploadSchemeKept(p, s).1;
      req.Some? ==> req.value == Upload(p, s).1.value.(endpoint := SchemeEndpoint(p))
    ensures var req := UploadSchemeKept(p, s).1;
      req.Some? && HasPrefix(p.repository, "http://") ==> HasPrefix(req.value.endpoint, "http://")
  {
    SchemeEndpointSpec(p);
  }
}
