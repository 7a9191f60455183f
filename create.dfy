/// subcommands/pkg/create.go: `plakar pkg create [-out file] manifest.yaml`.
///
/// `Parse` resolves the manifest's path, reads the manifest and derives the
/// output file's name; `Execute` packs the plugin into a ptar archive
/// through a fixed chain of engine steps. The file system, the manifest
/// parser and the archive engine are parameters: the first two as a
/// function from path to what opening and parsing it yields, the engine as
/// the error (if any) each step returns and the number of files the backup
/// could not read.
module PkgCreate {
  import opened Wrappers
  import opened Paths
  import opened Manifests
  import PkgImporter

  /// What `os.Open` and then `Manifest.Parse` yield for a path.
  datatype ManifestFile = OpenFailed(reason: string) | ParseFailed(reason: string) | Parsed(manifest: Manifest)

  /// The process environment `Parse` consults: the working directory, the
  /// GOOS/GOARCH environment variables ("" when unset) and the platform
  /// the binary runs on.
  datatype Env = Env(cwd: string, goosEnv: string, goarchEnv: string, runtimeGoos: string, runtimeGoarch: string)

  datatype ParseError =
    | WrongUsage
    | CantOpen(path: string, reason: string)
    | BadManifest(path: string, reason: string)

  function ParseMessage(e: ParseError): string {
    match e
    case WrongUsage => "wrong usage"
    case CantOpen(path, reason) => "can't open " + path + ": " + reason
    case BadManifest(path, reason) => "failed to parse the manifest " + path + ": " + reason
  }

  /// The target platform: the environment variable when set, else the
  /// platform the binary runs on.
  function TargetOs(env: Env): string {
    if env.goosEnv != "" then env.goosEnv else env.runtimeGoos
  }

  function TargetArch(env: Env): string {
    if env.goarchEnv != "" then env.goarchEnv else env.runtimeGoarch
  }

  /// `<name>_<version>_<os>_<arch>.ptar`.
  function PtarName(name: string, version: string, goos: string, goarch: string): string {
    name + "_" + version + "_" + goos + "_" + goarch + ".ptar"
  }

  /// The fields of `PkgCreate` that `Parse` assigns and `Execute` reads.
  datatype CreateState = CreateState(base: string, out: string, manifest: Manifest, manifestPath: string)

  /// `Parse` on the state before the call: the new state and the error.
  /// The `-out` flag's value is stored first, whatever happens next.
  function ParseSpec(s: CreateState, env: Env, outFlag: string, args: seq<string>,
                     files: string -> ManifestFile): (CreateState, Option<ParseError>)
  {
    var s1 := s.(out := outFlag);
    if |args| != 1 then (s1, Some(WrongUsage))
    else
      var path := PkgImporter.Absolutify(env.cwd, args[0]);
      var s2 := s1.(base := Dir(path), manifestPath := path);
      match files(path)
      case OpenFailed(reason) => (s2, Some(CantOpen(path, reason)))
      case ParseFailed(reason) => (s2, Some(BadManifest(path, reason)))
      case Parsed(m) => (s2.(manifest := m, out := if outFlag == "" then DefaultOut(env, m) else outFlag), None)
  }

  /// The output file when `-out` is not given: the ptar name for the
  /// manifest and the target platform, in the working directory.
  function DefaultOut(env: Env, m: Manifest): string {
    Join([env.cwd, PtarName(m.name, m.version, TargetOs(env), TargetArch(env))])
  }

  /// Storage configuration choices that differ from the defaults.
  datatype StorageConfig = StorageConfig(encrypted: bool, packfileMaxSize: nat)

  datatype BackupOptions = BackupOptions(maxConcurrency: nat, noCheckpoint: bool, noCommit: bool)

  const MaxUint64: nat := 0xFFFF_FFFF_FFFF_FFFF

  /// The engine calls `Execute` makes, in source order.
  datatype Step =
    | SerializeConfig(config: StorageConfig)
    | WrapConfig
    | ReadWrappedConfig
    | CreateStorage(location: string)
    | NewRepository
    | GetScanCache
    | CreateSnapshot
    | StartEvents
    | Backup(importer: PkgImporter.Importer, options: BackupOptions)
    | CloseEvents
    | WaitPackers
    | Commit
    | CloseStorage

  /// Steps that return an error; the events processor and the packer
  /// wait cannot fail.
  predicate Fallible(st: Step) {
    !(st.StartEvents? || st.CloseEvents? || st.WaitPackers?)
  }

  datatype ExecError = StepFailed(step: Step, reason: string) | FilesFailed

  function ExecMessage(e: ExecError): string {
    match e
    case FilesFailed => "failed to package all the files"
    case StepFailed(st, reason) =>
      var what := match st
        case SerializeConfig(_) => "failed to serialize configuration"
        case WrapConfig => "failed to wrap configuration"
        case ReadWrappedConfig => "failed to read wrapped configuration"
        case CreateStorage(_) => "failed to create the storage"
        case NewRepository => "failed to create ptar"
        case GetScanCache => "failed to get the scan cache"
        case CreateSnapshot => "failed to create snapshot"
        case Backup(_, _) => "failed to populate the snapshot"
        case Commit => "failed to commit transaction"
        case CloseStorage => "failed to close the storage"
        case _ => "";
      what + ": " + reason
  }

  const BackupIndex: nat := 8

  /// The steps up to the snapshot's creation: an unencrypted
  /// configuration with the largest packfile size and a ptar storage at
  /// the output path.
  function SetupPlan(s: CreateState): (p: seq<Step>)
    ensures |p| == 7
    ensures p[0] == SerializeConfig(StorageConfig(false, MaxUint64))
    ensures p[3] == CreateStorage("ptar:" + s.out)
  {
    [SerializeConfig(StorageConfig(false, MaxUint64)), WrapConfig, ReadWrappedConfig,
     CreateStorage("ptar:" + s.out), NewRepository, GetScanCache, CreateSnapshot]
  }

  /// The steps from the backup on: a single-threaded backup of the
  /// manifest's directory that neither checkpoints nor commits by itself,
  /// inside the events processor's lifetime, then the commit and close.
  function BackupPlan(s: CreateState): (p: seq<Step>)
    ensures |p| == 6 && p[1].Backup?
    ensures p[1].importer == PkgImporter.Importer(s.base, s.manifest, s.manifestPath)
    ensures p[1].options == BackupOptions(1, true, true)
    ensures p[0] == StartEvents && p[2] == CloseEvents
    ensures p[3..] == [WaitPackers, Commit, CloseStorage]
  {
    [StartEvents,
     Backup(PkgImporter.Importer(s.base, s.manifest, s.manifestPath), BackupOptions(1, true, true)),
     CloseEvents, WaitPackers, Commit, CloseStorage]
  }

  /// Every step `Execute` would make if nothing failed.
  function Plan(s: CreateState): seq<Step> {
    SetupPlan(s) + BackupPlan(s)
  }

  predicate Fails(st: Step, fails: Step -> Option<string>) {
    Fallible(st) && fails(st).Some?
  }

  predicate AllSucceed(steps: seq<Step>, fails: Step -> Option<string>) {
    forall i :: 0 <= i < |steps| ==> !Fails(steps[i], fails)
  }

  /// The steps a failing step is followed by: the events processor is
  /// closed after the backup whether or not it failed.
  function Cleanup(st: Step): seq<Step> {
    if st.Backup? then [CloseEvents] else []
  }

  /// Running `plan` until a fallible step fails: the steps made and the
  /// failure.
  function Run(plan: seq<Step>, fails: Step -> Option<string>): (seq<Step>, Option<ExecError>) {
    if |plan| == 0 then ([], None)
    else if Fails(plan[0], fails) then
      ([plan[0]] + Cleanup(plan[0]), Some(StepFailed(plan[0], fails(plan[0]).value)))
    else
      var (trace, err) := Run(plan[1..], fails);
      ([plan[0]] + trace, err)
  }

  /// `Execute`: status, error and the engine calls made. A failed step
  /// ends the command; with every step done, the number of files the
  /// backup could not read decides the status.
  function ExecuteSpec(s: CreateState, fails: Step -> Option<string>, sourceErrors: nat): (int, Option<ExecError>, seq<Step>) {
    var (trace, err) := Run(Plan(s), fails);
    if err.Some? then (1, err, trace)
    else if sourceErrors != 0 then (1, Some(FilesFailed), trace)
    else (0, None, trace)
  }

  /// `PkgCreate`.
  class PkgCreate {
    var base: string
    var out: string
    var manifest: Manifest
    var manifestPath: string

    constructor ()
      ensures State() == CreateState("", "", Manifest("", "", []), "")
    {
      base, out, manifest, manifestPath := "", "", Manifest("", "", []), "";
    }

    function State(): CreateState
      reads this
    {
      CreateState(base, out, manifest, manifestPath)
    }

    /// `Parse(ctx, args)`, with the `-out` flag already separated from the
    /// positional arguments.
    method Parse(env: Env, outFlag: string, args: seq<string>, files: string -> ManifestFile)
      returns (err: Option<ParseError>)
      modifies this
      ensures (State(), err) == ParseSpec(old(State()), env, outFlag, args, files)
    {
      out := outFlag;
      if |args| != 1 {
        return Some(WrongUsage);
      }
      var path := args[0];
      if !IsAbs(path) {
        path := Join([env.cwd, path]);
      } else {
        path := Clean(path);
      }
      base := Dir(path);
      manifestPath := path;
      var file := files(path);
      if file.OpenFailed? {
        return Some(CantOpen(path, file.reason));
      }
      if file.ParseFailed? {
        return Some(BadManifest(path, file.reason));
      }
      manifest := file.manifest;
      var goos, goarch := env.runtimeGoos, env.runtimeGoarch;
      if env.goosEnv != "" {
        goos := env.goosEnv;
      }
      if env.goarchEnv != "" {
        goarch := env.goarchEnv;
      }
      if out == "" {
        out := Join([env.cwd, PtarName(manifest.name, manifest.version, goos, goarch)]);
      }
      return None;
    }

    /// `Execute`: storage, repository and snapshot are set up, the
    /// snapshot is populated and committed, then the files the backup
    /// could not read decide the status.
    method Execute(fails: Step -> Option<string>, sourceErrors: nat)
      returns (status: int, err: Option<ExecError>, trace: seq<Step>)
      ensures (status, err, trace) == ExecuteSpec(State(), fails, sourceErrors)
    {
      RunConcat(SetupPlan(State()), BackupPlan(State()), fails);
      trace, err := Prepare(fails);
      if err.Some? {
        return 1, err, trace;
      }
      var rest;
      rest, err := Populate(fails);
      trace := trace + rest;
      if err.Some? {
        return 1, err, trace;
      }
      if sourceErrors != 0 {
        return 1, Some(FilesFailed), trace;
      }
      return 0, None, trace;
    }

    /// Serialising and wrapping the configuration, creating the storage,
    /// the repository, the scan cache and the snapshot; the first failure
    /// ends it.
    method Prepare(fails: Step -> Option<string>) returns (trace: seq<Step>, err: Option<ExecError>)
      ensures (trace, err) == Run(SetupPlan(State()), fails)
    {
      ghost var plan := SetupPlan(State());
      var config := StorageConfig(false, MaxUint64);
      trace := [SerializeConfig(config)];
      var e := fails(SerializeConfig(config));
      if e.Some? {
        StopsAt(plan, fails, 0, trace);
        return trace, Some(StepFailed(SerializeConfig(config), e.value));
      }
      trace := trace + [WrapConfig];
      e := fails(WrapConfig);
      if e.Some? {
        StopsAt(plan, fails, 1, trace);
        return trace, Some(StepFailed(WrapConfig, e.value));
      }
      trace := trace + [ReadWrappedConfig];
      e := fails(ReadWrappedConfig);
      if e.Some? {
        StopsAt(plan, fails, 2, trace);
        return trace, Some(StepFailed(ReadWrappedConfig, e.value));
      }
      var location := "ptar:" + out;
      trace := trace + [CreateStorage(location)];
      e := fails(CreateStorage(location));
      if e.Some? {
        StopsAt(plan, fails, 3, trace);
        return trace, Some(StepFailed(CreateStorage(location), e.value));
      }
      trace := trace + [NewRepository];
      e := fails(NewRepository);
      if e.Some? {
        StopsAt(plan, fails, 4, trace);
        return trace, Some(StepFailed(NewRepository, e.value));
      }
      trace := trace + [GetScanCache];
      e := fails(GetScanCache);
      if e.Some? {
        StopsAt(plan, fails, 5, trace);
        return trace, Some(StepFailed(GetScanCache, e.value));
      }
      trace := trace + [CreateSnapshot];
      e := fails(CreateSnapshot);
      if e.Some? {
        StopsAt(plan, fails, 6, trace);
        return trace, Some(StepFailed(CreateSnapshot, e.value));
      }
      assert trace == plan;
      RunAt(plan, fails, 7);
      return trace, None;
    }

    /// The backup inside the events processor's lifetime (closed whether
    /// or not the backup failed), then waiting for the packers, the commit
    /// and closing the storage; the first failure ends it.
    method Populate(fails: Step -> Option<string>) returns (trace: seq<Step>, err: Option<ExecError>)
      ensures (trace, err) == Run(BackupPlan(State()), fails)
    {
      ghost var plan := BackupPlan(State());
      var imp := PkgImporter.Importer(base, manifest, manifestPath);
      var backup := Backup(imp, BackupOptions(1, true, true));
      trace := [StartEvents, backup];
      var e := fails(backup);
      trace := trace + [CloseEvents];
      if e.Some? {
        StopsAt(plan, fails, 1, trace);
        return trace, Some(StepFailed(backup, e.value));
      }
      trace := trace + [WaitPackers, Commit];
      e := fails(Commit);
      if e.Some? {
        StopsAt(plan, fails, 4, trace);
        return trace, Some(StepFailed(Commit, e.value));
      }
      trace := trace + [CloseStorage];
      e := fails(CloseStorage);
      if e.Some? {
        StopsAt(plan, fails, 5, trace);
        return trace, Some(StepFailed(CloseStorage, e.value));
      }
      assert trace == plan;
      RunAt(plan, fails, 6);
      return trace, None;
    }
  }

  /// A failing step `k` after `k` successful ones ends a run: the steps
  /// made are those up to it and its cleanup.
  lemma StopsAt(plan: seq<Step>, fails: Step -> Option<string>, k: nat, trace: seq<Step>)
    requires k < |plan| && AllSucceed(plan[..k], fails) && Fails(plan[k], fails)
    requires trace == plan[..k + 1] + Cleanup(plan[k])
    ensures Run(plan, fails) == (trace, Some(StepFailed(plan[k], fails(plan[k]).value)))
  {
    RunAt(plan, fails, k);
  }

  /// Running one plan after another: the second starts only when every
  /// step of the first succeeded.
  lemma {:induction false} RunConcat(pre: seq<Step>, post: seq<Step>, fails: Step -> Option<string>)
    ensures Run(pre, fails).1.None? ==> Run(pre, fails).0 == pre
    ensures Run(pre + post, fails)
         == if Run(pre, fails).1.Some? then Run(pre, fails)
            else (pre + Run(post, fails).0, Run(post, fails).1)
  {
    if |pre| == 0 {
      assert pre + post == post;
      assert pre + Run(post, fails).0 == Run(post, fails).0;
    } else {
      assert (pre + post)[0] == pre[0];
      assert (pre + post)[1..] == pre[1..] + post;
      RunConcat(pre[1..], post, fails);
      if !Fails(pre[0], fails) && Run(pre, fails).1.None? {
        assert [pre[0]] + pre[1..] == pre;
        assert [pre[0]] + (pre[1..] + Run(post, fails).0) == pre + Run(post, fails).0;
      }
    }
  }

  /// `Run` is determined by the first failing step `k` (or `|plan|` when
  /// none fails): the steps up to and including it, its cleanup, and its
  /// error.
  lemma {:induction false} RunAt(plan: seq<Step>, fails: Step -> Option<string>, k: nat)
    requires k <= |plan| && AllSucceed(plan[..k], fails)
    requires k < |plan| ==> Fails(plan[k], fails)
    ensures k == |plan| ==> Run(plan, fails) == (plan, None)
    ensures k < |plan| ==>
      Run(plan, fails) == (plan[..k + 1] + Cleanup(plan[k]), Some(StepFailed(plan[k], fails(plan[k]).value)))
    decreases k
  {
    if k > 0 {
      assert plan[..k][0] == plan[0];
      assert plan[1..][..k - 1] == plan[1..k];
      assert forall i :: 0 <= i < k - 1 ==> plan[1..k][i] == plan[..k][i + 1];
      RunAt(plan[1..], fails, k - 1);
      var (t, e) := Run(plan[1..], fails);
      assert Run(plan, fails) == ([plan[0]] + t, e);
      if k < |plan| {
        assert plan[1..][k - 1] == plan[k];
        assert t == plan[1..][..k] + Cleanup(plan[k]);
        assert [plan[0]] + plan[1..][..k] == plan[..k + 1];
        assert [plan[0]] + t == plan[..k + 1] + Cleanup(plan[k]);
      } else {
        assert [plan[0]] + plan[1..] == plan;
      }
    } else if |plan| > 0 {
      assert plan[..1] == [plan[0]];
    }
  }

  /// Every plan has a first failing step, or none fails.
  lemma {:induction false} FirstFailure(plan: seq<Step>, fails: Step -> Option<string>) returns (k: nat)
    ensures k <= |plan| && AllSucceed(plan[..k], fails)
    ensures k < |plan| ==> Fails(plan[k], fails)
  {
    if |plan| == 0 || Fails(plan[0], fails) {
      k := 0;
    } else {
      var j := FirstFailure(plan[1..], fails);
      k := j + 1;
      assert forall i :: 1 <= i < k ==> plan[..k][i] == plan[1..][..j][i - 1];
    }
  }

  // ---- Parse ----

  /// `Parse` fails with "wrong usage" exactly when there is not exactly one
  /// positional argument, and then has stored only the `-out` value; a
  /// given `-out` is kept whatever happens.
  lemma ParseArity(s: CreateState, env: Env, outFlag: string, args: seq<string>, files: string -> ManifestFile)
    ensures var (t, err) := ParseSpec(s, env, outFlag, args, files);
      (err == Some(WrongUsage) <==> |args| != 1) &&
      (|args| != 1 ==> t == s.(out := outFlag)) &&
      (outFlag != "" ==> t.out == outFlag)
  {
  }

  /// With one argument, the manifest path is the argument made absolute,
  /// the base is its directory (also when opening or parsing fails), and
  /// `Parse` succeeds exactly when the manifest is read and parsed.
  lemma ParseResolves(s: CreateState, env: Env, outFlag: string, arg: string, files: string -> ManifestFile)
    ensures var (t, err) := ParseSpec(s, env, outFlag, [arg], files);
      var path := PkgImporter.Absolutify(env.cwd, arg);
      t.manifestPath == path && t.base == Dir(path) &&
      (err.None? <==> files(path).Parsed?) &&
      (files(path).OpenFailed? ==> err == Some(CantOpen(path, files(path).reason))) &&
      (files(path).ParseFailed? ==> err == Some(BadManifest(path, files(path).reason))) &&
      (files(path).Parsed? ==> t.manifest == files(path).manifest &&
                               t.out == if outFlag == "" then DefaultOut(env, files(path).manifest) else outFlag)
  {
  }

  /// A manifest given relative to a canonical working directory lands below
  /// it, and its directory (the base) is the one holding the manifest.
  lemma {:induction false} RelativeManifestLocation(cs: seq<string>, rs: seq<string>)
    requires AllCanon(cs) && AllCanon(rs) && |rs| >= 1
    ensures var path := PkgImporter.Absolutify(AbsPath(cs), JoinSep(rs));
      path == AbsPath(cs + rs) && Dir(path) == AbsPath(cs + rs[..|rs| - 1])
  {
    PkgImporter.AbsolutifyRelative(cs, rs);
    var all := cs + rs;
    assert AllCanon(all);
    DirCanon(all);
    assert all[..|all| - 1] == cs + rs[..|rs| - 1];
  }

  /// An absolute canonical manifest path is kept as is.
  lemma {:induction false} AbsoluteManifestLocation(cwd: string, rs: seq<string>)
    requires AllCanon(rs) && |rs| >= 1
    ensures var path := PkgImporter.Absolutify(cwd, AbsPath(rs));
      path == AbsPath(rs) && Dir(path) == AbsPath(rs[..|rs| - 1])
  {
    assert IsAbs(AbsPath(rs));
    CleanCanonical(rs);
    DirCanon(rs);
  }

  /// No '/' in the name, version and platform makes the ptar name a single
  /// path component.
  lemma PtarNameComponent(name: string, version: string, goos: string, goarch: string)
    requires Sep !in name && Sep !in version && Sep !in goos && Sep !in goarch
    ensures CanonElem(PtarName(name, version, goos, goarch))
  {
    var p := PtarName(name, version, goos, goarch);
    assert p[|p| - 5..] == ".ptar";
    assert Sep !in p by {
      assert p == name + "_" + version + "_" + goos + "_" + goarch + ".ptar";
      assert forall c :: c in p ==> c in name || c in version || c in goos || c in goarch || c in "_.ptar";
    }
  }

  /// Without `-out`, the output is `<name>_<version>_<os>_<arch>.ptar`
  /// directly inside the working directory, the platform taken from
  /// GOOS/GOARCH when set.
  lemma {:induction false} DefaultOutInCwd(cs: seq<string>, env: Env, m: Manifest)
    requires AllCanon(cs) && env.cwd == AbsPath(cs)
    requires Sep !in m.name && Sep !in m.version && Sep !in TargetOs(env) && Sep !in TargetArch(env)
    ensures var name := PtarName(m.name, m.version, TargetOs(env), TargetArch(env));
      DefaultOut(env, m) == AbsPath(cs + [name]) &&
      Dir(DefaultOut(env, m)) == env.cwd && Base(DefaultOut(env, m)) == name
  {
    var name := PtarName(m.name, m.version, TargetOs(env), TargetArch(env));
    PtarNameComponent(m.name, m.version, TargetOs(env), TargetArch(env));
    assert JoinSep([name]) == name;
    JoinAbsRelative(cs, [name]);
    DirBase(cs + [name]);
    assert (cs + [name])[..|cs + [name]| - 1] == cs;
  }

  // ---- Execute ----

  /// Status 0 exactly when every step succeeds and the backup read every
  /// file; the error is absent exactly then. When every step succeeds,
  /// all of them were made, the commit and the close included, even when
  /// files were missed and the status is 1.
  lemma ExecuteStatus(s: CreateState, fails: Step -> Option<string>, sourceErrors: nat)
    ensures var (status, err, trace) := ExecuteSpec(s, fails, sourceErrors);
      (status == 0 || status == 1) && (err.None? <==> status == 0) &&
      (status == 0 <==> AllSucceed(Plan(s), fails) && sourceErrors == 0) &&
      (AllSucceed(Plan(s), fails) ==> trace == Plan(s)) &&
      (AllSucceed(Plan(s), fails) && sourceErrors != 0 ==> err == Some(FilesFailed))
  {
    var k := FirstFailure(Plan(s), fails);
    RunAt(Plan(s), fails, k);
    if k == |Plan(s)| {
      assert Plan(s)[..k] == Plan(s);
    }
  }

  /// A step failing at or before the backup ends `Execute` with status 1
  /// and that step's error, before the packers are waited for and before
  /// any commit or close; a failed backup is still followed by closing
  /// the events processor.
  lemma {:induction false} ExecuteEarlyFailure(s: CreateState, fails: Step -> Option<string>, sourceErrors: nat, k: nat)
    requires k <= BackupIndex && AllSucceed(Plan(s)[..k], fails) && Fails(Plan(s)[k], fails)
    ensures var (status, err, trace) := ExecuteSpec(s, fails, sourceErrors);
      status == 1 && err == Some(StepFailed(Plan(s)[k], fails(Plan(s)[k]).value)) &&
      WaitPackers !in trace && Commit !in trace && CloseStorage !in trace &&
      (k == BackupIndex ==> trace == Plan(s)[..BackupIndex + 2])
  {
    var plan := Plan(s);
    RunAt(plan, fails, k);
    var trace := plan[..k + 1] + Cleanup(plan[k]);
    var early := plan[..BackupIndex + 2];
    assert early == SetupPlan(s) + [StartEvents, plan[BackupIndex], CloseEvents];
    assert WaitPackers !in early && Commit !in early && CloseStorage !in early;
    if k == BackupIndex {
      assert trace == early;
    } else {
      assert !plan[k].Backup?;
      assert forall i :: 0 <= i < |trace| ==> trace[i] == early[i];
    }
  }
}
