/// subcommands/pkg/build.go: `plakar pkg build recipe`.
///
/// `Parse` reads the recipe and checks its plugin name and version;
/// `Execute` clones the recipe's repository at that version into a fresh
/// temporary directory, runs `make` there and packages the result with
/// `pkg create`. The temporary directory, git and make are external: the
/// outcome of creating the directory and the failure (if any) of each
/// command are parameters, as are the inputs of the create step. Semantic
/// version validity is a predicate parameter.
module PkgBuild {
  import opened Wrappers
  import opened Paths
  import opened Manifests
  import PkgFetch
  import PkgCreate
  import PkgImporter
  import GoStrings

  predicate NameChar(c: char) {
    c == '_' || 'a' <= c <= 'z' || 'A' <= c <= 'Z' || '0' <= c <= '9'
  }

  /// `namere`: the whole name matches `[_a-zA-Z0-9]+`.
  predicate ValidName(name: string) {
    |name| > 0 && forall i :: 0 <= i < |name| ==> NameChar(name[i])
  }

  datatype ParseError =
    | WrongUsage
    | RecipeFailed(arg: string, cause: PkgFetch.RecipeError)
    | InvalidName(name: string)
    | InvalidVersion(version: string)

  function ParseMessage(e: ParseError): string {
    match e
    case WrongUsage => "wrong usage"
    case RecipeFailed(arg, cause) => "failed to parse the " + GoStrings.Quote(arg) + " recipe: " + PkgFetch.RecipeMessage(cause)
    case InvalidName(name) => "not a valid plugin name: " + name
    case InvalidVersion(version) => "not a valid version string: " + version
  }

  /// `Parse` on the recipe held before the call: the recipe held after it
  /// and the error. The recipe is replaced once it is read, before its
  /// name and then its version are checked.
  function ParseSpec(prev: PkgFetch.Recipe, args: seq<string>, files: string -> PkgFetch.RecipeFile,
                     semverValid: string -> bool): (PkgFetch.Recipe, Option<ParseError>)
  {
    if |args| != 1 then (prev, Some(WrongUsage))
    else
      match PkgFetch.GetRecipeSpec(args[0], files)
      case Err(cause) => (prev, Some(RecipeFailed(args[0], cause)))
      case Ok(r) =>
        if !ValidName(r.name) then (r, Some(InvalidName(r.name)))
        else if !semverValid(r.version) then (r, Some(InvalidVersion(r.version)))
        else (r, None)
  }

  /// The pattern of the temporary build directory's name.
  function TempPattern(r: PkgFetch.Recipe): string {
    "build-" + r.name + "-" + r.version + "-*"
  }

  /// `git clone --depth=1 --branch <version> <repository> <destdir>`.
  function CloneArgs(destdir: string, r: PkgFetch.Recipe): seq<string> {
    ["clone", "--depth=1", "--branch", r.version, r.repository, destdir]
  }

  /// `make -C <datadir>`, with `EXT=.exe` when either the GOOS variable or
  /// the running platform is windows.
  function MakeArgs(datadir: string, env: PkgCreate.Env): seq<string> {
    ["-C", datadir] + if env.goosEnv == "windows" || env.runtimeGoos == "windows" then ["EXT=.exe"] else []
  }

  const ManifestName: string := "manifest.yaml"

  /// What `Execute` asks of the system.
  datatype Command = MkdirTemp(pattern: string) | Exec(program: string, args: seq<string>) | RemoveAll(dir: string)

  /// The outside world of `Execute`: the temporary directory created (or
  /// why not), the failure of each command, and the file system and
  /// engine the create step runs against.
  datatype World = World(
    tmp: Result<string, string>,
    exec: Command -> Option<string>,
    files: string -> PkgCreate.ManifestFile,
    fails: PkgCreate.Step -> Option<string>,
    sourceErrors: nat)

  datatype BuildError =
    | TempDirFailed(reason: string)
    | CloneFailed(repository: string, version: string, reason: string)
    | MakeFailed(reason: string)
    | CreateParseFailed(parse: PkgCreate.ParseError)
    | CreateFailed(exec: PkgCreate.ExecError)

  function BuildMessage(e: BuildError): string {
    match e
    case TempDirFailed(reason) => "failed to create a temp dir: " + reason
    case CloneFailed(repository, version, reason) =>
      "failed to clone " + repository + ": " + version + ": git clone failed: " + reason
    case MakeFailed(reason) => "make failed: " + reason
    case CreateParseFailed(parse) => PkgCreate.ParseMessage(parse)
    case CreateFailed(exec) => PkgCreate.ExecMessage(exec)
  }

  /// A `PkgCreate` as a zero value.
  const EmptyCreate: PkgCreate.CreateState := PkgCreate.CreateState("", "", Manifest("", "", []), "")

  /// The create step's state once its `Parse` succeeded and `Out` was
  /// overwritten with the package name.
  function CreateInput(dir: string, env: PkgCreate.Env, pkgName: string, files: string -> PkgCreate.ManifestFile):
    (PkgCreate.CreateState, Option<PkgCreate.ParseError>)
  {
    var (st, err) := PkgCreate.ParseSpec(EmptyCreate, env, "", [Join([dir, ManifestName])], files);
    (st.(out := pkgName), err)
  }

  /// Building inside the temporary directory: clone, make, then create;
  /// the commands run and the outcome.
  function BuildIn(dir: string, r: PkgFetch.Recipe, env: PkgCreate.Env, pkgName: string, w: World):
    (int, Option<BuildError>, seq<Command>)
  {
    var git := Exec("git", CloneArgs(dir, r));
    if w.exec(git).Some? then (1, Some(CloneFailed(r.repository, r.version, w.exec(git).value)), [git])
    else
      var make := Exec("make", MakeArgs(dir, env));
      if w.exec(make).Some? then (1, Some(MakeFailed(w.exec(make).value)), [git, make])
      else
        var (st, perr) := CreateInput(dir, env, pkgName, w.files);
        if perr.Some? then (1, Some(CreateParseFailed(perr.value)), [git, make])
        else
          var (status, err, _) := PkgCreate.ExecuteSpec(st, w.fails, w.sourceErrors);
          (status, if err.Some? then Some(CreateFailed(err.value)) else None, [git, make])
  }

  /// `Execute`: the temporary directory is created first and, once it
  /// exists, removed after everything else.
  function ExecuteSpec(r: PkgFetch.Recipe, env: PkgCreate.Env, pkgName: string, w: World):
    (int, Option<BuildError>, seq<Command>)
  {
    var mk := MkdirTemp(TempPattern(r));
    match w.tmp
    case Err(reason) => (1, Some(TempDirFailed(reason)), [mk])
    case Ok(dir) =>
      var (status, err, cmds) := BuildIn(dir, r, env, pkgName, w);
      (status, err, [mk] + cmds + [RemoveAll(dir)])
  }

  /// `PkgBuild`.
  class PkgBuild {
    var recipe: PkgFetch.Recipe

    constructor ()
      ensures recipe == PkgFetch.Recipe("", "", "")
    {
      recipe := PkgFetch.Recipe("", "", "");
    }

    method Parse(args: seq<string>, files: string -> PkgFetch.RecipeFile, semverValid: string -> bool)
      returns (err: Option<ParseError>)
      modifies this
      ensures (recipe, err) == ParseSpec(old(recipe), args, files, semverValid)
    {
      if |args| != 1 {
        return Some(WrongUsage);
      }
      var got := PkgFetch.GetRecipe(args[0], files);
      if got.Err? {
        return Some(RecipeFailed(args[0], got.error));
      }
      recipe := got.value;
      if !ValidName(recipe.name) {
        return Some(InvalidName(recipe.name));
      }
      if !semverValid(recipe.version) {
        return Some(InvalidVersion(recipe.version));
      }
      return None;
    }

    /// `Execute`, where `pkgName` is the recipe's package name.
    method Execute(env: PkgCreate.Env, pkgName: string, w: World)
      returns (status: int, err: Option<BuildError>, cmds: seq<Command>)
      ensures (status, err, cmds) == ExecuteSpec(recipe, env, pkgName, w)
    {
      var pattern := "build-" + recipe.name + "-" + recipe.version + "-*";
      cmds := [MkdirTemp(pattern)];
      if w.tmp.Err? {
        return 1, Some(TempDirFailed(w.tmp.error)), cmds;
      }
      var datadir := w.tmp.value;
      var git := Exec("git", ["clone", "--depth=1", "--branch", recipe.version, recipe.repository, datadir]);
      cmds := cmds + [git];
      var failure := w.exec(git);
      if failure.Some? {
        cmds := cmds + [RemoveAll(datadir)];
        return 1, Some(CloneFailed(recipe.repository, recipe.version, failure.value)), cmds;
      }
      var args := ["-C", datadir];
      if env.goosEnv == "windows" || env.runtimeGoos == "windows" {
        args := args + ["EXT=.exe"];
      }
      assert args == MakeArgs(datadir, env);
      var make := Exec("make", args);
      cmds := cmds + [make];
      failure := w.exec(make);
      if failure.Some? {
        cmds := cmds + [RemoveAll(datadir)];
        assert cmds == [MkdirTemp(pattern)] + [git, make] + [RemoveAll(datadir)];
        return 1, Some(MakeFailed(failure.value)), cmds;
      }
      var manifest := Join([datadir, ManifestName]);
      var create := new PkgCreate.PkgCreate();
      var perr := create.Parse(env, "", [manifest], w.files);
      if perr.Some? {
        cmds := cmds + [RemoveAll(datadir)];
        assert cmds == [MkdirTemp(pattern)] + [git, make] + [RemoveAll(datadir)];
        return 1, Some(CreateParseFailed(perr.value)), cmds;
      }
      create.out := pkgName;
      var cerr, trace;
      status, cerr, trace := create.Execute(w.fails, w.sourceErrors);
      cmds := cmds + [RemoveAll(datadir)];
      assert cmds == [MkdirTemp(pattern)] + [git, make] + [RemoveAll(datadir)];
      err := if cerr.Some? then Some(CreateFailed(cerr.value)) else None;
    }
  }

  // ---- Parse ----

  /// `Parse` succeeds exactly when there is one argument, its recipe is
  /// read, the name matches `[_a-zA-Z0-9]+` and the version is a valid
  /// semantic version. The name is checked before the version, and the
  /// recipe held afterwards is the one read whenever reading succeeded.
  lemma ParseChecks(prev: PkgFetch.Recipe, args: seq<string>, files: string -> PkgFetch.RecipeFile,
                    semverValid: string -> bool)
    ensures var (r, err) := ParseSpec(prev, args, files, semverValid);
      (err == Some(WrongUsage) <==> |args| != 1) &&
      (|args| == 1 ==> var got := PkgFetch.GetRecipeSpec(args[0], files);
        (got.Err? ==> r == prev && err == Some(RecipeFailed(args[0], got.error))) &&
        (got.Ok? ==> r == got.value) &&
        (err.None? <==> got.Ok? && ValidName(got.value.name) && semverValid(got.value.version))) &&
      (err.Some? && err.value.InvalidVersion? ==> ValidName(r.name)) &&
      (|args| != 1 ==> r == prev)
  {
  }

  /// A valid plugin name is a single path component.
  lemma ValidNameComponent(name: string)
    requires ValidName(name)
    ensures CanonElem(name)
  {
    assert !NameChar('.') && !NameChar(Sep);
    assert name[0] != '.';
    assert forall i :: 0 <= i < |name| ==> name[i] != Sep;
  }

  /// With a valid name and a version without '/', the temporary
  /// directory's pattern holds no path separator.
  lemma TempPatternNoSep(r: PkgFetch.Recipe)
    requires ValidName(r.name) && Sep !in r.version
    ensures Sep !in TempPattern(r)
  {
    ValidNameComponent(r.name);
    var p := TempPattern(r);
    assert forall c :: c in p ==> c in "build-" || c in r.name || c in "-" || c in r.version || c in "-*";
  }

  // ---- Execute ----

  /// `make` is given `EXT=.exe` exactly when GOOS or the running platform
  /// is windows; in particular when the platform is windows while GOOS
  /// names another system, the suffix is passed although the package is
  /// created for that other system.
  lemma MakeExt(datadir: string, env: PkgCreate.Env)
    ensures var args := MakeArgs(datadir, env);
      2 <= |args| <= 3 && args[..2] == ["-C", datadir] &&
      (|args| == 3 <==> env.goosEnv == "windows" || env.runtimeGoos == "windows") &&
      (|args| == 3 ==> args[2] == "EXT=.exe") &&
      (env.goosEnv != "" && env.goosEnv != "windows" && env.runtimeGoos == "windows" ==>
         args[2..] == ["EXT=.exe"] && PkgCreate.TargetOs(env) != "windows")
  {
  }

  /// The temporary directory is asked for first. When it cannot be made
  /// nothing else happens; once it exists the clone comes next and the
  /// directory's removal is the last command and happens only there.
  lemma {:induction false} BuildCleansUp(r: PkgFetch.Recipe, env: PkgCreate.Env, pkgName: string, w: World)
    ensures var (status, err, cmds) := ExecuteSpec(r, env, pkgName, w);
      |cmds| >= 1 && cmds[0] == MkdirTemp(TempPattern(r)) &&
      (w.tmp.Err? ==> cmds == [MkdirTemp(TempPattern(r))] && status == 1 && err == Some(TempDirFailed(w.tmp.error))) &&
      (w.tmp.Ok? ==>
         3 <= |cmds| <= 4 && cmds[1] == Exec("git", CloneArgs(w.tmp.value, r)) &&
         cmds[|cmds| - 1] == RemoveAll(w.tmp.value) &&
         forall i :: 0 <= i < |cmds| - 1 ==> !cmds[i].RemoveAll?)
  {
    if w.tmp.Ok? {
      var dir := w.tmp.value;
      var (status, err, inner) := BuildIn(dir, r, env, pkgName, w);
      assert 1 <= |inner| <= 2 && inner[0] == Exec("git", CloneArgs(dir, r));
      assert forall i :: 0 <= i < |inner| ==> inner[i].Exec?;
      var cmds := [MkdirTemp(TempPattern(r))] + inner + [RemoveAll(dir)];
      assert forall i :: 1 <= i < |cmds| - 1 ==> cmds[i] == inner[i - 1];
    }
  }

  /// Status 0 exactly when the directory is made, the clone and `make`
  /// succeed, the create step parses its manifest and its `Execute`
  /// returns 0; the error is absent exactly then.
  lemma BuildStatus(r: PkgFetch.Recipe, env: PkgCreate.Env, pkgName: string, w: World)
    ensures var (status, err, cmds) := ExecuteSpec(r, env, pkgName, w);
      (status == 0 || status == 1) && (err.None? <==> status == 0) &&
      (w.tmp.Ok? ==>
         var dir := w.tmp.value;
         var (st, perr) := CreateInput(dir, env, pkgName, w.files);
         (status == 0 <==>
            w.exec(Exec("git", CloneArgs(dir, r))).None? && w.exec(Exec("make", MakeArgs(dir, env))).None? &&
            perr.None? && PkgCreate.ExecuteSpec(st, w.fails, w.sourceErrors).0 == 0))
  {
    if w.tmp.Ok? {
      var (st, perr) := CreateInput(w.tmp.value, env, pkgName, w.files);
      PkgCreate.ExecuteStatus(st, w.fails, w.sourceErrors);
    }
  }

  /// `make` runs exactly when the clone succeeded.
  lemma BuildOrder(r: PkgFetch.Recipe, env: PkgCreate.Env, pkgName: string, w: World)
    requires w.tmp.Ok?
    ensures var cmds := ExecuteSpec(r, env, pkgName, w).2;
      var dir := w.tmp.value;
      Exec("make", MakeArgs(dir, env)) in cmds <==> w.exec(Exec("git", CloneArgs(dir, r))).None?
  {
    var dir := w.tmp.value;
    var git := Exec("git", CloneArgs(dir, r));
    var make := Exec("make", MakeArgs(dir, env));
    var cmds := ExecuteSpec(r, env, pkgName, w).2;
    if w.exec(git).Some? {
      assert cmds == [MkdirTemp(TempPattern(r)), git, RemoveAll(dir)];
      assert make != git;
    } else {
      assert cmds[2] == make;
    }
  }

  /// Inside a canonical temporary directory the create step reads
  /// `<dir>/manifest.yaml`, uses the directory itself as the base of the
  /// import, and writes the package under the name given to it.
  lemma {:induction false} CreateInputLocation(ds: seq<string>, env: PkgCreate.Env, pkgName: string,
                                               files: string -> PkgCreate.ManifestFile)
    requires AllCanon(ds)
    ensures var (st, err) := CreateInput(AbsPath(ds), env, pkgName, files);
      var path := AbsPath(ds + [ManifestName]);
      st.manifestPath == path && st.base == AbsPath(ds) && st.out == pkgName &&
      (err.None? <==> files(path).Parsed?) &&
      (files(path).Parsed? ==> st.manifest == files(path).manifest)
  {
    var dir := AbsPath(ds);
    var arg := Join([dir, ManifestName]);
    ManifestLocation(ds, ManifestName);
    PkgCreate.ParseResolves(EmptyCreate, env, "", arg, files);
  }

  /// `Join(dir, name)` for a canonical directory and a single component,
  /// made absolute, and its directory.
  lemma {:induction false} ManifestLocation(ds: seq<string>, name: string)
    requires AllCanon(ds) && CanonElem(name)
    ensures var path := PkgImporter.Absolutify(AbsPath(ds), Join([AbsPath(ds), name]));
      path == AbsPath(ds + [name]) && Dir(path) == AbsPath(ds)
  {
    assert JoinSep([name]) == name;
    JoinAbsRelative(ds, [name]);
    var all := ds + [name];
    assert AllCanon(all);
    PkgCreate.AbsoluteManifestLocation(AbsPath(ds), all);
    assert all[..|all| - 1] == ds;
  }
}
