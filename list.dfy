/// subcommands/pkg/list.go: `plakar pkg list [-long] [-available]`.
///
/// `Execute` walks either the packages available for download or the
/// installed ones, printing one line per package, and stops at the first
/// error the package manager's iterator yields. Each iterator is given as
/// the sequence of what it yields; the printed lines are returned without
/// their trailing newline.
module PkgList {
  import opened Wrappers
  import opened Paths
  import opened Manifests
  import PkgCreate

  /// A plugin offered for download, as the package manager's query yields it.
  datatype Integration = Integration(name: string, latestVersion: string)

  /// An installed package.
  datatype Package = Package(name: string, version: string, os: string, arch: string)

  datatype ParseError = TooManyArguments

  function ParseMessage(e: ParseError): string {
    "too many arguments"
  }

  /// The `print` closure: the ptar file name in long form, else
  /// `<name>@<version>`.
  function Line(long: bool, name: string, version: string, os: string, arch: string): string {
    if long then PkgCreate.PtarName(name, version, os, arch) else name + "@" + version
  }

  /// The available listing shows the latest version for the platform the
  /// binary runs on.
  function AvailableLine(long: bool, goos: string, goarch: string): Integration -> string {
    (i: Integration) => Line(long, i.name, i.latestVersion, goos, goarch)
  }

  /// The installed listing shows each package's own platform.
  function InstalledLine(long: bool): Package -> string {
    (p: Package) => Line(long, p.name, p.version, p.os, p.arch)
  }

  /// Walking an iterator: the status, the error that stopped the walk and
  /// the lines printed.
  function Walk<T>(items: seq<Result<T, string>>, line: T -> string): (int, Option<string>, seq<string>) {
    if |items| == 0 then (0, None, [])
    else
      match items[0]
      case Err(e) => (1, Some(e), [])
      case Ok(x) =>
        var (status, err, lines) := Walk(items[1..], line);
        (status, err, [line(x)] + lines)
  }

  function ExecuteSpec(long: bool, all: bool, query: seq<Result<Integration, string>>,
                       installed: seq<Result<Package, string>>, goos: string, goarch: string):
    (int, Option<string>, seq<string>)
  {
    if all then Walk(query, AvailableLine(long, goos, goarch)) else Walk(installed, InstalledLine(long))
  }

  /// `PkgList`.
  class PkgList {
    var longName: bool
    var listAll: bool

    constructor ()
      ensures !longName && !listAll
    {
      longName := false;
      listAll := false;
    }

    /// `Parse`, given the `-long` and `-available` flags and the
    /// positional arguments. The flags are stored even when `Parse` fails.
    method Parse(long: bool, available: bool, args: seq<string>) returns (err: Option<ParseError>)
      modifies this
      ensures longName == long && listAll == available
      ensures err.Some? <==> |args| != 0
    {
      longName := long;
      listAll := available;
      if |args| != 0 {
        return Some(TooManyArguments);
      }
      return None;
    }

    /// `Execute`, given what the package manager's query and list yield
    /// and the platform the binary runs on.
    method Execute(query: seq<Result<Integration, string>>, installed: seq<Result<Package, string>>,
                   goos: string, goarch: string)
      returns (status: int, err: Option<string>, out: seq<string>)
      ensures (status, err, out) == ExecuteSpec(longName, listAll, query, installed, goos, goarch)
    {
      out := [];
      if listAll {
        var i := 0;
        assert query[i..] == query;
        assert [] + Walk(query, AvailableLine(longName, goos, goarch)).2 == Walk(query, AvailableLine(longName, goos, goarch)).2;
        while i < |query|
          invariant 0 <= i <= |query|
          invariant Resumes(Walk(query, AvailableLine(longName, goos, goarch)), out,
                            Walk(query[i..], AvailableLine(longName, goos, goarch)))
        {
          WalkStep(query, AvailableLine(longName, goos, goarch), i);
          if query[i].Err? {
            assert out + [] == out;
            return 1, Some(query[i].error), out;
          }
          var integration := query[i].value;
          var line := Line(longName, integration.name, integration.latestVersion, goos, goarch);
          assert (out + [line]) + Walk(query[i + 1..], AvailableLine(longName, goos, goarch)).2
              == out + ([line] + Walk(query[i + 1..], AvailableLine(longName, goos, goarch)).2);
          out := out + [line];
          i := i + 1;
        }
        assert query[i..] == [] && out + [] == out;
      } else {
        var i := 0;
        assert installed[i..] == installed;
        assert [] + Walk(installed, InstalledLine(longName)).2 == Walk(installed, InstalledLine(longName)).2;
        while i < |installed|
          invariant 0 <= i <= |installed|
          invariant Resumes(Walk(installed, InstalledLine(longName)), out, Walk(installed[i..], InstalledLine(longName)))
        {
          WalkStep(installed, InstalledLine(longName), i);
          if installed[i].Err? {
            assert out + [] == out;
            return 1, Some(installed[i].error), out;
          }
          var pkg := installed[i].value;
          var line := Line(longName, pkg.name, pkg.version, pkg.os, pkg.arch);
          assert (out + [line]) + Walk(installed[i + 1..], InstalledLine(longName)).2
              == out + ([line] + Walk(installed[i + 1..], InstalledLine(longName)).2);
          out := out + [line];
          i := i + 1;
        }
        assert installed[i..] == [] && out + [] == out;
      }
      return 0, None, out;
    }
  }

  /// The whole walk is the lines printed so far followed by the walk of
  /// what is left.
  predicate Resumes(whole: (int, Option<string>, seq<string>), printed: seq<string>,
                    rest: (int, Option<string>, seq<string>))
  {
    whole == (rest.0, rest.1, printed + rest.2)
  }

  /// One step of the walk from index `i`.
  lemma WalkStep<T>(items: seq<Result<T, string>>, line: T -> string, i: nat)
    requires i < |items|
    ensures items[i].Err? ==> Walk(items[i..], line) == (1, Some(items[i].error), [])
    ensures items[i].Ok? ==>
      var r := Walk(items[i + 1..], line);
      Walk(items[i..], line) == (r.0, r.1, [line(items[i].value)] + r.2)
  {
    assert items[i..][1..] == items[i + 1..];
  }

  /// A walk that meets its first error at index `k` ends with status 1 and
  /// that error, after printing exactly the lines of the `k` packages
  /// before it.
  lemma {:induction false} WalkStops<T>(items: seq<Result<T, string>>, line: T -> string, k: nat)
    requires k < |items| && items[k].Err?
    requires forall j :: 0 <= j < k ==> items[j].Ok?
    ensures var (status, err, lines) := Walk(items, line);
      status == 1 && err == Some(items[k].error) &&
      |lines| == k && forall j :: 0 <= j < k ==> lines[j] == line(items[j].value)
  {
    if k > 0 {
      WalkStops(items[1..], line, k - 1);
      var lines := Walk(items[1..], line).2;
      assert Walk(items, line).2 == [line(items[0].value)] + lines;
    }
  }

  /// A walk without error ends with status 0 after printing one line per
  /// package, in order.
  lemma {:induction false} WalkCompletes<T>(items: seq<Result<T, string>>, line: T -> string)
    requires forall j :: 0 <= j < |items| ==> items[j].Ok?
    ensures var (status, err, lines) := Walk(items, line);
      status == 0 && err.None? &&
      |lines| == |items| && forall j :: 0 <= j < |items| ==> lines[j] == line(items[j].value)
  {
    if |items| > 0 {
      WalkCompletes(items[1..], line);
      var lines := Walk(items[1..], line).2;
      assert Walk(items, line).2 == [line(items[0].value)] + lines;
    }
  }

  /// Status 0 exactly when the iterator yields no error; the error is
  /// absent exactly then.
  lemma {:induction false} WalkStatus<T>(items: seq<Result<T, string>>, line: T -> string)
    ensures var (status, err, lines) := Walk(items, line);
      (status == 0 || status == 1) && (err.None? <==> status == 0) &&
      (status == 0 <==> forall j :: 0 <= j < |items| ==> items[j].Ok?) &&
      |lines| <= |items|
  {
    if |items| > 0 {
      WalkStatus(items[1..], line);
      assert forall j :: 1 <= j < |items| ==> items[j] == items[1..][j - 1];
    }
  }

  /// A successful available listing prints the latest version of each
  /// plugin for the running platform; an installed listing prints each
  /// package with its own platform.
  lemma ListingContents(long: bool, query: seq<Result<Integration, string>>, installed: seq<Result<Package, string>>,
                        goos: string, goarch: string)
    ensures (forall j :: 0 <= j < |query| ==> query[j].Ok?) ==>
      var lines := ExecuteSpec(long, true, query, installed, goos, goarch).2;
      |lines| == |query| &&
      forall j :: 0 <= j < |query| ==> lines[j] == Line(long, query[j].value.name, query[j].value.latestVersion, goos, goarch)
    ensures (forall j :: 0 <= j < |installed| ==> installed[j].Ok?) ==>
      var lines := ExecuteSpec(long, false, query, installed, goos, goarch).2;
      |lines| == |installed| &&
      forall j :: 0 <= j < |installed| ==>
        var p := installed[j].value;
        lines[j] == Line(long, p.name, p.version, p.os, p.arch)
  {
    if forall j :: 0 <= j < |query| ==> query[j].Ok? {
      WalkCompletes(query, AvailableLine(long, goos, goarch));
    }
    if forall j :: 0 <= j < |installed| ==> installed[j].Ok? {
      WalkCompletes(installed, InstalledLine(long));
    }
  }

  /// The long form names the very file `pkg create` writes by default for
  /// that plugin and platform.
  lemma {:induction false} LongLineIsPtar(cs: seq<string>, env: PkgCreate.Env, m: Manifest)
    requires AllCanon(cs) && env.cwd == AbsPath(cs)
    requires Sep !in m.name && Sep !in m.version
    requires Sep !in PkgCreate.TargetOs(env) && Sep !in PkgCreate.TargetArch(env)
    ensures Base(PkgCreate.DefaultOut(env, m)) == Line(true, m.name, m.version, PkgCreate.TargetOs(env), PkgCreate.TargetArch(env))
  {
    PkgCreate.DefaultOutInCwd(cs, env, m);
  }

  /// The short form is the name and the version around an '@'; for a name
  /// without '@' both are recovered by cutting at the first '@'.
  lemma ShortLine(name: string, version: string, os: string, arch: string)
    requires '@' !in name
    ensures var l := Line(false, name, version, os, arch);
      |l| == |name| + 1 + |version| && l[|name|] == '@' &&
      l[..|name|] == name && l[|name| + 1..] == version &&
      forall j :: 0 <= j < |name| ==> l[j] != '@'
  {
  }
}
