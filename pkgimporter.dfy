/// subcommands/pkg/pkgimporter.go: the importer that feeds a plugin's
/// files to the snapshot engine when a package is created. It produces a
/// stream of scan results: the root directory, then, for the manifest and
/// every file a connector declares, the file's ancestor directories and
/// the file itself, or one error for that file.
///
/// The channel is an object that records what was sent and whether it was
/// closed; the goroutine of `Scan` is not modelled (the producer runs to
/// completion). The file system is a function from absolute path to what
/// opening and then stat-ing that path yields.
module PkgImporter {
  import opened Wrappers
  import opened Paths
  import opened Manifests

  /// An opened file, known by the absolute path it was opened at.
  datatype Handle = Handle(path: string)

  /// What `Stat` reports about an opened file.
  datatype Stat = Stat(name: string, mode: bv32)

  /// File information carried by a record: a synthesised directory (mode
  /// 0700|ModeDir) with its name, or the stat of a real file.
  datatype Info = DirInfo(name: string) | StatInfo(stat: Stat)

  datatype ScanResult =
    | Record(pathname: string, info: Info, reader: Option<Handle>)
    | ScanError(pathname: string, err: ScanErr)

  /// Why `dofile` gave up on a file.
  datatype ScanErr =
    | NotBelowManifest
    | OpenError(reason: string)
    | StatError(reason: string)
    | NotExecutable(absolute: string)

  /// The error text `dofile` reports (`%w` keeps the wrapped error's text).
  function Message(e: ScanErr): string {
    match e
    case NotBelowManifest => "not below the manifest"
    case OpenError(reason) => "Failed to open file: " + reason
    case StatError(reason) => "Failed to stat file: " + reason
    case NotExecutable(absolute) => "Not executable: " + absolute
  }

  /// `os.Open` followed by `Stat`.
  datatype FsOutcome = OpenFailed(reason: string) | StatFailed(reason: string) | Found(handle: Handle, stat: Stat)

  /// `pkgerImporter`: the manifest's directory, the manifest, and the
  /// manifest's path as given.
  datatype Importer = Importer(cwd: string, manifest: Manifest, manifestPath: string)

  /// The first record of every scan.
  const RootRecord: ScanResult := Record([Sep], DirInfo([Sep]), None)

  /// The output channel of `scan`.
  class ScanChannel {
    var sent: seq<ScanResult>
    var closed: bool

    constructor ()
      ensures sent == [] && !closed
    {
      sent, closed := [], false;
    }

    /// Sending on a closed channel panics in Go; it is refused here.
    method Send(r: ScanResult)
      requires !closed
      modifies this
      ensures sent == old(sent) + [r] && !closed
    {
      sent := sent + [r];
    }

    /// Closing twice panics in Go; it is refused here.
    method Close()
      requires !closed
      modifies this
      ensures sent == old(sent) && closed
    {
      closed := true;
    }
  }

  /// `absolutify`.
  function Absolutify(cwd: string, p: string): string {
    if IsAbs(p) then Clean(p) else Join([cwd, p])
  }

  /// Against a rooted working directory, every path becomes a canonical
  /// rooted one.
  lemma AbsolutifyCanonical(cwd: string, p: string)
    requires IsAbs(cwd)
    ensures CanonicalAbs(Absolutify(cwd, p))
  {
    if IsAbs(p) {
      CleanAbs(p);
    } else {
      JoinTwo(cwd, p);
      CleanAbs(cwd + [Sep] + p);
    }
  }

  lemma JoinSepHead(rs: seq<string>)
    requires |rs| >= 1 && rs[0] != ""
    ensures |JoinSep(rs)| > 0 && JoinSep(rs)[0] == rs[0][0]
  {
    if |rs| > 1 {
      assert JoinSep(rs) == rs[0] + [Sep] + JoinSep(rs[1..]);
    }
  }

  /// A relative path of canonical components lands below the directory.
  lemma AbsolutifyRelative(cs: seq<string>, rs: seq<string>)
    requires AllCanon(cs) && AllCanon(rs) && |rs| >= 1
    ensures Absolutify(AbsPath(cs), JoinSep(rs)) == AbsPath(cs + rs)
  {
    JoinSepHead(rs);
    JoinAbsRelative(cs, rs);
  }

  /// The name a file is recorded under: the absolute path with the
  /// working directory and then one separator cut off, rooted at "/".
  function LogicalName(cwd: string, absolute: string): string {
    var relative := CutPrefix(CutPrefix(absolute, cwd), [Sep]);
    Join([[Sep], relative])
  }

  lemma LogicalNameCanonical(cwd: string, absolute: string)
    ensures CanonicalAbs(LogicalName(cwd, absolute))
  {
    var relative := CutPrefix(CutPrefix(absolute, cwd), [Sep]);
    JoinTwo([Sep], relative);
    CleanAbs([Sep] + [Sep] + relative);
  }

  /// A file `rs` below a working directory `cs` is recorded as `/rs`.
  lemma LogicalNameBelow(cs: seq<string>, rs: seq<string>)
    requires AllCanon(cs) && AllCanon(rs) && |cs| >= 1 && |rs| >= 1
    ensures HasPrefix(AbsPath(cs + rs), AbsPath(cs))
    ensures LogicalName(AbsPath(cs), AbsPath(cs + rs)) == AbsPath(rs)
  {
    var cwd := AbsPath(cs);
    JoinSepAppend(cs, rs);
    RootedConcat(JoinSep(cs), JoinSep(rs));
    assert AbsPath(cs + rs) == cwd + ([Sep] + JoinSep(rs));
    assert CutPrefix(AbsPath(cs + rs), cwd) == [Sep] + JoinSep(rs);
    assert CutPrefix([Sep] + JoinSep(rs), [Sep]) == JoinSep(rs);
    JoinAbsRelative([], rs);
    assert AbsPath([]) == [Sep];
    assert [] + rs == rs;
  }

  /// `Dir` of a rooted path is a canonical rooted path.
  lemma DirRooted(p: string)
    requires IsAbs(p)
    ensures CanonicalAbs(Dir(p))
  {
    LastSepIsLast(p);
    CleanAbs(p[..LastSep(p) + 1]);
  }

  /// Below "/", `Dir` moves to a canonical path one component shorter.
  lemma DirShrinks(dir: string)
    requires CanonicalAbs(dir) && dir != [Sep]
    ensures CanonicalAbs(Dir(dir)) && |Components(Dir(dir))| < |Components(dir)|
  {
    var cs := Components(dir);
    ComponentsSpec(dir);
    assert |cs| == 0 ==> AbsPath(cs) == [Sep];
    DirBase(cs);
    AbsPathCanonical(cs[..|cs| - 1]);
  }

  /// What `mkstruct`'s loop sends from directory `dir` on: a record for
  /// `dir`, named by its `Base` and with no reader, then the same for
  /// `Dir(dir)`, and so on until "/", which gets none.
  function DirsUp(dir: string): seq<ScanResult>
    requires CanonicalAbs(dir)
    decreases |Components(dir)|
  {
    if dir == [Sep] then []
    else
      DirShrinks(dir);
      [Record(dir, DirInfo(Base(dir)), None)] + DirsUp(Dir(dir))
  }

  /// The same records described by components: one for the directory
  /// `ds` itself and one for each of its ancestors except "/", innermost
  /// first, each named by its last component.
  function Ancestors(ds: seq<string>): seq<ScanResult>
    decreases |ds|
  {
    if |ds| == 0 then []
    else [Record(AbsPath(ds), DirInfo(ds[|ds| - 1]), None)] + Ancestors(ds[..|ds| - 1])
  }

  lemma {:induction false} AncestorsLength(ds: seq<string>)
    ensures |Ancestors(ds)| == |ds|
    decreases |ds|
  {
    if |ds| > 0 {
      AncestorsLength(ds[..|ds| - 1]);
    }
  }

  /// The `k`-th record sent for `ds` is the one for its prefix of length
  /// `|ds| - k`.
  lemma {:induction false} AncestorsIndex(ds: seq<string>, k: nat)
    requires k < |ds|
    ensures |Ancestors(ds)| == |ds|
    ensures Ancestors(ds)[k] == Record(AbsPath(ds[..|ds| - k]), DirInfo(ds[|ds| - 1 - k]), None)
    decreases |ds|
  {
    AncestorsLength(ds);
    var init := ds[..|ds| - 1];
    if k == 0 {
      assert ds[..|ds| - 0] == ds;
    } else {
      AncestorsIndex(init, k - 1);
      assert init[..|init| - (k - 1)] == ds[..|ds| - k];
    }
  }

  lemma AncestorsAt(ds: seq<string>)
    ensures |Ancestors(ds)| == |ds|
    ensures forall k :: 0 <= k < |ds| ==>
      Ancestors(ds)[k] == Record(AbsPath(ds[..|ds| - k]), DirInfo(ds[|ds| - 1 - k]), None)
  {
    AncestorsLength(ds);
    forall k | 0 <= k < |ds|
      ensures Ancestors(ds)[k] == Record(AbsPath(ds[..|ds| - k]), DirInfo(ds[|ds| - 1 - k]), None)
    {
      AncestorsIndex(ds, k);
    }
  }

  /// Walking up by `Dir` and `Base` visits exactly the ancestors the
  /// components name.
  lemma {:induction false} DirsUpAncestors(ds: seq<string>)
    requires AllCanon(ds)
    ensures CanonicalAbs(AbsPath(ds)) && DirsUp(AbsPath(ds)) == Ancestors(ds)
    decreases |ds|
  {
    AbsPathCanonical(ds);
    if |ds| == 0 {
      assert AbsPath(ds) == [Sep];
    } else {
      JoinSepNonEmpty(ds);
      assert |AbsPath(ds)| > 1;
      DirBase(ds);
      DirsUpAncestors(ds[..|ds| - 1]);
    }
  }

  /// The components of the directory holding `/cs`: "/" holds itself.
  function ParentOf(cs: seq<string>): seq<string> {
    if |cs| == 0 then [] else cs[..|cs| - 1]
  }

  /// `path.Dir` of a canonical rooted path is its parent.
  lemma DirParent(cs: seq<string>)
    requires AllCanon(cs)
    ensures Dir(AbsPath(cs)) == AbsPath(ParentOf(cs))
  {
    if |cs| == 0 {
      assert AbsPath(cs) == [Sep];
      CleanCanonical([]);
    } else {
      DirBase(cs);
    }
  }

  /// Walking up from a file by `Dir` and `Base` visits exactly its
  /// ancestors below "/".
  lemma MkStructWalk(p: string)
    requires CanonicalAbs(p)
    ensures CanonicalAbs(Dir(p)) && DirsUp(Dir(p)) == Ancestors(ParentOf(Components(p)))
  {
    var cs := Components(p);
    ComponentsSpec(p);
    DirParent(cs);
    DirsUpAncestors(ParentOf(cs));
  }

  /// For a file `/c1/.../cn`, `mkstruct` sends one record per ancestor
  /// directory strictly below "/", from the parent `/c1/.../c(n-1)` up to
  /// `/c1`, the one for `/c1/.../ck` named `ck`; for "/" itself and for a
  /// file directly under "/" it sends nothing.
  lemma MkStructRecords(cs: seq<string>)
    ensures var r := Ancestors(ParentOf(cs));
      |r| == (if |cs| == 0 then 0 else |cs| - 1) &&
      forall k :: 0 <= k < |r| ==> r[k] == Record(AbsPath(cs[..|cs| - 1 - k]), DirInfo(cs[|cs| - 2 - k]), None)
  {
    var ds := ParentOf(cs);
    var r := Ancestors(ds);
    AncestorsAt(ds);
    if |cs| > 0 {
      forall k | 0 <= k < |r|
        ensures r[k] == Record(AbsPath(cs[..|cs| - 1 - k]), DirInfo(cs[|cs| - 2 - k]), None)
      {
        assert ds[..|ds| - k] == cs[..|cs| - 1 - k];
      }
    }
  }

  /// `path.Dir` of the rooted path with components `cs`.
  method DirOf(p: string, ghost cs: seq<string>) returns (parent: string)
    requires AllCanon(cs) && p == AbsPath(cs)
    ensures parent == AbsPath(ParentOf(cs))
  {
    DirParent(cs);
    parent := Dir(p);
  }

  /// `path.Base` of the rooted path with components `cs`, below "/".
  method BaseOf(p: string, ghost cs: seq<string>) returns (name: string)
    requires AllCanon(cs) && |cs| >= 1 && p == AbsPath(cs)
    ensures name == cs[|cs| - 1]
  {
    DirBase(cs);
    name := Base(p);
  }

  lemma AbsPathRoot(ds: seq<string>)
    requires AllCanon(ds)
    ensures AbsPath(ds) == [Sep] <==> |ds| == 0
  {
    if |ds| > 0 {
      JoinSepNonEmpty(ds);
      assert |AbsPath(ds)| > 1;
    }
  }

  /// `mkstruct`, for the rooted path `p` with components `cs` that
  /// `dofile` passes it.
  method MkStruct(p: string, ghost cs: seq<string>, ch: ScanChannel)
    requires AllCanon(cs) && p == AbsPath(cs) && !ch.closed
    modifies ch
    ensures ch.sent == old(ch.sent) + Ancestors(ParentOf(cs)) && !ch.closed
  {
    ghost var ds := ParentOf(cs);
    var dir := DirOf(p, cs);
    AbsPathRoot(ds);
    while dir != [Sep]
      invariant AllCanon(ds) && dir == AbsPath(ds) && (dir == [Sep] <==> |ds| == 0)
      invariant ch.sent + Ancestors(ds) == old(ch.sent) + Ancestors(ParentOf(cs))
      invariant !ch.closed
      decreases |ds|
    {
      var name := BaseOf(dir, ds);
      SendBoth(ch.sent, [Record(dir, DirInfo(name), None)], Ancestors(ds[..|ds| - 1]));
      ch.Send(Record(dir, DirInfo(name), None));
      dir := DirOf(dir, ds);
      ds := ds[..|ds| - 1];
      AbsPathRoot(ds);
    }
  }

  /// The executable test of `dofile`: on a windows target the name must
  /// end in ".exe"; elsewhere some execute bit must be set.
  predicate IsExe(st: Stat, windows: bool) {
    if windows then HasSuffix(st.name, ".exe") else st.mode & 0x49 != 0
  }

  /// A file that must be executable, is below the manifest and opens is
  /// refused as "not executable" exactly when, on a windows target, its
  /// name does not end in ".exe", and elsewhere none of the owner, group
  /// and other execute bits (0100, 0010, 0001) is set.
  lemma ExecuteBits(cwd: string, fs: string -> FsOutcome, windows: bool, absolute: string, name: string, h: Handle, st: Stat)
    requires CanonicalAbs(name) && HasPrefix(absolute, cwd) && fs(absolute) == Found(h, st)
    ensures FileResults(cwd, fs, windows, absolute, name, true) == [ScanError(name, NotExecutable(absolute))] <==>
      if windows then !HasSuffix(st.name, ".exe")
      else st.mode & 0x40 == 0 && st.mode & 0x8 == 0 && st.mode & 0x1 == 0
  {
    var r := FileResults(cwd, fs, windows, absolute, name, true);
    if IsExe(st, windows) {
      assert r[|r| - 1].Record?;
    }
    if !windows {
      assert st.mode & 0x49 == 0 <==> st.mode & 0x40 == 0 && st.mode & 0x8 == 0 && st.mode & 0x1 == 0;
    }
  }

  /// What `dofile` sends for one path.
  function DoFileSpec(cwd: string, fs: string -> FsOutcome, windows: bool, p: string, mustExe: bool): seq<ScanResult> {
    var absolute := Absolutify(cwd, p);
    LogicalNameCanonical(cwd, absolute);
    FileResults(cwd, fs, windows, absolute, LogicalName(cwd, absolute), mustExe)
  }

  /// What `dofile` sends once it knows the absolute path and the name the
  /// file is recorded under.
  function FileResults(cwd: string, fs: string -> FsOutcome, windows: bool, absolute: string, name: string, mustExe: bool): seq<ScanResult>
    requires CanonicalAbs(name)
  {
    if !HasPrefix(absolute, cwd) then [ScanError(name, NotBelowManifest)]
    else match fs(absolute)
      case OpenFailed(reason) => [ScanError(name, OpenError(reason))]
      case StatFailed(reason) => [ScanError(name, StatError(reason))]
      case Found(h, st) =>
        if mustExe && !IsExe(st, windows) then [ScanError(name, NotExecutable(absolute))]
        else Ancestors(ParentOf(Components(name))) + [Record(name, StatInfo(st), Some(h))]
  }

  /// `dofile`.
  method DoFile(imp: Importer, fs: string -> FsOutcome, windows: bool, p: string, mustExe: bool, ch: ScanChannel)
    requires !ch.closed
    modifies ch
    ensures ch.sent == old(ch.sent) + DoFileSpec(imp.cwd, fs, windows, p, mustExe) && !ch.closed
  {
    var absolute := Absolutify(imp.cwd, p);
    var relative := absolute;
    relative := CutPrefix(relative, imp.cwd);
    relative := CutPrefix(relative, [Sep]);
    var name := Join([[Sep], relative]);
    if !HasPrefix(absolute, imp.cwd) {
      ch.Send(ScanError(name, NotBelowManifest));
      return;
    }
    var outcome := fs(absolute);
    if outcome.OpenFailed? {
      ch.Send(ScanError(name, OpenError(outcome.reason)));
      return;
    }
    if outcome.StatFailed? {
      ch.Send(ScanError(name, StatError(outcome.reason)));
      return;
    }
    var st := outcome.stat;
    if mustExe {
      var isexe: bool;
      if windows {
        isexe := HasSuffix(st.name, ".exe");
      } else {
        isexe := st.mode & 0x49 != 0;
      }
      if !isexe {
        ch.Send(ScanError(name, NotExecutable(absolute)));
        return;
      }
    }
    LogicalNameCanonical(imp.cwd, absolute);
    ComponentsSpec(name);
    MkStruct(name, Components(name), ch);
    ch.Send(Record(name, StatInfo(st), Some(outcome.handle)));
  }

  /// The per-file outputs, concatenated in order.
  function Concat<T>(outs: seq<seq<T>>): seq<T>
    decreases |outs|
  {
    if |outs| == 0 then [] else Concat(outs[..|outs| - 1]) + outs[|outs| - 1]
  }

  /// Sending `b` and then `c` sends `b + c`.
  lemma SendBoth(a: seq<ScanResult>, b: seq<ScanResult>, c: seq<ScanResult>)
    ensures a + b + c == a + (b + c)
  {
  }

  lemma ConcatStep(outs: seq<seq<ScanResult>>, j: nat, sent: seq<ScanResult>, start: seq<ScanResult>)
    requires j < |outs| && sent == start + Concat(outs[..j])
    ensures sent + outs[j] == start + Concat(outs[..j + 1])
  {
    assert outs[..j + 1][..j] == outs[..j];
  }

  /// What `dofile` sends for each of `files`, one entry per file.
  function FileOuts(cwd: string, fs: string -> FsOutcome, windows: bool, files: seq<string>, mustExe: bool): seq<seq<ScanResult>> {
    seq(|files|, i requires 0 <= i < |files| => DoFileSpec(cwd, fs, windows, files[i], mustExe))
  }

  /// What `scan` sends for one connector: its executable, which must be
  /// executable, then its extra files, in declared order.
  function ConnectorOut(cwd: string, fs: string -> FsOutcome, windows: bool, c: Connector): seq<ScanResult> {
    DoFileSpec(cwd, fs, windows, c.executable, true) + Concat(FileOuts(cwd, fs, windows, c.extraFiles, false))
  }

  function ConnectorOuts(cwd: string, fs: string -> FsOutcome, windows: bool, conns: seq<Connector>): seq<seq<ScanResult>> {
    seq(|conns|, i requires 0 <= i < |conns| => ConnectorOut(cwd, fs, windows, conns[i]))
  }

  /// Everything `scan` sends, in order: the root, the manifest (which
  /// need not be executable), then the connectors' files.
  function ScanSpec(imp: Importer, fs: string -> FsOutcome, windows: bool): seq<ScanResult> {
    [RootRecord] + DoFileSpec(imp.cwd, fs, windows, imp.manifestPath, false) +
    Concat(ConnectorOuts(imp.cwd, fs, windows, imp.manifest.connectors))
  }

  /// The inner loop of `scan`: `dofile` on each of `files`; `outs` holds
  /// what each call sends.
  method DoFiles(imp: Importer, fs: string -> FsOutcome, windows: bool, files: seq<string>, mustExe: bool,
                 ghost outs: seq<seq<ScanResult>>, ch: ScanChannel)
    requires |outs| == |files| && !ch.closed
    requires forall i {:trigger DoFileSpec(imp.cwd, fs, windows, files[i], mustExe)} :: 0 <= i < |files| ==>
      outs[i] == DoFileSpec(imp.cwd, fs, windows, files[i], mustExe)
    modifies ch
    ensures ch.sent == old(ch.sent) + Concat(outs) && !ch.closed
  {
    var j := 0;
    while j < |files|
      invariant 0 <= j <= |files|
      invariant ch.sent == old(ch.sent) + Concat(outs[..j])
      invariant !ch.closed
    {
      ConcatStep(outs, j, ch.sent, old(ch.sent));
      DoFile(imp, fs, windows, files[j], mustExe, ch);
      j := j + 1;
    }
    assert outs[..j] == outs;
  }

  /// One turn of `scan`'s outer loop.
  method DoConnector(imp: Importer, fs: string -> FsOutcome, windows: bool, c: Connector, ch: ScanChannel)
    requires !ch.closed
    modifies ch
    ensures ch.sent == old(ch.sent) + ConnectorOut(imp.cwd, fs, windows, c) && !ch.closed
  {
    DoFile(imp, fs, windows, c.executable, true, ch);
    DoFiles(imp, fs, windows, c.extraFiles, false, FileOuts(imp.cwd, fs, windows, c.extraFiles, false), ch);
    SendBoth(old(ch.sent), DoFileSpec(imp.cwd, fs, windows, c.executable, true),
             Concat(FileOuts(imp.cwd, fs, windows, c.extraFiles, false)));
  }

  /// The outer loop of `scan`: every connector in declared order; `outs`
  /// holds what each turn sends.
  method DoConnectors(imp: Importer, fs: string -> FsOutcome, windows: bool, conns: seq<Connector>,
                      ghost outs: seq<seq<ScanResult>>, ch: ScanChannel)
    requires |outs| == |conns| && !ch.closed
    requires forall i {:trigger ConnectorOut(imp.cwd, fs, windows, conns[i])} :: 0 <= i < |conns| ==>
      outs[i] == ConnectorOut(imp.cwd, fs, windows, conns[i])
    modifies ch
    ensures ch.sent == old(ch.sent) + Concat(outs) && !ch.closed
  {
    var i := 0;
    while i < |conns|
      invariant 0 <= i <= |conns|
      invariant ch.sent == old(ch.sent) + Concat(outs[..i])
      invariant !ch.closed
    {
      ConcatStep(outs, i, ch.sent, old(ch.sent));
      DoConnector(imp, fs, windows, conns[i], ch);
      i := i + 1;
    }
    assert outs[..i] == outs;
  }

  /// `scan`: the root record, the manifest, every connector's files, then
  /// the channel is closed.
  method ScanInto(imp: Importer, fs: string -> FsOutcome, windows: bool, ch: ScanChannel)
    requires !ch.closed
    modifies ch
    ensures ch.sent == old(ch.sent) + ScanSpec(imp, fs, windows) && ch.closed
  {
    ch.Send(RootRecord);
    DoFile(imp, fs, windows, imp.manifestPath, false, ch);
    SendBoth(old(ch.sent), [RootRecord], DoFileSpec(imp.cwd, fs, windows, imp.manifestPath, false));
    DoConnectors(imp, fs, windows, imp.manifest.connectors,
                 ConnectorOuts(imp.cwd, fs, windows, imp.manifest.connectors), ch);
    SendBoth(old(ch.sent), [RootRecord] + DoFileSpec(imp.cwd, fs, windows, imp.manifestPath, false),
             Concat(ConnectorOuts(imp.cwd, fs, windows, imp.manifest.connectors)));
    ch.Close();
  }

  /// `Scan`: a fresh channel holding everything `scan` sent, closed.
  method Scan(imp: Importer, fs: string -> FsOutcome, windows: bool) returns (ch: ScanChannel)
    ensures fresh(ch) && ch.sent == ScanSpec(imp, fs, windows) && ch.closed
  {
    ch := new ScanChannel();
    ScanInto(imp, fs, windows, ch);
  }

  // ---------------------------------------------------------------------
  // What scan promises

  /// A result that settles one file: its error, or its own record, the
  /// only kind that carries a reader.
  predicate IsOutcome(r: ScanResult) {
    r.ScanError? || r.reader.Some?
  }

  /// The names of the files settled in `out`, in order.
  function Outcomes(out: seq<ScanResult>): seq<string>
    decreases |out|
  {
    if |out| == 0 then []
    else (if IsOutcome(out[0]) then [out[0].pathname] else []) + Outcomes(out[1..])
  }

  lemma {:induction false} OutcomesAppend(a: seq<ScanResult>, b: seq<ScanResult>)
    ensures Outcomes(a + b) == Outcomes(a) + Outcomes(b)
    decreases |a|
  {
    if |a| == 0 {
      assert a + b == b;
    } else {
      assert (a + b)[1..] == a[1..] + b;
      OutcomesAppend(a[1..], b);
    }
  }

  lemma {:induction false} OutcomesAncestors(ds: seq<string>)
    ensures Outcomes(Ancestors(ds)) == []
    decreases |ds|
  {
    if |ds| > 0 {
      var r := Record(AbsPath(ds), DirInfo(ds[|ds| - 1]), None);
      OutcomesAppend([r], Ancestors(ds[..|ds| - 1]));
      OutcomesAncestors(ds[..|ds| - 1]);
    }
  }

  /// What `dofile` sends for one path: the file's error alone, when it is
  /// not below the manifest's directory (by string prefix; checked
  /// first), cannot be opened or stat-ed, or must be executable and is
  /// not; otherwise its ancestor directories, innermost first, then its
  /// own record with its reader. Either way it settles that file and no
  /// other.
  lemma FileResultsOutcome(cwd: string, fs: string -> FsOutcome, windows: bool, absolute: string, name: string, mustExe: bool)
    requires CanonicalAbs(name)
    ensures var out := FileResults(cwd, fs, windows, absolute, name, mustExe);
      var fails := !HasPrefix(absolute, cwd) || !fs(absolute).Found? || (mustExe && !IsExe(fs(absolute).stat, windows));
      Outcomes(out) == [name] &&
      (!HasPrefix(absolute, cwd) ==> out == [ScanError(name, NotBelowManifest)]) &&
      (fails ==> |out| == 1 && out[0].ScanError? && out[0].pathname == name) &&
      (!fails ==>
        |out| >= 1 &&
        out[|out| - 1] == Record(name, StatInfo(fs(absolute).stat), Some(fs(absolute).handle)) &&
        forall k :: 0 <= k < |out| - 1 ==> out[k].Record? && out[k].info.DirInfo? && out[k].reader.None?)
  {
    if HasPrefix(absolute, cwd) && fs(absolute).Found? && !(mustExe && !IsExe(fs(absolute).stat, windows)) {
      var ds := ParentOf(Components(name));
      var r := Record(name, StatInfo(fs(absolute).stat), Some(fs(absolute).handle));
      AncestorsAt(ds);
      OutcomesAppend(Ancestors(ds), [r]);
      OutcomesAncestors(ds);
    }
  }

  /// Each `dofile` settles exactly its own file, under its logical name.
  lemma DoFileSettles(cwd: string, fs: string -> FsOutcome, windows: bool, p: string, mustExe: bool)
    ensures Outcomes(DoFileSpec(cwd, fs, windows, p, mustExe)) == [NameOf(cwd)(p)]
  {
    var absolute := Absolutify(cwd, p);
    LogicalNameCanonical(cwd, absolute);
    FileResultsOutcome(cwd, fs, windows, absolute, LogicalName(cwd, absolute), mustExe);
  }

  /// The names the files are recorded under, in order.
  function Names(nameOf: string -> string, files: seq<string>): seq<string>
    decreases |files|
  {
    if |files| == 0 then []
    else Names(nameOf, files[..|files| - 1]) + [nameOf(files[|files| - 1])]
  }

  /// The name `dofile` records a path under.
  function NameOf(cwd: string): string -> string {
    (p: string) => LogicalName(cwd, Absolutify(cwd, p))
  }

  lemma {:induction false} NamesAppend(nameOf: string -> string, a: seq<string>, b: seq<string>)
    ensures Names(nameOf, a + b) == Names(nameOf, a) + Names(nameOf, b)
    decreases |b|
  {
    if |b| == 0 {
      assert a + b == a;
    } else {
      var n := |b| - 1;
      assert (a + b)[..|a + b| - 1] == a + b[..n];
      NamesAppend(nameOf, a, b[..n]);
    }
  }

  lemma {:induction false} ConcatAppend<T>(outs: seq<seq<T>>, x: seq<T>)
    ensures Concat(outs + [x]) == Concat(outs) + x
  {
    assert (outs + [x])[..|outs|] == outs;
  }

  lemma {:induction false} NamesConcat(nameOf: string -> string, groups: seq<seq<string>>)
    ensures Names(nameOf, Concat(groups)) == Concat(seq(|groups|, i requires 0 <= i < |groups| => Names(nameOf, groups[i])))
    decreases |groups|
  {
    if |groups| > 0 {
      var n := |groups| - 1;
      var named := seq(|groups|, i requires 0 <= i < |groups| => Names(nameOf, groups[i]));
      NamesConcat(nameOf, groups[..n]);
      NamesAppend(nameOf, Concat(groups[..n]), groups[n]);
      assert named[..n] == seq(n, i requires 0 <= i < n => Names(nameOf, groups[..n][i]));
    }
  }

  /// Settled names of concatenated outputs are the concatenated settled
  /// names.
  lemma {:induction false} OutcomesConcat(outs: seq<seq<ScanResult>>, groups: seq<seq<string>>)
    requires |outs| == |groups|
    requires forall i :: 0 <= i < |outs| ==> Outcomes(outs[i]) == groups[i]
    ensures Outcomes(Concat(outs)) == Concat(groups)
    decreases |outs|
  {
    if |outs| > 0 {
      var n := |outs| - 1;
      OutcomesConcat(outs[..n], groups[..n]);
      OutcomesAppend(Concat(outs[..n]), outs[n]);
    }
  }

  /// Outputs that each settle one file settle them all, in order.
  lemma {:induction false} SettlesInOrder(outs: seq<seq<ScanResult>>, nameOf: string -> string, files: seq<string>)
    requires |outs| == |files|
    requires forall i :: 0 <= i < |outs| ==> Outcomes(outs[i]) == [nameOf(files[i])]
    ensures Outcomes(Concat(outs)) == Names(nameOf, files)
    decreases |outs|
  {
    if |outs| > 0 {
      var n := |outs| - 1;
      SettlesInOrder(outs[..n], nameOf, files[..n]);
      OutcomesAppend(Concat(outs[..n]), outs[n]);
    }
  }

  /// `dofile` on each of `files` settles them one by one, in order.
  lemma FileOutsOutcomes(cwd: string, fs: string -> FsOutcome, windows: bool, files: seq<string>, mustExe: bool)
    ensures Outcomes(Concat(FileOuts(cwd, fs, windows, files, mustExe))) == Names(NameOf(cwd), files)
  {
    var outs := FileOuts(cwd, fs, windows, files, mustExe);
    forall i | 0 <= i < |outs|
      ensures Outcomes(outs[i]) == [NameOf(cwd)(files[i])]
    {
      DoFileSettles(cwd, fs, windows, files[i], mustExe);
    }
    SettlesInOrder(outs, NameOf(cwd), files);
  }

  /// The files `scan` hands to `dofile`, in order: the manifest, then,
  /// connector by connector, the executable followed by the extra files.
  function ScanFiles(m: Manifest, manifestPath: string): seq<string> {
    [manifestPath] + Concat(ConnectorFiles(m.connectors))
  }

  function ConnectorFiles(conns: seq<Connector>): seq<seq<string>> {
    seq(|conns|, i requires 0 <= i < |conns| => [conns[i].executable] + conns[i].extraFiles)
  }

  lemma ConnectorOutOutcomes(cwd: string, fs: string -> FsOutcome, windows: bool, c: Connector)
    ensures Outcomes(ConnectorOut(cwd, fs, windows, c)) == Names(NameOf(cwd), [c.executable] + c.extraFiles)
  {
    DoFileSettles(cwd, fs, windows, c.executable, true);
    FileOutsOutcomes(cwd, fs, windows, c.extraFiles, false);
    SettleThenAll(DoFileSpec(cwd, fs, windows, c.executable, true), Concat(FileOuts(cwd, fs, windows, c.extraFiles, false)),
                  NameOf(cwd), c.executable, c.extraFiles);
  }

  lemma SettleThenAll(a: seq<ScanResult>, b: seq<ScanResult>, nameOf: string -> string, x: string, xs: seq<string>)
    requires Outcomes(a) == [nameOf(x)] && Outcomes(b) == Names(nameOf, xs)
    ensures Outcomes(a + b) == Names(nameOf, [x] + xs)
  {
    OutcomesAppend(a, b);
    NamesCons(nameOf, x, xs);
  }

  /// Every result of `out` that settles no file is a synthesised directory
  /// record.
  predicate DirsOtherwise(out: seq<ScanResult>) {
    forall k :: 0 <= k < |out| && !IsOutcome(out[k]) ==> out[k].Record? && out[k].info.DirInfo?
  }

  lemma DirsOtherwiseAppend(a: seq<ScanResult>, b: seq<ScanResult>)
    requires DirsOtherwise(a) && DirsOtherwise(b)
    ensures DirsOtherwise(a + b)
  {
    forall k | 0 <= k < |a + b| && !IsOutcome((a + b)[k])
      ensures (a + b)[k].Record? && (a + b)[k].info.DirInfo?
    {
      if k >= |a| {
        assert (a + b)[k] == b[k - |a|];
      }
    }
  }

  lemma {:induction false} DirsOtherwiseConcat(outs: seq<seq<ScanResult>>)
    requires forall i :: 0 <= i < |outs| ==> DirsOtherwise(outs[i])
    ensures DirsOtherwise(Concat(outs))
    decreases |outs|
  {
    if |outs| > 0 {
      DirsOtherwiseConcat(outs[..|outs| - 1]);
      DirsOtherwiseAppend(Concat(outs[..|outs| - 1]), outs[|outs| - 1]);
    }
  }

  /// Besides its own error or record, `dofile` sends only directory records.
  lemma DoFileDirsOtherwise(cwd: string, fs: string -> FsOutcome, windows: bool, p: string, mustExe: bool)
    ensures DirsOtherwise(DoFileSpec(cwd, fs, windows, p, mustExe))
  {
    var absolute := Absolutify(cwd, p);
    LogicalNameCanonical(cwd, absolute);
    FileResultsDirsOtherwise(cwd, fs, windows, absolute, LogicalName(cwd, absolute), mustExe);
  }

  lemma FileResultsDirsOtherwise(cwd: string, fs: string -> FsOutcome, windows: bool, absolute: string, name: string, mustExe: bool)
    requires CanonicalAbs(name)
    ensures DirsOtherwise(FileResults(cwd, fs, windows, absolute, name, mustExe))
  {
    if HasPrefix(absolute, cwd) && fs(absolute).Found? && !(mustExe && !IsExe(fs(absolute).stat, windows)) {
      var ds := ParentOf(Components(name));
      var r := Record(name, StatInfo(fs(absolute).stat), Some(fs(absolute).handle));
      AncestorsAt(ds);
      assert DirsOtherwise(Ancestors(ds));
      assert DirsOtherwise([r]);
      DirsOtherwiseAppend(Ancestors(ds), [r]);
    }
  }

  lemma ScanDirsOtherwise(imp: Importer, fs: string -> FsOutcome, windows: bool)
    ensures DirsOtherwise(ScanSpec(imp, fs, windows))
  {
    var cwd := imp.cwd;
    var conns := imp.manifest.connectors;
    var outs := ConnectorOuts(cwd, fs, windows, conns);
    forall i | 0 <= i < |outs|
      ensures DirsOtherwise(outs[i])
    {
      var c := conns[i];
      var extra := FileOuts(cwd, fs, windows, c.extraFiles, false);
      forall j | 0 <= j < |extra|
        ensures DirsOtherwise(extra[j])
      {
        DoFileDirsOtherwise(cwd, fs, windows, c.extraFiles[j], false);
      }
      DirsOtherwiseConcat(extra);
      DoFileDirsOtherwise(cwd, fs, windows, c.executable, true);
      DirsOtherwiseAppend(DoFileSpec(cwd, fs, windows, c.executable, true), Concat(extra));
    }
    DirsOtherwiseConcat(outs);
    DoFileDirsOtherwise(cwd, fs, windows, imp.manifestPath, false);
    var root: seq<ScanResult> := [RootRecord];
    assert DirsOtherwise(root);
    DirsOtherwiseAppend(root, DoFileSpec(cwd, fs, windows, imp.manifestPath, false));
    DirsOtherwiseAppend(root + DoFileSpec(cwd, fs, windows, imp.manifestPath, false), Concat(outs));
  }

  /// `scan` settles every file exactly once, in the order it hands them to
  /// `dofile`: the manifest, then each connector's executable and extra
  /// files; every other result is a directory record.
  lemma ScanOrder(imp: Importer, fs: string -> FsOutcome, windows: bool)
    ensures Outcomes(ScanSpec(imp, fs, windows)) == Names(NameOf(imp.cwd), ScanFiles(imp.manifest, imp.manifestPath))
    ensures forall k :: 0 <= k < |ScanSpec(imp, fs, windows)| && !IsOutcome(ScanSpec(imp, fs, windows)[k]) ==>
      ScanSpec(imp, fs, windows)[k].Record? && ScanSpec(imp, fs, windows)[k].info.DirInfo?
  {
    ScanDirsOtherwise(imp, fs, windows);
    var cwd := imp.cwd;
    var conns := imp.manifest.connectors;
    ConnectorOutsOutcomes(cwd, fs, windows, conns);
    DoFileSettles(cwd, fs, windows, imp.manifestPath, false);
    OutcomesAfterRoot(DoFileSpec(cwd, fs, windows, imp.manifestPath, false), Concat(ConnectorOuts(cwd, fs, windows, conns)),
                      NameOf(cwd)(imp.manifestPath), Names(NameOf(cwd), Concat(ConnectorFiles(conns))));
    NamesCons(NameOf(cwd), imp.manifestPath, Concat(ConnectorFiles(conns)));
  }

  lemma OutcomesAfterRoot(b: seq<ScanResult>, c: seq<ScanResult>, n: string, rest: seq<string>)
    requires Outcomes(b) == [n] && Outcomes(c) == rest
    ensures Outcomes([RootRecord] + b + c) == [n] + rest
  {
    OutcomesAppend([RootRecord], b);
    OutcomesAppend([RootRecord] + b, c);
  }

  lemma NamesCons(nameOf: string -> string, p: string, files: seq<string>)
    ensures Names(nameOf, [p] + files) == [nameOf(p)] + Names(nameOf, files)
  {
    NamesAppend(nameOf, [p], files);
    assert [p][..0] == [];
  }

  /// The connectors' turns settle their files in declared order.
  lemma ConnectorOutsOutcomes(cwd: string, fs: string -> FsOutcome, windows: bool, conns: seq<Connector>)
    ensures Outcomes(Concat(ConnectorOuts(cwd, fs, windows, conns))) == Names(NameOf(cwd), Concat(ConnectorFiles(conns)))
  {
    var outs := ConnectorOuts(cwd, fs, windows, conns);
    var groups := ConnectorFiles(conns);
    var named := seq(|groups|, i requires 0 <= i < |groups| => Names(NameOf(cwd), groups[i]));
    forall i | 0 <= i < |outs|
      ensures Outcomes(outs[i]) == named[i]
    {
      ConnectorOutOutcomes(cwd, fs, windows, conns[i]);
    }
    OutcomesConcat(outs, named);
    NamesConcat(NameOf(cwd), groups);
  }


  /// A file given relative to the manifest's directory `/cs` as
  /// `r1/.../rn`, present and executable where it must be, is recorded as
  /// `/r1/.../rn` after its ancestors `/r1/.../r(n-1)` up to `/r1`.
  lemma DoFileBelow(cs: seq<string>, rs: seq<string>, fs: string -> FsOutcome, windows: bool, mustExe: bool)
    requires AllCanon(cs) && AllCanon(rs) && |cs| >= 1 && |rs| >= 1
    requires fs(AbsPath(cs + rs)).Found?
    requires !mustExe || IsExe(fs(AbsPath(cs + rs)).stat, windows)
    ensures var o := fs(AbsPath(cs + rs));
      DoFileSpec(AbsPath(cs), fs, windows, JoinSep(rs), mustExe) ==
        Ancestors(ParentOf(rs)) + [Record(AbsPath(rs), StatInfo(o.stat), Some(o.handle))]
  {
    AbsolutifyRelative(cs, rs);
    LogicalNameBelow(cs, rs);
    DoFileAccepted(AbsPath(cs), fs, windows, JoinSep(rs), mustExe, AbsPath(cs + rs), AbsPath(rs));
    AbsPathCanonical(rs);
  }

  /// `dofile` on a file that passes every check, in terms of its absolute
  /// path and the name it is recorded under.
  lemma DoFileAccepted(cwd: string, fs: string -> FsOutcome, windows: bool, p: string, mustExe: bool,
                       absolute: string, name: string)
    requires absolute == Absolutify(cwd, p) && name == LogicalName(cwd, absolute)
    requires HasPrefix(absolute, cwd) && fs(absolute).Found? && (!mustExe || IsExe(fs(absolute).stat, windows))
    ensures CanonicalAbs(name)
    ensures DoFileSpec(cwd, fs, windows, p, mustExe) ==
      Ancestors(ParentOf(Components(name))) + [Record(name, StatInfo(fs(absolute).stat), Some(fs(absolute).handle))]
  {
    LogicalNameCanonical(cwd, absolute);
  }

  /// `mkstruct` keeps no memory between files: two files `d/a` and `d/b`
  /// of the package each bring their own record for `/d`, first.
  lemma NoDedup(cs: seq<string>, d: string, a: string, b: string, fs: string -> FsOutcome, windows: bool)
    requires AllCanon(cs) && |cs| >= 1 && AllCanon([d, a]) && AllCanon([d, b])
    requires fs(AbsPath(cs + [d, a])).Found? && fs(AbsPath(cs + [d, b])).Found?
    ensures DoFileSpec(AbsPath(cs), fs, windows, JoinSep([d, a]), false)[0] == Record(AbsPath([d]), DirInfo(d), None)
    ensures DoFileSpec(AbsPath(cs), fs, windows, JoinSep([d, b]), false)[0] == Record(AbsPath([d]), DirInfo(d), None)
  {
    DoFileBelow(cs, [d, a], fs, windows, false);
    DoFileBelow(cs, [d, b], fs, windows, false);
    assert ParentOf([d, a]) == [d] && ParentOf([d, b]) == [d];
    AncestorsIndex([d], 0);
  }

  /// The containment test compares characters, not path components: with
  /// the manifest in `/c1/.../cn`, a file `/c1/.../cn<x>/r1/.../rk` (a
  /// sibling whose name merely starts with `cn`) passes it and is recorded
  /// as `/x/r1/.../rk`.
  lemma PrefixNotContainment(cs: seq<string>, x: string, rs: seq<string>)
    requires AllCanon(cs) && |cs| >= 1 && AllCanon([x] + rs)
    requires CanonicalAbs(AbsPath(cs) + JoinSep([x] + rs))
    ensures var f := AbsPath(cs) + JoinSep([x] + rs);
      Absolutify(AbsPath(cs), f) == f && HasPrefix(f, AbsPath(cs)) && !HasPrefix(f, AbsPath(cs) + [Sep]) &&
      LogicalName(AbsPath(cs), f) == AbsPath([x] + rs)
  {
    var cwd := AbsPath(cs);
    var tail := JoinSep([x] + rs);
    var f := cwd + tail;
    JoinSepHead([x] + rs);
    ComponentsSpec(f);
    CleanCanonical(Components(f));
    assert f[..|cwd|] == cwd;
    assert CutPrefix(f, cwd) == tail;
    assert f[|cwd|] == x[0];
    assert CutPrefix(tail, [Sep]) == tail;
    JoinTwo([Sep], tail);
    CleanDoubleRoot([x] + rs);
  }

  /// So such a file is packaged, under a directory `/x` that is not part
  /// of the package's layout.
  lemma PrefixNotContainmentPackaged(cs: seq<string>, x: string, rs: seq<string>, fs: string -> FsOutcome, windows: bool)
    requires AllCanon(cs) && |cs| >= 1 && AllCanon([x] + rs)
    requires CanonicalAbs(AbsPath(cs) + JoinSep([x] + rs))
    requires fs(AbsPath(cs) + JoinSep([x] + rs)).Found?
    ensures var f := AbsPath(cs) + JoinSep([x] + rs);
      DoFileSpec(AbsPath(cs), fs, windows, f, false) ==
        Ancestors(ParentOf([x] + rs)) + [Record(AbsPath([x] + rs), StatInfo(fs(f).stat), Some(fs(f).handle))]
  {
    var f := AbsPath(cs) + JoinSep([x] + rs);
    PrefixNotContainment(cs, x, rs);
    DoFileAccepted(AbsPath(cs), fs, windows, f, false, f, AbsPath([x] + rs));
    AbsPathCanonical([x] + rs);
  }
}
