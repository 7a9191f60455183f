/// pkg.go: the hooks the package manager calls around installing and
/// removing a package, and the directories it is given.
module PkgHooks {
  import opened Wrappers
  import opened Paths
  import opened Manifests
  import opened Plugins

  /// The registry the preload hook consults for a declared type string.
  /// The storage case is spelled "store", not "storage" as in Load.
  function CheckedRole(typ: string): Option<Role> {
    if typ == "exporter" then Some(Exporter)
    else if typ == "importer" then Some(Importer)
    else if typ == "store" then Some(Storage)
    else None
  }

  /// `proto`, declared under `typ`, is already served by the registry the
  /// hook checks for that type.
  predicate Collides(t: Tables, x: Pair) {
    CheckedRole(x.typ).Some? && x.proto in t.Get(CheckedRole(x.typ).value)
  }

  /// The registries' state is what the hook is given: a pair collides
  /// exactly when its protocol is among the `Backends()` of the registry
  /// checked for its type.
  lemma CollidesWithBackends(reg: Registries, x: Pair)
    ensures Collides(reg.State(), x) <==>
      CheckedRole(x.typ).Some? && x.proto in reg.Backends(CheckedRole(x.typ).value)
  {
  }

  function ConflictMessage(proto: string): string {
    "protocol " + proto + " already provided by another installed package"
  }

  /// The search of `pkgpreloadhook`, pair by pair in manifest order.
  function FirstCollision(t: Tables, ps: seq<Pair>): Option<string>
    decreases |ps|
  {
    if |ps| == 0 then None
    else if Collides(t, ps[0]) then Some(ConflictMessage(ps[0].proto))
    else FirstCollision(t, ps[1..])
  }

  /// `pkgpreloadhook`: the error refusing the manifest, or None. It reads
  /// the registries and changes none of them (`t` is passed by value).
  function PreloadHook(t: Tables, m: Manifest): Option<string> {
    FirstCollision(t, Pairs(m.connectors))
  }

  /// The search fails exactly when some pair collides, and then names the
  /// first colliding pair's protocol.
  lemma {:induction false} FirstCollisionSpec(t: Tables, ps: seq<Pair>)
    ensures FirstCollision(t, ps).None? <==> forall k :: 0 <= k < |ps| ==> !Collides(t, ps[k])
    ensures FirstCollision(t, ps).Some? ==>
      exists k :: 0 <= k < |ps| && Collides(t, ps[k]) &&
        (forall j :: 0 <= j < k ==> !Collides(t, ps[j])) &&
        FirstCollision(t, ps).value == ConflictMessage(ps[k].proto)
    decreases |ps|
  {
    if |ps| > 0 && !Collides(t, ps[0]) {
      FirstCollisionSpec(t, ps[1..]);
      if FirstCollision(t, ps[1..]).Some? {
        var k :| 0 <= k < |ps[1..]| && Collides(t, ps[1..][k]) &&
          (forall j :: 0 <= j < k ==> !Collides(t, ps[1..][j])) &&
          FirstCollision(t, ps[1..]).value == ConflictMessage(ps[1..][k].proto);
        assert ps[k + 1] == ps[1..][k];
        forall j | 0 <= j < k + 1 ensures !Collides(t, ps[j]) {
          if j > 0 { assert ps[j] == ps[1..][j - 1]; }
        }
      } else {
        forall k | 0 <= k < |ps| ensures !Collides(t, ps[k]) {
          if k > 0 { assert ps[k] == ps[1..][k - 1]; }
        }
      }
    }
  }

  /// The hook accepts a manifest exactly when no connector typed
  /// "exporter", "importer" or "store" declares a protocol the matching
  /// registry already serves; otherwise it names the first such protocol
  /// in manifest order.
  lemma PreloadHookSpec(t: Tables, m: Manifest)
    ensures PreloadHook(t, m).None? <==>
      forall i, p :: 0 <= i < |m.connectors| && p in m.connectors[i].protocols ==>
        !Collides(t, Pair(m.connectors[i].typ, p))
    ensures PreloadHook(t, m).Some? ==>
      exists k :: 0 <= k < |Pairs(m.connectors)| &&
        Collides(t, Pairs(m.connectors)[k]) &&
        (forall j :: 0 <= j < k ==> !Collides(t, Pairs(m.connectors)[j])) &&
        PreloadHook(t, m).value == ConflictMessage(Pairs(m.connectors)[k].proto)
  {
    var ps := Pairs(m.connectors);
    FirstCollisionSpec(t, ps);
    forall i, p | 0 <= i < |m.connectors| && p in m.connectors[i].protocols
      ensures Pair(m.connectors[i].typ, p) in ps
    {
      InPairs(m.connectors, Pair(m.connectors[i].typ, p));
    }
    forall x | x in ps
      ensures exists i :: 0 <= i < |m.connectors| && m.connectors[i].typ == x.typ && x.proto in m.connectors[i].protocols
    {
      InPairs(m.connectors, x);
    }
  }

  /// A connector typed "storage", the type Load registers storage
  /// connectors under, is never checked: removing it changes nothing.
  lemma {:induction false} StorageTypedNeverChecked(t: Tables, conns: seq<Connector>, i: nat, name: string, version: string)
    requires i < |conns| && conns[i].typ == "storage"
    ensures PreloadHook(t, Manifest(name, version, conns)) ==
            PreloadHook(t, Manifest(name, version, conns[..i] + conns[i + 1..]))
  {
    var c := conns[i];
    assert conns == conns[..i] + ([c] + conns[i + 1..]);
    PairsAppend(conns[..i], [c] + conns[i + 1..]);
    PairsAppend([c], conns[i + 1..]);
    PairsAppend(conns[..i], conns[i + 1..]);
    var b := ConnectorPairs(c.typ, c.protocols);
    assert [c][1..] == [];
    assert Pairs([c]) == b + Pairs([]);
    assert Pairs([c]) == b;
    assert Pairs(conns) == Pairs(conns[..i]) + b + Pairs(conns[i + 1..]);
    SkipUnchecked(t, Pairs(conns[..i]), b, Pairs(conns[i + 1..]));
  }

  lemma {:induction false} SkipUnchecked(t: Tables, a: seq<Pair>, b: seq<Pair>, c: seq<Pair>)
    requires forall k :: 0 <= k < |b| ==> !Collides(t, b[k])
    ensures FirstCollision(t, a + b + c) == FirstCollision(t, a + c)
    decreases |a|, |b|
  {
    if |a| > 0 {
      assert (a + b + c)[0] == a[0] && (a + c)[0] == a[0];
      assert (a + b + c)[1..] == a[1..] + b + c;
      assert (a + c)[1..] == a[1..] + c;
      SkipUnchecked(t, a[1..], b, c);
    } else if |b| > 0 {
      assert a + b + c == [b[0]] + (a + b[1..] + c);
      assert (a + b + c)[1..] == a + b[1..] + c;
      SkipUnchecked(t, a, b[1..], c);
    } else {
      assert a + b + c == a + c;
    }
  }

  /// The type mismatch at work: a storage plugin whose protocol is already
  /// served passes the guard and is then refused by Load; the same
  /// declaration typed "store" is refused by the guard but Load would call
  /// it an unknown connector type.
  lemma StoreStorageMismatchExample(f: Factory, exe: string, exeOf: Connector -> string)
    ensures var t := Tables(map[], map[], map["s3" := f]);
      var storage := Connector("storage", ["s3"], exe, [], [], FlagsOk(0));
      var store := Connector("store", ["s3"], exe, [], [], FlagsOk(0));
      PreloadHook(t, Manifest("p", "v1.0.0", [storage])).None? &&
      LoadSpec(t, [storage], exeOf).1 == Some(AlreadyRegistered(Storage, "s3")) &&
      PreloadHook(t, Manifest("p", "v1.0.0", [store])) == Some(ConflictMessage("s3")) &&
      LoadSpec(t, [store], exeOf).1 == Some(UnknownConnectorType("store"))
  {
    var t := Tables(map[], map[], map["s3" := f]);
    var storage := Connector("storage", ["s3"], exe, [], [], FlagsOk(0));
    var store := Connector("store", ["s3"], exe, [], [], FlagsOk(0));
    assert [storage][1..] == [] && [store][1..] == [];
    assert ConnectorPairs("storage", ["s3"]) == [Pair("storage", "s3")];
    assert ConnectorPairs("store", ["s3"]) == [Pair("store", "s3")];
    assert Pairs([storage]) == [Pair("storage", "s3")];
    assert Pairs([store]) == [Pair("store", "s3")];
    assert FirstCollision(t, [Pair("storage", "s3")]) == FirstCollision(t, []);
    assert ["s3"][1..] == [];
  }

  /// A line the hooks write to standard error: the text printed in first
  /// position, action, package and the error's text. The hooks pass
  /// `flag.CommandLine.Name` there without calling it, so that text is
  /// Go's rendering of a function value; it is taken as given.
  datatype StderrLine = StderrLine(program: string, action: string, name: string, version: string, err: Error)

  /// `pkgloadhook`: runs Load and reports its error on standard error; the
  /// package manager never sees it.
  method LoadHook(reg: Registries, m: Manifest, pkgdir: string, program: string) returns (stderr: seq<StderrLine>)
    modifies reg
    ensures reg.State() == LoadSpec(old(reg.State()), m.connectors, ExeIn(pkgdir)).0
    ensures var err := LoadSpec(old(reg.State()), m.connectors, ExeIn(pkgdir)).1;
      stderr == (if err.None? then [] else [StderrLine(program, "load", m.name, m.version, err.value)])
  {
    var err := Load(reg, m, pkgdir);
    stderr := [];
    if err.Some? {
      stderr := [StderrLine(program, "load", m.name, m.version, err.value)];
    }
  }

  /// `pkgunloadhook`: runs Unload and reports the error it returns.
  method UnloadHook(reg: Registries, m: Manifest, program: string) returns (stderr: seq<StderrLine>)
    modifies reg
    ensures reg.State() == UnloadSpec(old(reg.State()), Pairs(m.connectors), None).0
    ensures var err := UnloadSpec(old(reg.State()), Pairs(m.connectors), None).1;
      stderr == (if err.None? then [] else [StderrLine(program, "unload", m.name, m.version, err.value)])
  {
    var err := Unload(reg, m);
    stderr := [];
    if err.Some? {
      stderr := [StderrLine(program, "unload", m.name, m.version, err.value)];
    }
  }

  /// The plugin and cache directories of `setupPkgManager`.
  function PluginDirs(dataDir: string, cacheDir: string, apiVersion: string): (string, string) {
    (Join([dataDir, "plugins", apiVersion]), Join([cacheDir, "plugins", apiVersion]))
  }

  /// For canonical rooted data and cache directories, the plugin directory
  /// is `<dataDir>/plugins/<version>` and the cache directory
  /// `<cacheDir>/plugins/<version>`, component for component.
  lemma PluginDirsUnder(data: seq<string>, cache: seq<string>, apiVersion: string)
    requires AllCanon(data) && AllCanon(cache) && CanonElem(apiVersion)
    ensures PluginDirs(AbsPath(data), AbsPath(cache), apiVersion) ==
      (AbsPath(data + ["plugins", apiVersion]), AbsPath(cache + ["plugins", apiVersion]))
  {
    var rs := ["plugins", apiVersion];
    assert AllCanon(rs);
    assert [AbsPath(data), "plugins", apiVersion] == [AbsPath(data)] + rs;
    assert [AbsPath(cache), "plugins", apiVersion] == [AbsPath(cache)] + rs;
    JoinHead(AbsPath(data), rs);
    JoinHead(AbsPath(cache), rs);
    JoinAbsRelative(data, rs);
    JoinAbsRelative(cache, rs);
  }
}
