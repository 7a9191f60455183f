/// plugins/plugin.go: installing a plugin's connectors in the three
/// process-wide connector registries (importer, exporter, storage) and
/// removing them again.
///
/// The registries belong to the storage/importer/exporter library; here they
/// are one object holding three maps from protocol to factory. A registry
/// refuses to register a protocol it already serves and to unregister one it
/// does not serve. A factory is the closure `Register*` installs; it is
/// represented by what it captured, and calling it is `Invoke`.
module Plugins {
  import opened Wrappers
  import opened Paths
  import opened Manifests

  datatype Role = Importer | Exporter | Storage

  /// The type strings `Load` and `Unload` dispatch on.
  function RoleOf(typ: string): Option<Role> {
    if typ == "importer" then Some(Importer)
    else if typ == "exporter" then Some(Exporter)
    else if typ == "storage" then Some(Storage)
    else None
  }

  /// A factory installed for one protocol: the role it wraps connections as,
  /// the flags it was registered with, and the worker it starts.
  datatype Factory = Factory(role: Role, flags: nat, exe: string, args: seq<string>)

  datatype Error =
    | AlreadyRegistered(role: Role, proto: string)  // refusal of a registry's Register
    | NotRegistered(role: Role, proto: string)      // refusal of a registry's Unregister
    | UnknownConnectorType(typ: string)             // "unknown connector type: <typ>"
    | FlagsFailed(reason: string)                   // the error of Connector.Flags(), returned as is

  /// A snapshot of the three registries.
  datatype Tables = Tables(
    importers: map<string, Factory>,
    exporters: map<string, Factory>,
    storages: map<string, Factory>)
  {
    function Get(r: Role): map<string, Factory> {
      match r
      case Importer => importers
      case Exporter => exporters
      case Storage => storages
    }

    function Set(r: Role, m: map<string, Factory>): (t: Tables)
      ensures t.Get(r) == m
      ensures forall r' :: r' != r ==> t.Get(r') == Get(r')
    {
      match r
      case Importer => this.(importers := m)
      case Exporter => this.(exporters := m)
      case Storage => this.(storages := m)
    }
  }

  /// A registry's Register: installs the factory unless the protocol is
  /// already served.
  function RegisterSpec(t: Tables, r: Role, proto: string, f: Factory): (Tables, Option<Error>) {
    if proto in t.Get(r) then (t, Some(AlreadyRegistered(r, proto)))
    else (t.Set(r, t.Get(r)[proto := f]), None)
  }

  /// A registry's Unregister: removes the protocol if it is served.
  function UnregisterSpec(t: Tables, r: Role, proto: string): (Tables, Option<Error>) {
    if proto in t.Get(r) then (t.Set(r, t.Get(r) - {proto}), None)
    else (t, Some(NotRegistered(r, proto)))
  }

  /// The three registries: process-wide state that Load and Unload change.
  class Registries {
    var importers: map<string, Factory>
    var exporters: map<string, Factory>
    var storages: map<string, Factory>

    function State(): Tables
      reads this
    {
      Tables(importers, exporters, storages)
    }

    /// `Backends()` of the registry of role `r`: the protocols it serves.
    function Backends(r: Role): (ps: set<string>)
      reads this
      ensures forall p :: p in ps <==> p in State().Get(r)
    {
      match r
      case Importer => importers.Keys
      case Exporter => exporters.Keys
      case Storage => storages.Keys
    }

    constructor (t: Tables)
      ensures State() == t
    {
      importers, exporters, storages := t.importers, t.exporters, t.storages;
    }

    method Assign(t: Tables)
      modifies this
      ensures State() == t
    {
      importers, exporters, storages := t.importers, t.exporters, t.storages;
    }

    method Register(r: Role, proto: string, f: Factory) returns (err: Option<Error>)
      modifies this
      ensures proto in old(State().Get(r)) ==> err == Some(AlreadyRegistered(r, proto)) && State() == old(State())
      ensures proto !in old(State().Get(r)) ==> err == None && State() == old(State()).Set(r, old(State().Get(r))[proto := f])
      ensures err.None? <==> proto !in old(Backends(r))
      ensures err.None? ==> Backends(r) == old(Backends(r)) + {proto}
      ensures forall r' :: r' != r ==> Backends(r') == old(Backends(r'))
    {
      var t := State();
      if proto in t.Get(r) {
        return Some(AlreadyRegistered(r, proto));
      }
      Assign(t.Set(r, t.Get(r)[proto := f]));
      return None;
    }

    method Unregister(r: Role, proto: string) returns (err: Option<Error>)
      modifies this
      ensures proto in old(State().Get(r)) ==> err == None && State() == old(State()).Set(r, old(State().Get(r)) - {proto})
      ensures proto !in old(State().Get(r)) ==> err == Some(NotRegistered(r, proto)) && State() == old(State())
      ensures err.None? <==> proto in old(Backends(r))
      ensures Backends(r) == old(Backends(r)) - {proto}
      ensures forall r' :: r' != r ==> Backends(r') == old(Backends(r'))
    {
      var t := State();
      if proto !in t.Get(r) {
        return Some(NotRegistered(r, proto));
      }
      Assign(t.Set(r, t.Get(r) - {proto}));
      return None;
    }
  }

  /// `RegisterImporter`, `RegisterExporter` and `RegisterStorage`: install,
  /// in the registry of role `r`, a factory that starts `exe` with `args`;
  /// nothing is connected here. The registry's error is returned unchanged.
  method RegisterConnector(reg: Registries, r: Role, proto: string, flags: nat, exe: string, args: seq<string>)
    returns (err: Option<Error>)
    modifies reg
    ensures (reg.State(), err) == RegisterSpec(old(reg.State()), r, proto, Factory(r, flags, exe, args))
  {
    err := reg.Register(r, proto, Factory(r, flags, exe, args));
    if err.Some? {
      return err;
    }
    return None;
  }

  /// An established connection to a worker process.
  datatype Client = Client(id: nat)

  /// What `connectPlugin` yields for an executable and its arguments.
  datatype ConnectOutcome = Connected(client: Client) | ConnectError(reason: string)

  /// A capability instance backed by a connection.
  datatype Capability = Capability(role: Role, client: Client, target: string, config: map<string, string>)

  /// Calling an installed factory: it connects afresh to its worker (the
  /// external `connectPlugin`) and hands the connection to the role's gRPC
  /// wrapper (`wrap`), whose result it returns.
  function Invoke(
    f: Factory, target: string, config: map<string, string>,
    connect: (string, seq<string>) -> ConnectOutcome,
    wrap: (Role, Client, string, map<string, string>) -> Result<Capability, string>): Result<Capability, string>
  {
    match connect(f.exe, f.args)
    case ConnectError(reason) => Err("failed to connect to plugin: " + reason)
    case Connected(client) => wrap(f.role, client, target, config)
  }

  /// Load, one connector's protocols in order: stop at the first failure.
  function LoadProtocols(t: Tables, c: Connector, flags: nat, exe: string, protos: seq<string>): (Tables, Option<Error>)
    decreases |protos|
  {
    if |protos| == 0 then (t, None)
    else
      var (t1, err) := LoadStep(t, c, flags, exe, protos[0]);
      if err.Some? then (t1, err) else LoadProtocols(t1, c, flags, exe, protos[1..])
  }

  /// Load, one protocol of a connector: the `switch` on its type.
  function LoadStep(t: Tables, c: Connector, flags: nat, exe: string, proto: string): (Tables, Option<Error>) {
    match RoleOf(c.typ)
    case None => (t, Some(UnknownConnectorType(c.typ)))
    case Some(r) => RegisterSpec(t, r, proto, Factory(r, flags, exe, c.args))
  }

  /// The body of Load's inner loop.
  method LoadPair(reg: Registries, c: Connector, flags: nat, exe: string, proto: string) returns (err: Option<Error>)
    modifies reg
    ensures (reg.State(), err) == LoadStep(old(reg.State()), c, flags, exe, proto)
  {
    if c.typ == "importer" {
      err := RegisterConnector(reg, Importer, proto, flags, exe, c.args);
    } else if c.typ == "exporter" {
      err := RegisterConnector(reg, Exporter, proto, flags, exe, c.args);
    } else if c.typ == "storage" {
      err := RegisterConnector(reg, Storage, proto, flags, exe, c.args);
    } else {
      err := Some(UnknownConnectorType(c.typ));
    }
  }

  /// Where `Load` finds a connector's executable: joined to the package
  /// directory.
  function ExeIn(pkgdir: string): Connector -> string {
    (c: Connector) => Join([pkgdir, c.executable])
  }

  /// A connector whose executable is a relative path `r1/.../rn` with no
  /// empty, "." or ".." part is started from `<pkgdir>/r1/.../rn`, inside
  /// the package directory.
  lemma ExeInPackage(cs: seq<string>, rs: seq<string>, c: Connector)
    requires AllCanon(cs) && AllCanon(rs) && |rs| >= 1 && c.executable == JoinSep(rs)
    ensures ExeIn(AbsPath(cs))(c) == AbsPath(cs + rs)
  {
    JoinAbsRelative(cs, rs);
  }

  function AfterConnector(res: (Tables, Option<Error>), rest: seq<Connector>, exeOf: Connector -> string): (Tables, Option<Error>)
    decreases |rest| + 1, 0
  {
    if res.1.Some? then res else LoadSpec(res.0, rest, exeOf)
  }

  /// Load, connector by connector: the flags first, then the protocols;
  /// the first error ends it and nothing registered before it is undone.
  /// `exeOf` says where a connector's executable is.
  function LoadSpec(t: Tables, conns: seq<Connector>, exeOf: Connector -> string): (Tables, Option<Error>)
    decreases |conns|, 1
  {
    if |conns| == 0 then (t, None)
    else
      var c := conns[0];
      match c.flags
      case FlagsError(reason) => (t, Some(FlagsFailed(reason)))
      case FlagsOk(flags) =>
        AfterConnector(LoadProtocols(t, c, flags, exeOf(c), c.protocols), conns[1..], exeOf)
  }

  /// `Load(m, pkgdir)`.
  method Load(reg: Registries, m: Manifest, pkgdir: string) returns (err: Option<Error>)
    modifies reg
    ensures (reg.State(), err) == LoadSpec(old(reg.State()), m.connectors, ExeIn(pkgdir))
  {
    var conns := m.connectors;
    var i := 0;
    while i < |conns|
      invariant 0 <= i <= |conns|
      invariant LoadSpec(old(reg.State()), conns, ExeIn(pkgdir)) == LoadSpec(reg.State(), conns[i..], ExeIn(pkgdir))
    {
      var conn := conns[i];
      var exe := Join([pkgdir, conn.executable]);
      assert conns[i..][1..] == conns[i + 1..];
      if conn.flags.FlagsError? {
        return Some(FlagsFailed(conn.flags.reason));
      }
      var flags := conn.flags.flags;
      var j := 0;
      while j < |conn.protocols|
        invariant 0 <= j <= |conn.protocols|
        invariant LoadSpec(old(reg.State()), conns, ExeIn(pkgdir))
          == AfterConnector(LoadProtocols(reg.State(), conn, flags, exe, conn.protocols[j..]), conns[i + 1..], ExeIn(pkgdir))
      {
        var proto := conn.protocols[j];
        assert conn.protocols[j..][1..] == conn.protocols[j + 1..];
        var e := LoadPair(reg, conn, flags, exe, proto);
        if e.Some? {
          return e;
        }
        j := j + 1;
      }
      i := i + 1;
    }
    return None;
  }

  /// Unload, one pair: unregister it from the registry of its type.
  function UnloadStep(t: Tables, x: Pair): (Tables, Option<Error>) {
    match RoleOf(x.typ)
    case None => (t, Some(UnknownConnectorType(x.typ)))
    case Some(r) => UnregisterSpec(t, r, x.proto)
  }

  /// Unload over the manifest's pairs: every pair is attempted, and `err`
  /// is overwritten by each attempt.
  function UnloadSpec(t: Tables, ps: seq<Pair>, err: Option<Error>): (Tables, Option<Error>)
    decreases |ps|
  {
    if |ps| == 0 then (t, err)
    else
      var (t1, e) := UnloadStep(t, ps[0]);
      UnloadSpec(t1, ps[1..], e)
  }

  /// The body of Unload's inner loop: the `switch` on the connector type.
  method UnloadPair(reg: Registries, typ: string, proto: string) returns (err: Option<Error>)
    modifies reg
    ensures (reg.State(), err) == UnloadStep(old(reg.State()), Pair(typ, proto))
  {
    if typ == "importer" {
      err := reg.Unregister(Importer, proto);
    } else if typ == "exporter" {
      err := reg.Unregister(Exporter, proto);
    } else if typ == "storage" {
      err := reg.Unregister(Storage, proto);
    } else {
      err := Some(UnknownConnectorType(typ));
    }
  }

  /// Unload, one step over the pairs of a connector followed by `rest`.
  lemma UnloadHead(t: Tables, typ: string, protos: seq<string>, rest: seq<Pair>, err: Option<Error>)
    requires |protos| > 0
    ensures var (t1, e) := UnloadStep(t, Pair(typ, protos[0]));
      UnloadSpec(t, ConnectorPairs(typ, protos) + rest, err) == UnloadSpec(t1, ConnectorPairs(typ, protos[1..]) + rest, e)
  {
    var xs := ConnectorPairs(typ, protos) + rest;
    assert xs[1..] == ConnectorPairs(typ, protos[1..]) + rest;
  }

  /// `Unload(m)`.
  method Unload(reg: Registries, m: Manifest) returns (err: Option<Error>)
    modifies reg
    ensures (reg.State(), err) == UnloadSpec(old(reg.State()), Pairs(m.connectors), None)
  {
    var conns := m.connectors;
    err := None;
    var i := 0;
    while i < |conns|
      invariant 0 <= i <= |conns|
      invariant UnloadSpec(old(reg.State()), Pairs(conns), None) == UnloadSpec(reg.State(), Pairs(conns[i..]), err)
    {
      var conn := conns[i];
      assert conns[i..][1..] == conns[i + 1..];
      assert conn.protocols[0..] == conn.protocols;
      assert Pairs(conns[i..]) == ConnectorPairs(conn.typ, conn.protocols[0..]) + Pairs(conns[i + 1..]);
      var j := 0;
      while j < |conn.protocols|
        invariant 0 <= j <= |conn.protocols|
        invariant UnloadSpec(old(reg.State()), Pairs(conns), None)
          == UnloadSpec(reg.State(), ConnectorPairs(conn.typ, conn.protocols[j..]) + Pairs(conns[i + 1..]), err)
      {
        var proto := conn.protocols[j];
        assert conn.protocols[j..][1..] == conn.protocols[j + 1..];
        UnloadHead(reg.State(), conn.typ, conn.protocols[j..], Pairs(conns[i + 1..]), err);
        err := UnloadPair(reg, conn.typ, proto);
        j := j + 1;
      }
      assert conn.protocols[j..] == [];
      assert ConnectorPairs(conn.typ, conn.protocols[j..]) + Pairs(conns[i + 1..]) == Pairs(conns[i + 1..]);
      i := i + 1;
    }
  }

  // ---------------------------------------------------------------------
  // What Load promises

  /// `u` keeps every registration of `t`, with the same factory.
  ghost predicate Extends(t: Tables, u: Tables) {
    forall r: Role, p: string :: p in t.Get(r) ==> p in u.Get(r) && u.Get(r)[p] == t.Get(r)[p]
  }

  /// `f` is the factory Load installs for connector `c` in the registry of
  /// role `r`: the executable joined to the package directory, the
  /// connector's arguments and its flags.
  ghost predicate Installs(c: Connector, r: Role, exeOf: Connector -> string, f: Factory) {
    RoleOf(c.typ) == Some(r) && c.flags.FlagsOk? &&
    f == Factory(r, c.flags.flags, exeOf(c), c.args)
  }

  lemma {:induction false} LoadProtocolsExtends(t: Tables, c: Connector, flags: nat, exe: string, protos: seq<string>)
    ensures Extends(t, LoadProtocols(t, c, flags, exe, protos).0)
    decreases |protos|
  {
    if |protos| > 0 && RoleOf(c.typ).Some? {
      var r := RoleOf(c.typ).value;
      var (t1, err) := RegisterSpec(t, r, protos[0], Factory(r, flags, exe, c.args));
      if err.None? {
        LoadProtocolsExtends(t1, c, flags, exe, protos[1..]);
      }
    }
  }

  /// Load never removes or replaces a registration, whether it succeeds or
  /// fails: in particular what it registered before an error stays.
  lemma {:induction false} LoadKeeps(t: Tables, conns: seq<Connector>, exeOf: Connector -> string)
    ensures Extends(t, LoadSpec(t, conns, exeOf).0)
    decreases |conns|
  {
    if |conns| > 0 && conns[0].flags.FlagsOk? {
      var c := conns[0];
      var res := LoadProtocols(t, c, c.flags.flags, exeOf(c), c.protocols);
      LoadProtocolsExtends(t, c, c.flags.flags, exeOf(c), c.protocols);
      if res.1.None? {
        LoadKeeps(res.0, conns[1..], exeOf);
      }
    }
  }

  /// One successful step of Load adds exactly the one protocol it handles,
  /// in the registry of the connector's role.
  lemma LoadStepNew(t: Tables, c: Connector, flags: nat, exe: string, proto: string)
    requires LoadStep(t, c, flags, exe, proto).1.None?
    ensures var t1 := LoadStep(t, c, flags, exe, proto).0;
      forall r: Role, p: string :: p in t1.Get(r) && p !in t.Get(r) ==>
        p == proto && RoleOf(c.typ) == Some(r) && t1.Get(r)[p] == Factory(r, flags, exe, c.args)
  {
  }

  lemma {:induction false} LoadProtocolsNewAt(t: Tables, c: Connector, flags: nat, exe: string, protos: seq<string>, r: Role, p: string)
    requires p in LoadProtocols(t, c, flags, exe, protos).0.Get(r) && p !in t.Get(r)
    ensures p in protos && RoleOf(c.typ) == Some(r)
    ensures LoadProtocols(t, c, flags, exe, protos).0.Get(r)[p] == Factory(r, flags, exe, c.args)
    decreases |protos|
  {
    if |protos| > 0 {
      var step := LoadStep(t, c, flags, exe, protos[0]);
      var t1 := step.0;
      if step.1.None? {
        if p in t1.Get(r) {
          LoadStepNew(t, c, flags, exe, protos[0]);
          LoadProtocolsExtends(t1, c, flags, exe, protos[1..]);
        } else {
          LoadProtocolsNewAt(t1, c, flags, exe, protos[1..], r, p);
        }
      }
    }
  }

  /// Load, one connector: what it adds is one of the connector's protocols,
  /// in the registry of its role, with the factory for it.
  lemma LoadProtocolsNew(t: Tables, c: Connector, flags: nat, exe: string, protos: seq<string>)
    ensures var u := LoadProtocols(t, c, flags, exe, protos).0;
      forall r: Role, p: string :: p in u.Get(r) && p !in t.Get(r) ==>
        p in protos && RoleOf(c.typ) == Some(r) && u.Get(r)[p] == Factory(r, flags, exe, c.args)
  {
    var u := LoadProtocols(t, c, flags, exe, protos).0;
    forall r: Role, p: string {:trigger p in u.Get(r)} | p in u.Get(r) && p !in t.Get(r)
      ensures p in protos && RoleOf(c.typ) == Some(r) && u.Get(r)[p] == Factory(r, flags, exe, c.args)
    {
      LoadProtocolsNewAt(t, c, flags, exe, protos, r, p);
    }
  }

  /// The connector a registration added by Load comes from.
  lemma {:induction false} LoadNewEntryAt(t: Tables, conns: seq<Connector>, exeOf: Connector -> string, r: Role, p: string)
    returns (i: nat)
    requires p in LoadSpec(t, conns, exeOf).0.Get(r) && p !in t.Get(r)
    ensures i < |conns| && p in conns[i].protocols && Installs(conns[i], r, exeOf, LoadSpec(t, conns, exeOf).0.Get(r)[p])
    decreases |conns|
  {
    if |conns| > 0 && conns[0].flags.FlagsOk? {
      var c := conns[0];
      var res := LoadProtocols(t, c, c.flags.flags, exeOf(c), c.protocols);
      if res.1.None? && p !in res.0.Get(r) {
        assert LoadSpec(t, conns, exeOf) == LoadSpec(res.0, conns[1..], exeOf);
        var k := LoadNewEntryAt(res.0, conns[1..], exeOf, r, p);
        i := k + 1;
        assert conns[i] == conns[1..][k];
      } else {
        LoadProtocolsNewAt(t, c, c.flags.flags, exeOf(c), c.protocols, r, p);
        if res.1.None? {
          LoadKeeps(res.0, conns[1..], exeOf);
        }
        i := 0;
      }
    }
  }

  /// Every registration Load adds belongs to a protocol the manifest
  /// declares, sits in the registry of that connector's role only, and
  /// starts that connector's executable under the package directory.
  lemma LoadNewEntries(t: Tables, conns: seq<Connector>, exeOf: Connector -> string)
    ensures var u := LoadSpec(t, conns, exeOf).0;
      forall r: Role, p: string :: p in u.Get(r) && p !in t.Get(r) ==>
        exists i :: 0 <= i < |conns| && p in conns[i].protocols && Installs(conns[i], r, exeOf, u.Get(r)[p])
  {
    var u := LoadSpec(t, conns, exeOf).0;
    forall r: Role, p: string {:trigger p in u.Get(r)} | p in u.Get(r) && p !in t.Get(r)
      ensures exists i :: 0 <= i < |conns| && p in conns[i].protocols && Installs(conns[i], r, exeOf, u.Get(r)[p])
    {
      var i := LoadNewEntryAt(t, conns, exeOf, r, p);
    }
  }

  lemma {:induction false} LoadProtocolsSuccess(t: Tables, c: Connector, flags: nat, exe: string, protos: seq<string>)
    requires LoadProtocols(t, c, flags, exe, protos).1.None?
    ensures |protos| > 0 ==> RoleOf(c.typ).Some?
    ensures var u := LoadProtocols(t, c, flags, exe, protos).0;
      forall r: Role, p: string :: RoleOf(c.typ) == Some(r) && p in protos ==>
        p !in t.Get(r) && p in u.Get(r) && u.Get(r)[p] == Factory(r, flags, exe, c.args)
    decreases |protos|
  {
    if |protos| > 0 {
      var r := RoleOf(c.typ).value;
      var (t1, err) := RegisterSpec(t, r, protos[0], Factory(r, flags, exe, c.args));
      LoadProtocolsSuccess(t1, c, flags, exe, protos[1..]);
      LoadProtocolsExtends(t1, c, flags, exe, protos[1..]);
      forall p | p in protos[1..] ensures p !in t.Get(r) {
        assert p !in t1.Get(r);
      }
      assert protos == [protos[0]] + protos[1..];
    }
  }

  /// A Load that returns nil has registered every protocol of every
  /// connector, each in the registry of its connector's role, each with the
  /// same executable path for all protocols of a connector; none of them
  /// was registered before.
  lemma {:induction false} LoadSuccess(t: Tables, conns: seq<Connector>, exeOf: Connector -> string)
    requires LoadSpec(t, conns, exeOf).1.None?
    ensures forall i :: 0 <= i < |conns| ==>
      conns[i].flags.FlagsOk? && (|conns[i].protocols| > 0 ==> RoleOf(conns[i].typ).Some?)
    ensures var u := LoadSpec(t, conns, exeOf).0;
      forall i, r: Role, p: string :: 0 <= i < |conns| && RoleOf(conns[i].typ) == Some(r) && p in conns[i].protocols ==>
        p !in t.Get(r) && p in u.Get(r) && Installs(conns[i], r, exeOf, u.Get(r)[p])
    decreases |conns|
  {
    if |conns| > 0 {
      var c := conns[0];
      var exe := exeOf(c);
      var res := LoadProtocols(t, c, c.flags.flags, exe, c.protocols);
      LoadProtocolsSuccess(t, c, c.flags.flags, exe, c.protocols);
      var t1 := res.0;
      assert c.flags.FlagsOk? && res.1.None?;
      assert LoadSpec(t, conns, exeOf) == LoadSpec(t1, conns[1..], exeOf);
      var u := LoadSpec(t1, conns[1..], exeOf).0;
      LoadSuccess(t1, conns[1..], exeOf);
      LoadKeeps(t1, conns[1..], exeOf);
      LoadProtocolsExtends(t, c, c.flags.flags, exe, c.protocols);
      forall i | 0 <= i < |conns|
        ensures conns[i].flags.FlagsOk? && (|conns[i].protocols| > 0 ==> RoleOf(conns[i].typ).Some?)
      {
        if i > 0 {
          assert conns[i] == conns[1..][i - 1];
        }
      }
      forall i, r: Role, p: string | 0 <= i < |conns| && RoleOf(conns[i].typ) == Some(r) && p in conns[i].protocols
        ensures p !in t.Get(r) && p in u.Get(r) && Installs(conns[i], r, exeOf, u.Get(r)[p])
      {
        if i > 0 {
          assert conns[i] == conns[1..][i - 1];
        } else {
          assert u.Get(r)[p] == Factory(r, c.flags.flags, exe, c.args);
        }
      }
    }
  }

  /// Why a Load can fail.
  ghost predicate Causes(c: Connector, e: Error) {
    match e
    case FlagsFailed(reason) => c.flags == FlagsError(reason)
    case UnknownConnectorType(typ) =>
      c.flags.FlagsOk? && c.typ == typ && RoleOf(typ).None? && |c.protocols| > 0
    case AlreadyRegistered(r, p) => c.flags.FlagsOk? && RoleOf(c.typ) == Some(r) && p in c.protocols
    case NotRegistered(_, _) => false
  }

  lemma {:induction false} LoadProtocolsError(t: Tables, c: Connector, flags: nat, exe: string, protos: seq<string>)
    requires c.flags.FlagsOk?
    requires LoadProtocols(t, c, flags, exe, protos).1.Some?
    ensures |protos| > 0
    ensures var e := LoadProtocols(t, c, flags, exe, protos).1.value;
      match e
      case UnknownConnectorType(typ) => c.typ == typ && RoleOf(typ).None?
      case AlreadyRegistered(r, p) => RoleOf(c.typ) == Some(r) && p in protos
      case _ => false
    decreases |protos|
  {
    if RoleOf(c.typ).Some? {
      var r := RoleOf(c.typ).value;
      var (t1, err) := RegisterSpec(t, r, protos[0], Factory(r, flags, exe, c.args));
      if err.None? {
        LoadProtocolsError(t1, c, flags, exe, protos[1..]);
      }
    }
  }

  /// A failing Load returns a connector's flags error, "unknown connector
  /// type" for a connector that declares at least one protocol, or a
  /// registry's refusal of a declared protocol.
  lemma {:induction false} LoadErrorCause(t: Tables, conns: seq<Connector>, exeOf: Connector -> string)
    requires LoadSpec(t, conns, exeOf).1.Some?
    ensures exists i :: 0 <= i < |conns| && Causes(conns[i], LoadSpec(t, conns, exeOf).1.value)
    decreases |conns|
  {
    var c := conns[0];
    if c.flags.FlagsError? {
      assert Causes(conns[0], LoadSpec(t, conns, exeOf).1.value);
    } else {
      var exe := exeOf(c);
      var res := LoadProtocols(t, c, c.flags.flags, exe, c.protocols);
      if res.1.Some? {
        LoadProtocolsError(t, c, c.flags.flags, exe, c.protocols);
        assert Causes(conns[0], LoadSpec(t, conns, exeOf).1.value);
      } else {
        LoadErrorCause(res.0, conns[1..], exeOf);
        var i :| 0 <= i < |conns[1..]| && Causes(conns[1..][i], LoadSpec(t, conns, exeOf).1.value);
        assert conns[i + 1] == conns[1..][i];
      }
    }
  }

  /// Connectors are visited in manifest order: loading `a + b` is loading
  /// `a`, then, only if that returned nil, loading `b`.
  lemma {:induction false} LoadAppend(t: Tables, a: seq<Connector>, b: seq<Connector>, exeOf: Connector -> string)
    ensures LoadSpec(t, a + b, exeOf) == AfterConnector(LoadSpec(t, a, exeOf), b, exeOf)
    decreases |a|
  {
    if |a| == 0 {
      assert a + b == b;
    } else {
      assert (a + b)[0] == a[0];
      assert (a + b)[1..] == a[1..] + b;
      var c := a[0];
      if c.flags.FlagsOk? {
        var res := LoadProtocols(t, c, c.flags.flags, exeOf(c), c.protocols);
        if res.1.None? {
          LoadAppend(res.0, a[1..], b, exeOf);
        }
      }
    }
  }

  /// A connector of a type outside the three roles fails Load with
  /// "unknown connector type" as soon as it declares a protocol, and is
  /// passed over when it declares none.
  lemma UnknownTypeFailsOnlyWithProtocols(t: Tables, c: Connector, rest: seq<Connector>, exeOf: Connector -> string)
    requires c.flags.FlagsOk? && RoleOf(c.typ).None?
    ensures |c.protocols| > 0 ==> LoadSpec(t, [c] + rest, exeOf) == (t, Some(UnknownConnectorType(c.typ)))
    ensures |c.protocols| == 0 ==> LoadSpec(t, [c] + rest, exeOf) == LoadSpec(t, rest, exeOf)
  {
    assert ([c] + rest)[0] == c;
    assert ([c] + rest)[1..] == rest;
  }

  /// No rollback: a manifest whose second protocol is already served fails
  /// with the registry's refusal, and its first protocol stays registered.
  lemma NoRollbackExample(f0: Factory, exe: string, exeOf: Connector -> string)
    ensures var t := Tables(map["b" := f0], map[], map[]);
      var c := Connector("importer", ["a", "b"], exe, [], [], FlagsOk(0));
      var res := LoadSpec(t, [c], exeOf);
      res.1 == Some(AlreadyRegistered(Importer, "b")) &&
      res.0.importers == map["b" := f0, "a" := Factory(Importer, 0, exeOf(c), [])]
  {
    var t := Tables(map["b" := f0], map[], map[]);
    var c := Connector("importer", ["a", "b"], exe, [], [], FlagsOk(0));
    var f := Factory(Importer, 0, exeOf(c), []);
    assert ["a", "b"][1..] == ["b"];
    var t1 := t.Set(Importer, t.Get(Importer)["a" := f]);
    assert LoadProtocols(t, c, 0, exeOf(c), ["a", "b"]) == LoadProtocols(t1, c, 0, exeOf(c), ["b"]);
    assert LoadProtocols(t1, c, 0, exeOf(c), ["b"]) == (t1, Some(AlreadyRegistered(Importer, "b")));
  }

  /// A factory Load installed, when called, connects to the connector's
  /// executable under the package directory with the connector's
  /// arguments; a connection failure yields no capability and the error
  /// wrapped as "failed to connect to plugin: ...".
  lemma LoadedFactoryConnects(
    t: Tables, conns: seq<Connector>, exeOf: Connector -> string, i: nat, p: string,
    target: string, config: map<string, string>,
    connect: (string, seq<string>) -> ConnectOutcome,
    wrap: (Role, Client, string, map<string, string>) -> Result<Capability, string>)
    requires LoadSpec(t, conns, exeOf).1.None?
    requires i < |conns| && RoleOf(conns[i].typ).Some? && p in conns[i].protocols
    ensures var r := RoleOf(conns[i].typ).value;
      var u := LoadSpec(t, conns, exeOf).0;
      var outcome := connect(exeOf(conns[i]), conns[i].args);
      p in u.Get(r) &&
      Invoke(u.Get(r)[p], target, config, connect, wrap) ==
        (if outcome.ConnectError? then Err("failed to connect to plugin: " + outcome.reason)
         else wrap(r, outcome.client, target, config))
  {
    LoadSuccess(t, conns, exeOf);
  }

  // ---------------------------------------------------------------------
  // What Unload promises

  /// The type string that RoleOf maps to `r`.
  function TypeName(r: Role): (typ: string)
    ensures RoleOf(typ) == Some(r)
  {
    match r
    case Importer => "importer"
    case Exporter => "exporter"
    case Storage => "storage"
  }

  lemma RoleOfName(typ: string, r: Role)
    ensures RoleOf(typ) == Some(r) <==> typ == TypeName(r)
  {
  }

  /// Unloading `a + b` is unloading `a` and then `b`, carrying the error.
  lemma {:induction false} UnloadAppend(t: Tables, a: seq<Pair>, b: seq<Pair>, e: Option<Error>)
    ensures var mid := UnloadSpec(t, a, e);
      UnloadSpec(t, a + b, e) == UnloadSpec(mid.0, b, mid.1)
    decreases |a|
  {
    if |a| == 0 {
      assert a + b == b;
    } else {
      assert (a + b)[0] == a[0];
      assert (a + b)[1..] == a[1..] + b;
      var (t1, e1) := UnloadStep(t, a[0]);
      UnloadAppend(t1, a[1..], b, e1);
    }
  }

  /// Unload's result is the error of the last pair it visited and nothing
  /// else: earlier failures are overwritten; with no pair it is the
  /// initial value.
  lemma UnloadLastError(t: Tables, ps: seq<Pair>, e: Option<Error>)
    ensures |ps| == 0 ==> UnloadSpec(t, ps, e).1 == e
    ensures |ps| > 0 ==>
      UnloadSpec(t, ps, e).1 == UnloadStep(UnloadSpec(t, ps[..|ps| - 1], e).0, ps[|ps| - 1]).1
  {
    if |ps| > 0 {
      var n := |ps|;
      assert ps == ps[..n - 1] + [ps[n - 1]];
      UnloadAppend(t, ps[..n - 1], [ps[n - 1]], e);
    }
  }

  /// Unload attempts every pair whatever earlier attempts returned: after
  /// it, a registry serves exactly what it served before minus the
  /// manifest's protocols of that registry's type, with unchanged factories.
  lemma {:induction false} UnloadRemoves(t: Tables, ps: seq<Pair>, e: Option<Error>)
    ensures var u := UnloadSpec(t, ps, e).0;
      forall r: Role, p: string ::
        (p in u.Get(r) <==> p in t.Get(r) && Pair(TypeName(r), p) !in ps) &&
        (p in u.Get(r) ==> u.Get(r)[p] == t.Get(r)[p])
    decreases |ps|
  {
    if |ps| > 0 {
      var (t1, e1) := UnloadStep(t, ps[0]);
      UnloadRemoves(t1, ps[1..], e1);
      forall r: Role, p: string
        ensures p in t1.Get(r) <==> p in t.Get(r) && Pair(TypeName(r), p) != ps[0]
        ensures p in t1.Get(r) ==> t1.Get(r)[p] == t.Get(r)[p]
      {
        RoleOfName(ps[0].typ, r);
      }
      assert ps == [ps[0]] + ps[1..];
    }
  }

  /// Only the last result counts: a missing first protocol followed by a
  /// present one unloads with nil.
  lemma UnloadLastWinsExample(f: Factory)
    ensures var t := Tables(map["b" := f], map[], map[]);
      var ps := [Pair("importer", "a"), Pair("importer", "b")];
      UnloadStep(t, ps[0]).1 == Some(NotRegistered(Importer, "a")) &&
      UnloadSpec(t, ps, None) == (Tables(map[], map[], map[]), None)
  {
    var t := Tables(map["b" := f], map[], map[]);
    var ps := [Pair("importer", "a"), Pair("importer", "b")];
    assert ps[1..] == [Pair("importer", "b")];
    assert map["b" := f] - {"b"} == map[];
  }
}
