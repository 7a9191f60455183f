/// The plugin manifest as the package library parses it: a name, a version
/// and an ordered list of connector declarations. Parsing itself belongs to
/// the library and is not part of this model.
module Manifests {

  /// What `Connector.Flags()` yields: the location flags derived from the
  /// connector's declared attributes, or the library's error.
  datatype FlagsOutcome = FlagsOk(flags: nat) | FlagsError(reason: string)

  /// One connector declaration. `typ` is the declared type string
  /// ("importer", "exporter", "storage", or anything else a manifest holds).
  datatype Connector = Connector(
    typ: string,
    protocols: seq<string>,
    executable: string,
    args: seq<string>,
    extraFiles: seq<string>,
    flags: FlagsOutcome)

  datatype Manifest = Manifest(name: string, version: string, connectors: seq<Connector>)

  /// One (type, protocol) pair of a connector.
  datatype Pair = Pair(typ: string, proto: string)

  function ConnectorPairs(typ: string, protos: seq<string>): (ps: seq<Pair>)
    ensures |ps| == |protos|
    ensures forall k :: 0 <= k < |ps| ==> ps[k] == Pair(typ, protos[k])
  {
    if |protos| == 0 then [] else [Pair(typ, protos[0])] + ConnectorPairs(typ, protos[1..])
  }

  /// Every (type, protocol) pair of the manifest, connector by connector and
  /// protocol by protocol, in declaration order.
  function Pairs(conns: seq<Connector>): seq<Pair> {
    if |conns| == 0 then []
    else ConnectorPairs(conns[0].typ, conns[0].protocols) + Pairs(conns[1..])
  }

  lemma {:induction false} PairsAppend(a: seq<Connector>, b: seq<Connector>)
    ensures Pairs(a + b) == Pairs(a) + Pairs(b)
    decreases |a|
  {
    if |a| == 0 {
      assert a + b == b;
    } else {
      assert (a + b)[1..] == a[1..] + b;
      PairsAppend(a[1..], b);
    }
  }

  /// A pair is in the manifest exactly when some connector declares it.
  lemma {:induction false} InPairs(conns: seq<Connector>, x: Pair)
    ensures x in Pairs(conns) <==>
      exists i :: 0 <= i < |conns| && conns[i].typ == x.typ && x.proto in conns[i].protocols
    decreases |conns|
  {
    if |conns| > 0 {
      InPairs(conns[1..], x);
      var head := ConnectorPairs(conns[0].typ, conns[0].protocols);
      assert x in head <==> conns[0].typ == x.typ && x.proto in conns[0].protocols;
      if x in Pairs(conns[1..]) {
        var i :| 0 <= i < |conns[1..]| && conns[1..][i].typ == x.typ && x.proto in conns[1..][i].protocols;
        assert conns[i + 1] == conns[1..][i];
      }
      if exists i :: 0 <= i < |conns| && conns[i].typ == x.typ && x.proto in conns[i].protocols {
        var i :| 0 <= i < |conns| && conns[i].typ == x.typ && x.proto in conns[i].protocols;
        if i > 0 {
          assert conns[1..][i - 1] == conns[i];
        }
      }
    }
  }
}
