/// main.go: the decisions `entryPoint` takes before running a subcommand
/// (the default and the bounds of `-cpu`, where the repository comes from),
/// the priority of the passphrase sources, and the subcommand listing the
/// usage text prints.
module PlakarMain {
  import opened Wrappers
  import opened Paths
  import opened GoStrings

  // ---- -cpu ----

  /// The default of `-cpu`: one core fewer than GOMAXPROCS, unless that
  /// is a single core.
  function CpuDefault(maxProcs: int): int
    requires maxProcs >= 1
  {
    if maxProcs != 1 then maxProcs - 1 else maxProcs
  }

  datatype CpuError = InvalidCpu(value: int) | TooManyCores(available: int)

  function CpuMessage(e: CpuError): string {
    match e
    case InvalidCpu(_) => "invalid -cpu value"
    case TooManyCores(_) => "can't use more cores than available"
  }

  /// The check of `-cpu` against the number of cores.
  function CpuCheck(count: int, numCpu: int): (r: Option<CpuError>)
    ensures r.None? <==> 1 <= count <= numCpu
    ensures r == Some(InvalidCpu(count)) <==> count <= 0
  {
    if count <= 0 then Some(InvalidCpu(count))
    else if count > numCpu then Some(TooManyCores(numCpu))
    else None
  }

  /// The default is at least one core and leaves one core free whenever
  /// there is more than one.
  lemma CpuDefaultRange(maxProcs: int)
    requires maxProcs >= 1
    ensures 1 <= CpuDefault(maxProcs) <= maxProcs
    ensures maxProcs > 1 ==> CpuDefault(maxProcs) == maxProcs - 1
  {
  }

  /// The default passes the check exactly when GOMAXPROCS exceeds the
  /// number of cores by at most one; a larger GOMAXPROCS (set through the
  /// environment) makes the default itself rejected.
  lemma CpuDefaultAccepted(maxProcs: int, numCpu: int)
    requires maxProcs >= 1 && numCpu >= 1
    ensures CpuCheck(CpuDefault(maxProcs), numCpu).None? <==> maxProcs <= numCpu + 1
    ensures maxProcs > numCpu + 1 ==> CpuCheck(CpuDefault(maxProcs), numCpu) == Some(TooManyCores(numCpu))
  {
  }

  // ---- repository selection ----

  datatype RepositoryError = MissingRepository | MissingCommand

  function RepositoryMessage(e: RepositoryError): string {
    match e
    case MissingRepository => "missing plakar repository"
    case MissingCommand => "missing command"
  }

  /// Where the repository comes from and the subcommand's arguments.
  datatype Selection = Selection(repository: string, args: seq<string>, at: bool)

  /// `plakar at REPOSITORY COMMAND ...`, or else the PLAKAR_REPOSITORY
  /// variable ("" when unset), the configured default repository, or the
  /// `.plakar` directory in the home directory.
  function SelectRepository(args: seq<string>, envRepository: string, defaultRepository: string, home: string):
    Result<Selection, RepositoryError>
  {
    if |args| > 0 && args[0] == "at" then
      if |args| < 2 then Err(MissingRepository)
      else if |args| < 3 then Err(MissingCommand)
      else Ok(Selection(args[1], args[2..], true))
    else
      var repository :=
        if envRepository != "" then envRepository
        else if defaultRepository != "" then "@" + defaultRepository
        else "fs:" + Join([home, ".plakar"]);
      Ok(Selection(repository, args, false))
  }

  /// With `at`, selection succeeds exactly when a repository and a command
  /// follow; the repository is the word after `at` and the command is the
  /// rest, never empty.
  lemma AtSelection(args: seq<string>, envRepository: string, defaultRepository: string, home: string)
    requires |args| > 0 && args[0] == "at"
    ensures var r := SelectRepository(args, envRepository, defaultRepository, home);
      (r.Ok? <==> |args| >= 3) &&
      (|args| == 1 ==> r == Err(MissingRepository)) &&
      (|args| == 2 ==> r == Err(MissingCommand)) &&
      (r.Ok? ==> r.value.at && [args[0], r.value.repository] + r.value.args == args && |r.value.args| >= 1)
  {
    if |args| >= 3 {
      assert [args[0], args[1]] + args[2..] == args;
    }
  }

  /// Without `at`, selection always succeeds with every argument passed on;
  /// the variable wins over the configured default, which wins over the
  /// home directory's `.plakar`.
  lemma DefaultSelection(args: seq<string>, envRepository: string, defaultRepository: string, home: string)
    requires |args| == 0 || args[0] != "at"
    ensures var r := SelectRepository(args, envRepository, defaultRepository, home);
      r.Ok? && !r.value.at && r.value.args == args &&
      (envRepository != "" ==> r.value.repository == envRepository) &&
      (envRepository == "" && defaultRepository != "" ==> r.value.repository == "@" + defaultRepository) &&
      (envRepository == "" && defaultRepository == "" ==> HasPrefix(r.value.repository, "fs:"))
  {
  }

  /// For a canonical home directory the fallback is `fs:` followed by the
  /// `.plakar` directory right inside it.
  lemma {:induction false} HomeRepository(hs: seq<string>, args: seq<string>)
    requires AllCanon(hs) && (|args| == 0 || args[0] != "at")
    ensures var r := SelectRepository(args, "", "", AbsPath(hs));
      r.Ok? && r.value.repository == "fs:" + AbsPath(hs + [".plakar"])
  {
    var dot := ".plakar";
    assert CanonElem(dot) by {
      assert !IsDot(dot) && !IsDotDot(dot);
      assert forall i :: 0 <= i < |dot| ==> dot[i] != Sep;
    }
    assert JoinSep([dot]) == dot;
    JoinAbsRelative(hs, [dot]);
  }

  // ---- passphrase ----

  /// Where the passphrase came from.
  datatype Source = KeyFile | ConfigPassphrase | ConfigCommand | EnvPassphrase | NoSource

  /// `getPassphraseFromEnv` on the repository's parameters: the key read
  /// from a file, else the `passphrase` parameter, else the output of the
  /// `passphrase_cmd` parameter's command, else PLAKAR_PASSPHRASE (None
  /// when unset; set to "" counts), else nothing. The parameter used is
  /// removed. `runCommand` is what running a passphrase command yields.
  function PassphraseSpec(params: map<string, string>, keyFromFile: string,
                          runCommand: string -> Result<string, string>, envPassphrase: Option<string>):
    (string, Option<string>, map<string, string>, Source)
  {
    if keyFromFile != "" then (keyFromFile, None, params, KeyFile)
    else if "passphrase" in params then (params["passphrase"], None, params - {"passphrase"}, ConfigPassphrase)
    else if "passphrase_cmd" in params then
      var rest := params - {"passphrase_cmd"};
      match runCommand(params["passphrase_cmd"])
      case Ok(pass) => (pass, None, rest, ConfigCommand)
      case Err(e) => ("", Some(e), rest, ConfigCommand)
    else if envPassphrase.Some? then (envPassphrase.value, None, params, EnvPassphrase)
    else ("", None, params, NoSource)
  }

  /// The parameter a source is read from.
  function SourceKey(s: Source): Option<string> {
    match s
    case ConfigPassphrase => Some("passphrase")
    case ConfigCommand => Some("passphrase_cmd")
    case _ => None
  }

  /// The repository parameters `getPassphraseFromEnv` consumes.
  class StoreConfig {
    var params: map<string, string>

    constructor (params: map<string, string>)
      ensures this.params == params
    {
      this.params := params;
    }

    method GetPassphraseFromEnv(keyFromFile: string, runCommand: string -> Result<string, string>,
                                envPassphrase: Option<string>)
      returns (pass: string, err: Option<string>)
      modifies this
      ensures var (p, e, rest, _) := PassphraseSpec(old(params), keyFromFile, runCommand, envPassphrase);
        pass == p && err == e && params == rest
    {
      if keyFromFile != "" {
        return keyFromFile, None;
      }
      if "passphrase" in params {
        pass := params["passphrase"];
        params := params - {"passphrase"};
        return pass, None;
      }
      if "passphrase_cmd" in params {
        var cmd := params["passphrase_cmd"];
        params := params - {"passphrase_cmd"};
        var out := runCommand(cmd);
        if out.Err? {
          return "", Some(out.error);
        }
        return out.value, None;
      }
      if envPassphrase.Some? {
        return envPassphrase.value, None;
      }
      return "", None;
    }
  }

  /// The sources are tried in order and the first one present is used;
  /// only the parameter it was read from is removed, every other parameter
  /// is kept as it was, and only a failing command is an error.
  lemma PassphrasePriority(params: map<string, string>, keyFromFile: string,
                           runCommand: string -> Result<string, string>, envPassphrase: Option<string>)
    ensures var (pass, err, rest, src) := PassphraseSpec(params, keyFromFile, runCommand, envPassphrase);
      (src == KeyFile <==> keyFromFile != "") &&
      (src == ConfigPassphrase <==> keyFromFile == "" && "passphrase" in params) &&
      (src == ConfigCommand <==> keyFromFile == "" && "passphrase" !in params && "passphrase_cmd" in params) &&
      (src == EnvPassphrase <==>
         keyFromFile == "" && "passphrase" !in params && "passphrase_cmd" !in params && envPassphrase.Some?) &&
      (src == NoSource ==> pass == "") &&
      (src == KeyFile ==> pass == keyFromFile) &&
      (src == ConfigPassphrase ==> pass == params["passphrase"]) &&
      (src == EnvPassphrase ==> pass == envPassphrase.value) &&
      (err.Some? <==> src == ConfigCommand && runCommand(params["passphrase_cmd"]).Err?) &&
      (SourceKey(src).Some? ==> SourceKey(src).value in params && SourceKey(src).value !in rest) &&
      (forall k :: (SourceKey(src).None? || k != SourceKey(src).value) ==>
         (k in rest <==> k in params) && (k in rest ==> rest[k] == params[k]))
  {
  }

  // ---- listCmds ----

  /// A printed line of the listing: a command and its subcommands.
  datatype Group = Group(head: string, subs: seq<string>)

  /// The `flush` closure's line, without its newline: a group whose first
  /// entry is the bare command and that has subcommands shows them in
  /// brackets.
  function FlushLine(prefix: string, g: Group): string {
    if |g.subs| > 1 && g.subs[0] == "" then prefix + g.head + " [" + JoinWith(g.subs[1..], " | ") + "]"
    else prefix + g.head + " " + JoinWith(g.subs, " | ")
  }

  /// The lines for a sequence of groups.
  function Render(prefix: string, gs: seq<Group>): (lines: seq<string>)
    ensures |lines| == |gs|
    ensures forall j :: 0 <= j < |gs| ==> lines[j] == FlushLine(prefix, gs[j])
  {
    if |gs| == 0 then [] else Render(prefix, gs[..|gs| - 1]) + [FlushLine(prefix, gs[|gs| - 1])]
  }

  /// The loop's state: the current command, its subcommands, and the
  /// groups already flushed.
  datatype Listing = Listing(last: string, subs: seq<string>, done: seq<Group>)

  const Start := Listing("", [], [])

  /// Entries that are listed: not empty and not under `diag`.
  predicate Listed(cmd: seq<string>) {
    |cmd| > 0 && cmd[0] != "diag"
  }

  /// The subcommand an entry starts a group with ("" for a bare command).
  function FirstSub(cmd: seq<string>): string {
    if |cmd| > 1 then cmd[1] else ""
  }

  /// An entry the loop can take without indexing past its end: a bare
  /// entry never continues the current group.
  predicate Fits(l: Listing, cmd: seq<string>) {
    !(Listed(cmd) && l.last != "" && l.last == cmd[0] && |l.subs| > 0 && |cmd| < 2)
  }

  /// One iteration of the loop.
  function Feed(l: Listing, cmd: seq<string>): Listing
    requires Fits(l, cmd)
  {
    if !Listed(cmd) then l
    else if l.last == "" then Listing(cmd[0], [FirstSub(cmd)], l.done)
    else if l.last == cmd[0] then
      if |l.subs| > 0 && l.subs[|l.subs| - 1] != cmd[1] then l.(subs := l.subs + [cmd[1]]) else l
    else Listing(cmd[0], [FirstSub(cmd)], l.done + [Group(l.last, l.subs)])
  }

  predicate Feedable(l: Listing, cmds: seq<seq<string>>)
    decreases |cmds|
  {
    |cmds| == 0 || (Fits(l, cmds[0]) && Feedable(Feed(l, cmds[0]), cmds[1..]))
  }

  function Fold(l: Listing, cmds: seq<seq<string>>): Listing
    requires Feedable(l, cmds)
    decreases |cmds|
  {
    if |cmds| == 0 then l else Fold(Feed(l, cmds[0]), cmds[1..])
  }

  /// The groups `listCmds` prints, the last one flushed after the loop.
  function GroupsOf(cmds: seq<seq<string>>): seq<Group>
    requires Feedable(Start, cmds)
  {
    var l := Fold(Start, cmds);
    l.done + [Group(l.last, l.subs)]
  }

  /// `listCmds` over the registered commands, as the lines it prints.
  method ListCmds(prefix: string, all: seq<seq<string>>) returns (lines: seq<string>)
    requires Feedable(Start, all)
    ensures lines == Render(prefix, GroupsOf(all))
  {
    var last := "";
    var subs: seq<string> := [];
    ghost var done: seq<Group> := [];
    lines := [];
    assert all[0..] == all;
    for i := 0 to |all|
      invariant Feedable(Listing(last, subs, done), all[i..])
      invariant Fold(Start, all) == Fold(Listing(last, subs, done), all[i..])
      invariant lines == Render(prefix, done)
    {
      var cmd := all[i];
      assert all[i..][1..] == all[i + 1..];
      if |cmd| == 0 || cmd[0] == "diag" {
        continue;
      }
      if last != "" {
        if last == cmd[0] {
          if |subs| > 0 && subs[|subs| - 1] != cmd[1] {
            subs := subs + [cmd[1]];
          }
          continue;
        }
        ghost var flushed := done;
        lines := lines + [FlushLine(prefix, Group(last, subs))];
        done := done + [Group(last, subs)];
        assert done[..|done| - 1] == flushed;
      }
      last := cmd[0];
      if |cmd| > 1 {
        subs := [cmd[1]];
      } else {
        subs := [""];
      }
    }
    assert all[|all|..] == [];
    lines := lines + [FlushLine(prefix, Group(last, subs))];
    assert (done + [Group(last, subs)])[..|done|] == done;
  }

  /// The heads of the listed entries, in order.
  function ListedHeads(cmds: seq<seq<string>>): seq<string> {
    if |cmds| == 0 then []
    else (if Listed(cmds[0]) then [cmds[0][0]] else []) + ListedHeads(cmds[1..])
  }

  /// A sequence with each run of equal neighbours collapsed to one element.
  function RunHeads(hs: seq<string>): seq<string> {
    if |hs| <= 1 then hs
    else if hs[0] == hs[1] then RunHeads(hs[1..])
    else [hs[0]] + RunHeads(hs[1..])
  }

  function Heads(gs: seq<Group>): seq<string> {
    if |gs| == 0 then [] else Heads(gs[..|gs| - 1]) + [gs[|gs| - 1].head]
  }

  predicate NoAdjacentRepeat(s: seq<string>) {
    forall j :: 0 <= j < |s| - 1 ==> s[j] != s[j + 1]
  }

  /// Every listed entry names a command.
  predicate NamedHeads(cmds: seq<seq<string>>) {
    forall i :: 0 <= i < |cmds| && Listed(cmds[i]) ==> cmds[i][0] != ""
  }

  lemma HeadsAppend(gs: seq<Group>, g: Group)
    ensures Heads(gs + [g]) == Heads(gs) + [g.head]
  {
    assert (gs + [g])[..|gs|] == gs;
  }

  /// From a state inside a group, the groups flushed and the current one
  /// follow the runs of heads, starting with the current group's head.
  lemma {:induction false} FoldHeads(l: Listing, cmds: seq<seq<string>>)
    requires Feedable(l, cmds) && l.last != "" && NamedHeads(cmds)
    ensures var f := Fold(l, cmds);
      Heads(f.done) + [f.last] == Heads(l.done) + RunHeads([l.last] + ListedHeads(cmds))
    decreases |cmds|
  {
    if |cmds| > 0 {
      var rest := cmds[1..];
      assert NamedHeads(rest) by {
        forall i | 0 <= i < |rest| && Listed(rest[i])
          ensures rest[i][0] != ""
        {
          assert rest[i] == cmds[i + 1];
        }
      }
      FoldHeads(Feed(l, cmds[0]), rest);
      FeedRun(l, cmds[0], rest);
      assert [cmds[0]] + rest == cmds;
    }
  }

  /// One entry taken: the runs still to be flushed absorb it.
  lemma FeedRun(l: Listing, cmd: seq<string>, rest: seq<seq<string>>)
    requires Fits(l, cmd) && l.last != "" && (Listed(cmd) ==> cmd[0] != "")
    ensures var l' := Feed(l, cmd);
      l'.last != "" &&
      Heads(l'.done) + RunHeads([l'.last] + ListedHeads(rest)) == Heads(l.done) + RunHeads([l.last] + ListedHeads([cmd] + rest))
  {
    var cmds := [cmd] + rest;
    assert cmds[0] == cmd && cmds[1..] == rest;
    if Listed(cmd) {
      var h := cmd[0];
      assert ListedHeads(cmds) == [h] + ListedHeads(rest);
      var x := [l.last] + ListedHeads(cmds);
      assert x[0] == l.last && x[1] == h && x[1..] == [h] + ListedHeads(rest);
      if h != l.last {
        HeadsAppend(l.done, Group(l.last, l.subs));
      }
    } else {
      assert ListedHeads(cmds) == ListedHeads(rest);
    }
  }

  /// `listCmds` prints one line per run of consecutive listed entries with
  /// the same command, in order, skipping empty entries and `diag`; with
  /// nothing to list it still prints one line, for the empty command.
  lemma {:induction false} GroupHeadsAreRuns(cmds: seq<seq<string>>)
    requires Feedable(Start, cmds) && NamedHeads(cmds)
    ensures Heads(GroupsOf(cmds)) == if ListedHeads(cmds) == [] then [""] else RunHeads(ListedHeads(cmds))
    decreases |cmds|
  {
    var f := Fold(Start, cmds);
    HeadsAppend(f.done, Group(f.last, f.subs));
    if |cmds| > 0 {
      var rest := cmds[1..];
      assert NamedHeads(rest) by {
        forall i | 0 <= i < |rest| && Listed(rest[i])
          ensures rest[i][0] != ""
        {
          assert rest[i] == cmds[i + 1];
        }
      }
      if Listed(cmds[0]) {
        FoldHeads(Feed(Start, cmds[0]), rest);
        assert [cmds[0][0]] + ListedHeads(rest) == ListedHeads(cmds);
      } else {
        assert Feed(Start, cmds[0]) == Start;
        assert GroupsOf(cmds) == GroupsOf(rest);
        assert ListedHeads(cmds) == ListedHeads(rest);
        GroupHeadsAreRuns(rest);
      }
    }
  }

  /// Collapsed runs have no equal neighbours, start with the same element,
  /// and a sequence without equal neighbours is its own collapse.
  lemma {:induction false} RunHeadsDistinct(hs: seq<string>)
    ensures NoAdjacentRepeat(RunHeads(hs))
    ensures |hs| > 0 ==> |RunHeads(hs)| > 0 && RunHeads(hs)[0] == hs[0]
    ensures NoAdjacentRepeat(hs) ==> RunHeads(hs) == hs
  {
    if |hs| > 1 {
      RunHeadsDistinct(hs[1..]);
      if NoAdjacentRepeat(hs) {
        assert NoAdjacentRepeat(hs[1..]) by {
          forall j | 0 <= j < |hs[1..]| - 1
            ensures hs[1..][j] != hs[1..][j + 1]
          {
            assert hs[1..][j] == hs[j + 1] && hs[1..][j + 1] == hs[j + 2];
          }
        }
        assert hs[0] != hs[1];
        assert [hs[0]] + hs[1..] == hs;
      }
    }
  }

  /// Every group's subcommands have no equal neighbours: a subcommand
  /// repeating the previous one is not added again.
  lemma {:induction false} FoldSubs(l: Listing, cmds: seq<seq<string>>)
    requires Feedable(l, cmds) && NoAdjacentRepeat(l.subs)
    requires forall j :: 0 <= j < |l.done| ==> NoAdjacentRepeat(l.done[j].subs)
    ensures var f := Fold(l, cmds);
      NoAdjacentRepeat(f.subs) && forall j :: 0 <= j < |f.done| ==> NoAdjacentRepeat(f.done[j].subs)
    decreases |cmds|
  {
    if |cmds| > 0 {
      var l' := Feed(l, cmds[0]);
      assert forall j :: 0 <= j < |l'.done| ==> NoAdjacentRepeat(l'.done[j].subs) by {
        if |l'.done| > |l.done| {
          assert l'.done == l.done + [Group(l.last, l.subs)];
        }
      }
      FoldSubs(l', cmds[1..]);
    }
  }

  lemma GroupSubsNoRepeat(cmds: seq<seq<string>>)
    requires Feedable(Start, cmds)
    ensures var gs := GroupsOf(cmds);
      forall j :: 0 <= j < |gs| ==> NoAdjacentRepeat(gs[j].subs)
  {
    FoldSubs(Start, cmds);
  }

  /// A bare command followed by two of its subcommands is printed with the
  /// subcommands in brackets.
  lemma BracketedGroup(prefix: string, h: string, a: string, b: string)
    requires h != "" && h != "diag" && a != "" && a != b
    ensures Feedable(Start, [[h], [h, a], [h, b]])
    ensures Render(prefix, GroupsOf([[h], [h, a], [h, b]])) == [prefix + h + " [" + a + " | " + b + "]"]
  {
    var cmds := [[h], [h, a], [h, b]];
    var l1 := Feed(Start, cmds[0]);
    assert l1 == Listing(h, [""], []);
    var l2 := Feed(l1, cmds[1]);
    assert l2 == Listing(h, ["", a], []);
    var l3 := Feed(l2, cmds[2]);
    assert l3 == Listing(h, ["", a, b], []);
    ThreeSteps(cmds, Start);
    assert GroupsOf(cmds) == [Group(h, ["", a, b])];
    assert ["", a, b][1..] == [a, b];
    assert JoinWith([a, b], " | ") == a + " | " + b by {
      assert JoinWith([a, b], " | ") == a + " | " + JoinWith([b], " | ");
      assert [a, b][1..] == [b];
    }
    assert FlushLine(prefix, Group(h, ["", a, b])) == prefix + h + " [" + a + " | " + b + "]";
  }

  /// Subcommands without a bare entry are listed after a space, and an
  /// entry repeating the previous subcommand is listed once.
  lemma PlainGroup(prefix: string, h: string, a: string, b: string)
    requires h != "" && h != "diag" && a != "" && a != b
    ensures Feedable(Start, [[h, a], [h, a], [h, b]])
    ensures Render(prefix, GroupsOf([[h, a], [h, a], [h, b]])) == [prefix + h + " " + a + " | " + b]
  {
    var cmds := [[h, a], [h, a], [h, b]];
    var l1 := Feed(Start, cmds[0]);
    assert l1 == Listing(h, [a], []);
    var l2 := Feed(l1, cmds[1]);
    assert l2 == l1;
    var l3 := Feed(l2, cmds[2]);
    assert l3 == Listing(h, [a, b], []);
    ThreeSteps(cmds, Start);
    assert GroupsOf(cmds) == [Group(h, [a, b])];
    assert JoinWith([a, b], " | ") == a + " | " + b by {
      assert JoinWith([a, b], " | ") == a + " | " + JoinWith([b], " | ");
      assert [a, b][1..] == [b];
    }
    assert FlushLine(prefix, Group(h, [a, b])) == prefix + h + " " + a + " | " + b;
  }

  /// Folding three entries that each fit is feeding them one by one.
  lemma ThreeSteps(cmds: seq<seq<string>>, l: Listing)
    requires |cmds| == 3 && Fits(l, cmds[0]) && Fits(Feed(l, cmds[0]), cmds[1])
    requires Fits(Feed(Feed(l, cmds[0]), cmds[1]), cmds[2])
    ensures Feedable(l, cmds)
    ensures Fold(l, cmds) == Feed(Feed(Feed(l, cmds[0]), cmds[1]), cmds[2])
  {
    var l1 := Feed(l, cmds[0]);
    var l2 := Feed(l1, cmds[1]);
    var l3 := Feed(l2, cmds[2]);
    assert cmds[1..][1..][1..] == [];
    assert cmds[1..][1..][0] == cmds[2] && cmds[1..][0] == cmds[1];
    assert Feedable(l3, cmds[1..][1..][1..]) && Fold(l3, cmds[1..][1..][1..]) == l3;
    assert Feedable(l2, cmds[1..][1..]) && Fold(l2, cmds[1..][1..]) == l3;
    assert Feedable(l1, cmds[1..]) && Fold(l1, cmds[1..]) == l3;
  }

  /// With nothing to list, a single line holding the prefix and a space.
  lemma EmptyListing(prefix: string)
    ensures Render(prefix, GroupsOf([])) == [prefix + " "]
  {
    assert GroupsOf([]) == [Group("", [])];
    assert FlushLine(prefix, Group("", [])) == prefix + " ";
  }
}
