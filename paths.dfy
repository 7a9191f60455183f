/// Go's `path` and `path/filepath` packages as the Unix build of the
/// program sees them ('/' is the only separator, `filepath.ToSlash` is the
/// identity): splitting, joining, cleaning, `Dir` and `Base`.
///
/// `Clean` is stated on components: the path is split at every '/', empty
/// and "." components are dropped, ".." removes the component before it
/// (at the root it is dropped, in a relative path it is kept when there is
/// nothing left to remove), and the result is re-joined.
module Paths {

  const Sep: char := '/'

  predicate IsAbs(p: string) {
    |p| > 0 && p[0] == Sep
  }

  predicate HasPrefix(s: string, prefix: string) {
    |prefix| <= |s| && s[..|prefix|] == prefix
  }

  predicate HasSuffix(s: string, suffix: string) {
    |suffix| <= |s| && s[|s| - |suffix|..] == suffix
  }

  /// `strings.CutPrefix`, keeping only the string.
  function CutPrefix(s: string, prefix: string): (r: string)
    ensures HasPrefix(s, prefix) ==> s == prefix + r
    ensures !HasPrefix(s, prefix) ==> r == s
  {
    if HasPrefix(s, prefix) then s[|prefix|..] else s
  }

  /// `strings.Split(s, "/")`.
  function Split(s: string): (parts: seq<string>)
    ensures |parts| >= 1
    decreases |s|
  {
    if |s| == 0 then [""]
    else if s[0] == Sep then [""] + Split(s[1..])
    else
      var rest := Split(s[1..]);
      [[s[0]] + rest[0]] + rest[1..]
  }

  /// `strings.Join(parts, "/")`.
  function JoinSep(parts: seq<string>): string {
    if |parts| == 0 then ""
    else if |parts| == 1 then parts[0]
    else parts[0] + [Sep] + JoinSep(parts[1..])
  }

  predicate NoSeps(parts: seq<string>) {
    forall i :: 0 <= i < |parts| ==> Sep !in parts[i]
  }

  /// No piece of a split holds a '/'.
  lemma {:induction false} SplitNoSeps(s: string)
    ensures NoSeps(Split(s))
    decreases |s|
  {
    if |s| > 0 {
      SplitNoSeps(s[1..]);
      var rest := Split(s[1..]);
      if s[0] != Sep {
        assert Sep !in [s[0]] + rest[0];
        assert forall i :: 1 <= i < |rest| ==> ([[s[0]] + rest[0]] + rest[1..])[i] == rest[i];
      }
    }
  }

  /// Splitting and re-joining gives the string back.
  lemma {:induction false} JoinSplit(s: string)
    ensures JoinSep(Split(s)) == s
    decreases |s|
  {
    if |s| == 0 {
    } else if s[0] == Sep {
      JoinSplit(s[1..]);
      var r := Split(s[1..]);
      assert Split(s) == [""] + r;
      assert ([""] + r)[1..] == r;
      assert s == [s[0]] + s[1..];
    } else {
      JoinSplit(s[1..]);
      var r := Split(s[1..]);
      assert s == [s[0]] + s[1..];
      if |r| > 1 {
        assert JoinSep(r) == r[0] + [Sep] + JoinSep(r[1..]);
        assert ([[s[0]] + r[0]] + r[1..])[1..] == r[1..];
      }
    }
  }

  lemma {:induction false} SplitNoSep(a: string)
    requires Sep !in a
    ensures Split(a) == [a]
    decreases |a|
  {
    if |a| > 0 {
      SplitNoSep(a[1..]);
      assert [a[0]] + a[1..] == a;
    }
  }

  lemma {:induction false} SplitCons(a: string, rest: string)
    requires Sep !in a
    ensures Split(a + [Sep] + rest) == [a] + Split(rest)
    decreases |a|
  {
    var t := a + [Sep] + rest;
    if |a| == 0 {
      assert t[1..] == rest;
    } else {
      assert t[1..] == a[1..] + [Sep] + rest;
      SplitCons(a[1..], rest);
      assert [a[0]] + a[1..] == a;
    }
  }

  /// Joining components that hold no '/' and splitting again gives them back.
  lemma {:induction false} SplitJoin(parts: seq<string>)
    requires |parts| >= 1 && NoSeps(parts)
    ensures Split(JoinSep(parts)) == parts
    decreases |parts|
  {
    if |parts| == 1 {
      SplitNoSep(parts[0]);
    } else {
      SplitJoin(parts[1..]);
      SplitCons(parts[0], JoinSep(parts[1..]));
      assert [parts[0]] + parts[1..] == parts;
    }
  }

  lemma {:induction false} JoinSepAppend(a: seq<string>, b: seq<string>)
    requires |a| >= 1 && |b| >= 1
    ensures JoinSep(a + b) == JoinSep(a) + [Sep] + JoinSep(b)
    decreases |a|
  {
    if |a| == 1 {
      assert (a + b)[1..] == b;
    } else {
      JoinSepAppend(a[1..], b);
      assert (a + b)[1..] == a[1..] + b;
    }
  }

  /// "." and "..", told apart by their characters.
  predicate IsDot(e: string) {
    |e| == 1 && e[0] == '.'
  }

  predicate IsDotDot(e: string) {
    |e| == 2 && e[0] == '.' && e[1] == '.'
  }

  /// A component that `Clean` keeps as it is in a rooted path.
  predicate CanonElem(e: string) {
    |e| > 0 && !IsDot(e) && !IsDotDot(e) && Sep !in e
  }

  predicate AllCanon(cs: seq<string>) {
    forall i :: 0 <= i < |cs| ==> CanonElem(cs[i])
  }

  /// The rooted path whose components are `cs`.
  function AbsPath(cs: seq<string>): string {
    [Sep] + JoinSep(cs)
  }

  /// The stack-based elimination of "", "." and ".." that `Clean` performs.
  function Normalize(stack: seq<string>, parts: seq<string>, rooted: bool): seq<string>
    decreases |parts|
  {
    if |parts| == 0 then stack
    else
      var p := parts[0];
      if |p| == 0 || IsDot(p) then Normalize(stack, parts[1..], rooted)
      else if IsDotDot(p) then
        if |stack| > 0 && !IsDotDot(stack[|stack| - 1]) then Normalize(stack[..|stack| - 1], parts[1..], rooted)
        else if rooted then Normalize(stack, parts[1..], rooted)
        else Normalize(stack + [".."], parts[1..], rooted)
      else Normalize(stack + [p], parts[1..], rooted)
  }

  /// `path.Clean` / `filepath.Clean`.
  function Clean(p: string): string {
    if |p| == 0 then "."
    else if p[0] == Sep then AbsPath(Normalize([], Split(p), true))
    else
      var body := JoinSep(Normalize([], Split(p), false));
      if |body| == 0 then "." else body
  }

  /// In a rooted path nothing but canonical components survives.
  lemma {:induction false} NormalizeRooted(stack: seq<string>, parts: seq<string>)
    requires AllCanon(stack) && NoSeps(parts)
    ensures AllCanon(Normalize(stack, parts, true))
    decreases |parts|
  {
    if |parts| > 0 {
      var p := parts[0];
      assert Sep !in p;
      if |p| == 0 || IsDot(p) {
        NormalizeRooted(stack, parts[1..]);
      } else if IsDotDot(p) {
        if |stack| > 0 && !IsDotDot(stack[|stack| - 1]) {
          NormalizeRooted(stack[..|stack| - 1], parts[1..]);
        } else {
          NormalizeRooted(stack, parts[1..]);
        }
      } else {
        NormalizeRooted(stack + [p], parts[1..]);
      }
    }
  }

  /// Canonical components are pushed as they are.
  lemma {:induction false} NormalizeCanon(stack: seq<string>, cs: seq<string>, rest: seq<string>, rooted: bool)
    requires AllCanon(cs)
    ensures Normalize(stack, cs + rest, rooted) == Normalize(stack + cs, rest, rooted)
    decreases |cs|
  {
    if |cs| == 0 {
      assert cs + rest == rest;
      assert stack + cs == stack;
    } else {
      assert (cs + rest)[0] == cs[0];
      assert (cs + rest)[1..] == cs[1..] + rest;
      NormalizeCanon(stack + [cs[0]], cs[1..], rest, rooted);
      assert stack + [cs[0]] + cs[1..] == stack + cs;
    }
  }

  lemma SplitRootedOnce(x: string)
    ensures Split([Sep] + x) == [""] + Split(x)
  {
    assert ([Sep] + x)[1..] == x;
  }

  lemma NormalizeSkipEmpty(stack: seq<string>, rest: seq<string>, rooted: bool)
    ensures Normalize(stack, [""] + rest, rooted) == Normalize(stack, rest, rooted)
  {
    assert ([""] + rest)[1..] == rest;
  }

  /// Normalizing "" followed by canonical components and then "" keeps
  /// exactly the components.
  lemma NormalizeFramed(cs: seq<string>, tail: seq<string>)
    requires AllCanon(cs) && (tail == [] || tail == [""])
    ensures Normalize([], [""] + cs + tail, true) == cs
  {
    assert [""] + cs + tail == [""] + (cs + tail);
    NormalizeSkipEmpty([], cs + tail, true);
    NormalizeCanon([], cs, tail, true);
    assert [] + cs == cs;
    if tail == [""] {
      NormalizeSkipEmpty(cs, [], true);
      assert [""] + [] == tail;
    }
  }

  /// Clean leaves a rooted canonical path alone.
  lemma CleanCanonical(cs: seq<string>)
    requires AllCanon(cs)
    ensures Clean(AbsPath(cs)) == AbsPath(cs)
  {
    SplitRootedOnce(JoinSep(cs));
    if |cs| == 0 {
      assert Split("") == [""];
      NormalizeFramed([], [""]);
      assert [""] + [] + [""] == [""] + Split("");
    } else {
      SplitJoin(cs);
      NormalizeFramed(cs, []);
      assert [""] + cs + [] == [""] + cs;
    }
  }

  /// A rooted path Clean leaves alone: "/" or "/a/b/c" with canonical components.
  predicate CanonicalAbs(p: string) {
    IsAbs(p) && (p == [Sep] || AllCanon(Split(p[1..])))
  }

  /// The components of a canonical rooted path.
  function Components(p: string): seq<string>
    requires CanonicalAbs(p)
  {
    if p == [Sep] then [] else Split(p[1..])
  }

  lemma ComponentsSpec(p: string)
    requires CanonicalAbs(p)
    ensures AllCanon(Components(p)) && AbsPath(Components(p)) == p
  {
    if p != [Sep] {
      JoinSplit(p[1..]);
      assert p == [p[0]] + p[1..];
    }
  }

  lemma JoinSepNonEmpty(cs: seq<string>)
    requires AllCanon(cs) && |cs| >= 1
    ensures JoinSep(cs) != ""
  {
    if |cs| > 1 {
      assert JoinSep(cs) == cs[0] + [Sep] + JoinSep(cs[1..]);
    }
  }

  /// Every canonical component list names a canonical path, and only one.
  lemma AbsPathCanonical(cs: seq<string>)
    requires AllCanon(cs)
    ensures CanonicalAbs(AbsPath(cs)) && Components(AbsPath(cs)) == cs
  {
    var s := AbsPath(cs);
    assert s[1..] == JoinSep(cs);
    if |cs| > 0 {
      JoinSepNonEmpty(cs);
      SplitJoin(cs);
      assert s != [Sep];
    }
  }

  /// Clean turns every rooted path into a canonical one.
  lemma CleanAbs(p: string)
    requires IsAbs(p)
    ensures CanonicalAbs(Clean(p))
  {
    SplitNoSeps(p);
    NormalizeRooted([], Split(p));
    AbsPathCanonical(Normalize([], Split(p), true));
  }

  /// Index of the last '/', or -1.
  function LastSep(s: string): (i: int)
    ensures -1 <= i < |s|
    ensures i >= 0 ==> s[i] == Sep
  {
    if |s| == 0 then -1
    else if s[|s| - 1] == Sep then |s| - 1
    else LastSep(s[..|s| - 1])
  }

  /// Nothing after LastSep is a '/'.
  lemma {:induction false} LastSepIsLast(s: string)
    ensures forall j :: LastSep(s) < j < |s| ==> s[j] != Sep
    decreases |s|
  {
    if |s| > 0 && s[|s| - 1] != Sep {
      LastSepIsLast(s[..|s| - 1]);
    }
  }

  /// `path.Dir`; `filepath.Dir` is the same on Unix.
  function Dir(p: string): string {
    Clean(p[..LastSep(p) + 1])
  }

  function TrimTrailingSeps(s: string): (r: string)
    ensures r == "" || r[|r| - 1] != Sep
  {
    if |s| > 0 && s[|s| - 1] == Sep then TrimTrailingSeps(s[..|s| - 1]) else s
  }

  /// `path.Base`; `filepath.Base` is the same on Unix.
  function Base(p: string): string {
    if |p| == 0 then "."
    else
      var q := TrimTrailingSeps(p);
      if |q| == 0 then [Sep]
      else
        var b := q[LastSep(q) + 1..];
        if |b| == 0 then [Sep] else b
  }

  /// `path.Join` / `filepath.Join`: from the first non-empty element on,
  /// the elements joined by '/' and cleaned; "" when every element is empty.
  function Join(elems: seq<string>): string {
    if |elems| == 0 then ""
    else if |elems[0]| > 0 then Clean(JoinSep(elems))
    else Join(elems[1..])
  }

  lemma {:induction false} LastSepAfter(s: string, x: string)
    requires Sep !in x
    ensures LastSep(s + [Sep] + x) == |s|
    decreases |x|
  {
    var t := s + [Sep] + x;
    if |x| > 0 {
      var x' := x[..|x| - 1];
      assert t[|t| - 1] == x[|x| - 1];
      assert t[..|t| - 1] == s + [Sep] + x';
      LastSepAfter(s, x');
    }
  }

  /// Clean(AbsPath(cs) + "/") drops the trailing separator.
  lemma CleanTrailingSep(cs: seq<string>)
    requires AllCanon(cs) && |cs| >= 1
    ensures Clean(AbsPath(cs) + [Sep]) == AbsPath(cs)
  {
    JoinSepAppend(cs, [""]);
    assert AbsPath(cs) + [Sep] == [Sep] + JoinSep(cs + [""]);
    SplitRootedOnce(JoinSep(cs + [""]));
    assert NoSeps(cs + [""]);
    SplitJoin(cs + [""]);
    NormalizeFramed(cs, [""]);
    assert [""] + (cs + [""]) == [""] + cs + [""];
  }

  lemma {:induction false} DirCanon(cs: seq<string>)
    requires AllCanon(cs) && |cs| >= 1
    ensures Dir(AbsPath(cs)) == AbsPath(cs[..|cs| - 1])
  {
    var init, x := cs[..|cs| - 1], cs[|cs| - 1];
    assert cs == init + [x];
    var t := AbsPath(cs);
    if |init| == 0 {
      assert t == "" + [Sep] + x;
      LastSepAfter("", x);
      assert t[..1] == AbsPath([]);
      CleanCanonical([]);
    } else {
      JoinSepAppend(init, [x]);
      assert t == AbsPath(init) + [Sep] + x;
      LastSepAfter(AbsPath(init), x);
      assert t[..|AbsPath(init)| + 1] == AbsPath(init) + [Sep];
      CleanTrailingSep(init);
    }
  }

  lemma {:induction false} BaseCanon(cs: seq<string>)
    requires AllCanon(cs) && |cs| >= 1
    ensures Base(AbsPath(cs)) == cs[|cs| - 1]
  {
    var init, x := cs[..|cs| - 1], cs[|cs| - 1];
    assert cs == init + [x];
    var s := if |init| == 0 then "" else AbsPath(init);
    if |init| > 0 {
      JoinSepAppend(init, [x]);
    }
    var t := AbsPath(cs);
    assert t == s + [Sep] + x;
    LastSepAfter(s, x);
    assert t[|t| - 1] == x[|x| - 1];
    assert TrimTrailingSeps(t) == t;
    assert t[|s| + 1..] == x;
  }

  /// On a canonical rooted path, Dir drops the last component and Base
  /// returns it.
  lemma DirBase(cs: seq<string>)
    requires AllCanon(cs) && |cs| >= 1
    ensures Dir(AbsPath(cs)) == AbsPath(cs[..|cs| - 1])
    ensures Base(AbsPath(cs)) == cs[|cs| - 1]
  {
    DirCanon(cs);
    BaseCanon(cs);
  }

  /// Joining a rooted canonical path with a relative one made of canonical
  /// components appends the components.
  lemma JoinAbsRelative(cs: seq<string>, rs: seq<string>)
    requires AllCanon(cs) && AllCanon(rs) && |rs| >= 1
    ensures Join([AbsPath(cs), JoinSep(rs)]) == AbsPath(cs + rs)
  {
    var r := JoinSep(rs);
    JoinTwo(AbsPath(cs), r);
    if |cs| == 0 {
      assert AbsPath(cs) == [Sep];
      assert cs + rs == rs;
      CleanDoubleRoot(rs);
      assert AbsPath(cs) + [Sep] + r == [Sep] + [Sep] + r;
    } else {
      AppendCanonical(cs, rs);
    }
  }

  lemma AppendCanonical(cs: seq<string>, rs: seq<string>)
    requires AllCanon(cs) && AllCanon(rs) && |cs| >= 1 && |rs| >= 1
    ensures Clean(AbsPath(cs) + [Sep] + JoinSep(rs)) == AbsPath(cs + rs)
  {
    JoinSepAppend(cs, rs);
    RootedConcat(JoinSep(cs), JoinSep(rs));
    CleanCanonical(cs + rs);
  }

  lemma RootedConcat(a: string, b: string)
    ensures [Sep] + a + [Sep] + b == [Sep] + (a + [Sep] + b)
  {
  }

  lemma JoinTwo(a: string, b: string)
    requires a != ""
    ensures Join([a, b]) == Clean(a + [Sep] + b)
  {
    assert JoinSep([a, b]) == a + [Sep] + JoinSep([b]);
  }

  /// "//a/b" cleans to "/a/b".
  lemma CleanDoubleRoot(rs: seq<string>)
    requires AllCanon(rs) && |rs| >= 1
    ensures Clean([Sep] + [Sep] + JoinSep(rs)) == AbsPath(rs)
  {
    var u := [Sep] + JoinSep(rs);
    assert [Sep] + [Sep] + JoinSep(rs) == [Sep] + u;
    SplitRootedOnce(u);
    SplitRootedOnce(JoinSep(rs));
    SplitJoin(rs);
    NormalizeSkipEmpty([], [""] + rs, true);
    NormalizeFramed(rs, []);
    assert [""] + rs + [] == [""] + rs;
  }

  /// Joining a first element with several others is joining it with
  /// those others already joined by '/'.
  lemma JoinHead(a: string, rest: seq<string>)
    requires a != "" && |rest| >= 1
    ensures Join([a] + rest) == Join([a, JoinSep(rest)])
  {
    assert ([a] + rest)[1..] == rest;
    assert JoinSep([a, JoinSep(rest)]) == a + [Sep] + JoinSep([JoinSep(rest)]);
  }

  /// A single canonical component is its own cleaned form, also when
  /// joined after an empty element.
  lemma CleanComponent(x: string)
    requires CanonElem(x)
    ensures Clean(x) == x && Join(["", x]) == x
  {
    SplitNoSep(x);
    assert Normalize([], [x], false) == Normalize([] + [x], [x][1..], false);
    assert [] + [x] == [x] && [x][1..] == [];
    assert JoinSep([x]) == x;
    assert ["", x][1..] == [x];
  }
}
