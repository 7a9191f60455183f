/// The pieces of Go's `strings` and `fmt` packages that build messages and
/// listings: `strings.Join` and the quoting of the `%q` verb.
module GoStrings {
  /// `strings.Join`.
  function JoinWith(parts: seq<string>, sep: string): string {
    if |parts| == 0 then ""
    else if |parts| == 1 then parts[0]
    else parts[0] + sep + JoinWith(parts[1..], sep)
  }

  /// The body of a `%q`-quoted string: a double quote and a backslash are
  /// preceded by a backslash.
  function Escape(s: string): (e: string)
    ensures |e| >= |s|
  {
    if |s| == 0 then ""
    else (if s[0] == '"' || s[0] == '\\' then ['\\', s[0]] else [s[0]]) + Escape(s[1..])
  }

  /// `%q`: the escaped string between double quotes.
  function Quote(s: string): (q: string)
    ensures |q| >= 2 && q[0] == '"' && q[|q| - 1] == '"'
  {
    "\"" + Escape(s) + "\""
  }

  /// Reading an escaped body back: a backslash takes the next character
  /// literally.
  function Unescape(e: string): string {
    if |e| == 0 then ""
    else if e[0] == '\\' && |e| >= 2 then [e[1]] + Unescape(e[2..])
    else [e[0]] + Unescape(e[1..])
  }

  /// Escaping loses nothing: the body reads back as the original string,
  /// and it holds no bare double quote.
  lemma {:induction false} EscapeRoundTrip(s: string)
    ensures Unescape(Escape(s)) == s
    ensures forall i :: 0 <= i < |Escape(s)| && Escape(s)[i] == '"' ==> i > 0 && Escape(s)[i - 1] == '\\'
  {
    if |s| > 0 {
      EscapeRoundTrip(s[1..]);
      var head := if s[0] == '"' || s[0] == '\\' then ['\\', s[0]] else [s[0]];
      var e := head + Escape(s[1..]);
      assert e[|head|..] == Escape(s[1..]);
      assert [s[0]] + s[1..] == s;
      forall i | 0 <= i < |e| && e[i] == '"'
        ensures i > 0 && e[i - 1] == '\\'
      {
        if i >= |head| {
          assert Escape(s[1..])[i - |head|] == '"';
          if i - |head| == 0 {
            assert false;
          }
        }
      }
    }
  }

  /// A quoted string reads back as the original.
  lemma QuoteRoundTrip(s: string)
    ensures var q := Quote(s); Unescape(q[1..|q| - 1]) == s
  {
    var q := Quote(s);
    assert q[1..|q| - 1] == Escape(s);
    EscapeRoundTrip(s);
  }
}
