/** The OpenSSH client config exporter, and reading its output back. */
module SshExport {
  import opened Options
  import opened Text
  import opened Decimals
  import opened SshConfig

  /** A saved connection; `keyName` is the resolved name of a vault key. */
  datatype Connection = Connection(
    name: string, host: string, port: int, username: string, keyAuth: bool, keyName: Option<string>,
    jumpHost: Option<string>, jumpPort: Option<int>, jumpUsername: Option<string>,
    proxyHost: Option<string>, proxyPort: Option<int>)

  // ---- Aliases --------------------------------------------------------------------------

  /** `s.replace(/\s+/g, '-')`. */
  function Dashed(s: string): (r: string)
    ensures forall c | c in r :: !IsSpace(c)
    decreases |s|
  {
    if s == "" then ""
    else if IsSpace(s[0]) then "-" + Dashed(s[IndexWhere(s, c => !IsSpace(c), 1)..])
    else [s[0]] + Dashed(s[1..])
  }

  function BaseAlias(c: Connection): string {
    var a := Dashed(Trim(c.name));
    if a == "" then c.host else a
  }

  function Suffixed(base: string, i: nat): string {
    base + "-" + Show(i)
  }

  lemma SuffixedInjective(base: string, i: nat, j: nat)
    ensures Suffixed(base, i) == Suffixed(base, j) ==> i == j
  {
    assert Suffixed(base, i)[|base| + 1..] == Show(i);
    assert Suffixed(base, j)[|base| + 1..] == Show(j);
    ShowInjective(i, j);
  }

  /** As many aliases are taken as suffixes have been tried in vain. */
  lemma {:induction false} TriedSuffixesFit(base: string, seen: set<string>, i: nat)
    requires i >= 2 && forall k | 2 <= k < i :: Suffixed(base, k) in seen
    ensures i - 2 <= |seen|
  {
    if i > 2 {
      var last := Suffixed(base, i - 1);
      forall k | 2 <= k < i - 1
        ensures Suffixed(base, k) in seen - {last}
      {
        SuffixedInjective(base, k, i - 1);
      }
      TriedSuffixesFit(base, seen - {last}, i - 1);
    }
  }

  /** The least free suffix from `i` on; the search ends because suffixes outnumber aliases. */
  function FreeSuffix(base: string, seen: set<string>, i: nat): (r: nat)
    requires i >= 2 && forall k | 2 <= k < i :: Suffixed(base, k) in seen
    ensures r >= i && Suffixed(base, r) !in seen && forall k | 2 <= k < r :: Suffixed(base, k) in seen
    decreases |seen| + 2 - i
  {
    TriedSuffixesFit(base, seen, i);
    if Suffixed(base, i) !in seen then i
    else
      TriedSuffixesFit(base, seen, i + 1);
      FreeSuffix(base, seen, i + 1)
  }

  function FreshAlias(base: string, seen: set<string>): (r: string)
    ensures r !in seen
    ensures base !in seen ==> r == base
  {
    if base in seen then Suffixed(base, FreeSuffix(base, seen, 2)) else base
  }

  /** The aliases of the connections in order, given those already used. */
  function Aliases(conns: seq<Connection>, seen: set<string>): (r: seq<string>)
    ensures |r| == |conns|
    decreases |conns|
  {
    if conns == [] then []
    else
      var a := FreshAlias(BaseAlias(conns[0]), seen);
      [a] + Aliases(conns[1..], seen + {a})
  }

  /** No alias is given twice. */
  lemma {:induction false} AliasesAreDistinct(conns: seq<Connection>, seen: set<string>)
    ensures forall a | a in Aliases(conns, seen) :: a !in seen
    ensures forall i, j | 0 <= i < j < |conns| :: Aliases(conns, seen)[i] != Aliases(conns, seen)[j]
    decreases |conns|
  {
    hide FreshAlias, BaseAlias;
    if conns != [] {
      var a := FreshAlias(BaseAlias(conns[0]), seen);
      var rest := Aliases(conns[1..], seen + {a});
      AliasesAreDistinct(conns[1..], seen + {a});
      assert Aliases(conns, seen) == [a] + rest;
      forall i, j | 0 <= i < j < |conns|
        ensures ([a] + rest)[i] != ([a] + rest)[j]
      {
        assert rest[j - 1] in rest;
      }
    }
  }

  /** A connection keeps its own name unless that was given away before it. */
  lemma {:induction false} FirstUserKeepsTheName(conns: seq<Connection>, seen: set<string>, i: nat)
    requires i < |conns| && BaseAlias(conns[i]) !in seen && BaseAlias(conns[i]) !in Aliases(conns, seen)[..i]
    ensures Aliases(conns, seen)[i] == BaseAlias(conns[i])
    decreases |conns|
  {
    hide FreshAlias, BaseAlias;
    var a := FreshAlias(BaseAlias(conns[0]), seen);
    var rest := Aliases(conns[1..], seen + {a});
    var r := Aliases(conns, seen);
    assert r == [a] + rest;
    if i > 0 {
      assert r[..i] == [a] + rest[..i - 1];
      assert conns[i] == conns[1..][i - 1];
      assert r[..i][0] == a;
      FirstUserKeepsTheName(conns[1..], seen + {a}, i - 1);
    }
  }

  // ---- The printed lines --------------------------------------------------------------------

  const NOTICE_1 := " SSH connections exported from TermiPod."
  const NOTICE_2 := " Passwords and private keys stay " + ("in the TermiPod vault (OS keychain) " + "and are")
  const NOTICE_3 := " NOT included — link an " + ("IdentityFile yourself where one is needed." + "")

  const HEADER := ["#" + NOTICE_1, "#" + NOTICE_2, "#" + NOTICE_3, ""]

  function NonEmpty(s: Option<string>): Option<string> {
    if s == Some("") then None else s
  }

  function Not22(port: Option<int>): Option<int> {
    if port == Some(22) then None else port
  }

  /** The jump a connection asks for: an empty host is no jump, and port 22 is the default. */
  function JumpOf(c: Connection): Option<Jump> {
    match NonEmpty(c.jumpHost)
    case Some(h) => Some(Jump(h, Not22(c.jumpPort), NonEmpty(c.jumpUsername)))
    case None => None
  }

  function UserLines(c: Connection): seq<string> {
    if c.username != "" then ["  " + ("User" + " " + c.username)] else []
  }

  function PortLines(c: Connection): seq<string> {
    if c.port != 22 then ["  " + ("Port" + " " + ShowInt(c.port))] else []
  }

  function JumpLines(c: Connection): seq<string> {
    match JumpOf(c)
    case Some(j) => ["  " + ("ProxyJump" + " " + JumpText(j))]
    case None => []
  }

  function KeyNote(c: Connection): string {
    " key auth via TermiPod vault" + (if c.keyName.Some? then ": " + c.keyName.value else "") + " — set IdentityFile manually"
  }

  function ProxyNote(host: string, port: int): string {
    " SOCKS5 proxy " + (host + (":" + ShowInt(port) + (" — no portable directive; " + "use ProxyCommand if needed")))
  }

  function NoteLines(c: Connection): seq<string> {
    (if c.keyAuth then ["  #" + KeyNote(c)] else []) +
    (match NonEmpty(c.proxyHost)
     case Some(h) => ["  #" + ProxyNote(h, c.proxyPort.GetOr(1080))]
     case None => [])
  }

  function Entry(c: Connection, alias: string): seq<string> {
    ["" + ("Host" + " " + alias), "  " + ("HostName" + " " + c.host)] +
    (UserLines(c) + (PortLines(c) + (JumpLines(c) + (NoteLines(c) + [""]))))
  }

  function Entries(conns: seq<Connection>, aliases: seq<string>): seq<string>
    requires |conns| == |aliases|
    decreases |conns|
  {
    if conns == [] then [] else Entry(conns[0], aliases[0]) + Entries(conns[1..], aliases[1..])
  }

  function Exported(conns: seq<Connection>): string {
    Join(HEADER + Entries(conns, Aliases(conns, {})))
  }

  lemma {:induction false} EntriesSnoc(conns: seq<Connection>, aliases: seq<string>, c: Connection, a: string)
    requires |conns| == |aliases|
    ensures Entries(conns + [c], aliases + [a]) == Entries(conns, aliases) + Entry(c, a)
    decreases |conns|
  {
    hide Entry;
    if conns == [] {
      assert conns + [c] == [c] && aliases + [a] == [a];
    } else {
      assert (conns + [c])[1..] == conns[1..] + [c] && (aliases + [a])[1..] == aliases[1..] + [a];
      EntriesSnoc(conns[1..], aliases[1..], c, a);
      Assoc(Entry(conns[0], aliases[0]), Entries(conns[1..], aliases[1..]), Entry(c, a));
    }
  }

  /** The alias of one connection: the search for a free suffix. */
  method PickAlias(c: Connection, seen: set<string>) returns (alias: string)
    ensures alias == FreshAlias(BaseAlias(c), seen)
  {
    hide Dashed, Trim;
    alias := Dashed(Trim(c.name));
    if alias == "" { alias := c.host; }
    if alias in seen {
      var i := 2;
      while Suffixed(alias, i) in seen
        invariant i >= 2 && i - 2 <= |seen|
        invariant forall k | 2 <= k < i :: Suffixed(alias, k) in seen
        decreases |seen| + 2 - i
      {
        i := i + 1;
        TriedSuffixesFit(alias, seen, i);
      }
      alias := Suffixed(alias, i);
    }
  }

  method ExportSshConfig(conns: seq<Connection>) returns (text: string)
    ensures text == Exported(conns)
  {
    hide FreshAlias, BaseAlias, Entry, Join;
    var lines := HEADER;
    var seen: set<string> := {};
    ghost var given: seq<string> := [];
    for n := 0 to |conns|
      invariant |given| == n
      invariant Aliases(conns, {}) == given + Aliases(conns[n..], seen)
      invariant lines == HEADER + Entries(conns[..n], given)
    {
      var c := conns[n];
      var alias := PickAlias(c, seen);
      assert conns[n..][0] == c && conns[n..][1..] == conns[n + 1..];
      Assoc(given, [alias], Aliases(conns[n + 1..], seen + {alias}));
      seen := seen + {alias};
      EntriesSnoc(conns[..n], given, c, alias);
      assert conns[..n + 1] == conns[..n] + [c];
      Assoc(HEADER, Entries(conns[..n], given), Entry(c, alias));
      given := given + [alias];
      lines := lines + Entry(c, alias);
    }
    assert conns[..|conns|] == conns && given + Aliases(conns[|conns|..], seen) == given;
    text := Join(lines);
  }

  // ---- Reading it back ----------------------------------------------------------------------

  predicate WellFormed(c: Connection, other: Otherwise) {
    && ValueOk(BaseAlias(c)) && Plain(BaseAlias(c))
    && ValueOk(c.host) && (c.username == "" || ValueOk(c.username)) && c.port > 0
    && (JumpOf(c).Some? ==>
          var j := JumpOf(c).value;
          JumpFields(j) && ValueOk(JumpText(j)) && JumpReadable(j, other))
    && (c.keyName.Some? ==> '\n' !in c.keyName.value)
    && (c.proxyHost.Some? ==> '\n' !in c.proxyHost.value)
  }

  /** A single pattern without wildcards, and not one that a separator could swallow. */
  predicate Plain(alias: string) {
    Concrete(alias) && (alias != "" ==> alias[0] != '=') && forall i | 0 <= i < |alias| :: !IsSpace(alias[i])
  }

  /** What the parser should make of an exported connection. */
  function Expected(c: Connection, alias: string): Host {
    Host(alias, c.host, c.username, c.port, None, JumpOf(c))
  }

  function ExpectedAll(conns: seq<Connection>, aliases: seq<string>): (r: seq<Host>)
    requires |conns| == |aliases|
    ensures |r| == |conns|
    ensures forall i | 0 <= i < |r| :: r[i] == Expected(conns[i], aliases[i])
  {
    seq(|conns|, i requires 0 <= i < |conns| => Expected(conns[i], aliases[i]))
  }

  lemma NumeralIsFine(n: nat)
    ensures ValueOk(Show(n)) && Plain(Show(n))
  {
    var d := Show(n);
    assert forall i | 0 <= i < |d| :: '0' <= d[i] <= '9';
    hide Show;
    forall i | 0 <= i < |d|
      ensures !IsSpace(d[i]) && !IsLineTerminator(d[i]) && d[i] != '*' && d[i] != '?'
    {
      assert '0' <= d[i] <= '9';
    }
  }

  lemma PlainPlus(a: string, b: string)
    requires ValueOk(a) && Plain(a) && ValueOk(b) && Plain(b)
    ensures ValueOk(a + ("-" + b)) && Plain(a + ("-" + b))
  {
    var s := a + ("-" + b);
    assert s[0] == a[0] && s[|s| - 1] == b[|b| - 1];
    assert !IsSpace('-') && !IsLineTerminator('-');
    hide IsSpace, IsLineTerminator, IsQuote;
    forall k | 0 <= k < |s|
      ensures !IsSpace(s[k]) && !IsLineTerminator(s[k])
    {
      if k < |a| { assert s[k] == a[k]; } else if k > |a| { assert s[k] == b[k - |a| - 1]; }
    }
  }

  lemma SuffixedIsFine(base: string, i: nat)
    requires ValueOk(base) && Plain(base)
    ensures ValueOk(Suffixed(base, i)) && Plain(Suffixed(base, i))
  {
    hide ValueOk, Plain, Show;
    NumeralIsFine(i);
    PlainPlus(base, Show(i));
    assert Suffixed(base, i) == base + ("-" + Show(i));
  }

  lemma {:induction false} AliasesAreFine(conns: seq<Connection>, seen: set<string>, other: Otherwise)
    requires forall c | c in conns :: WellFormed(c, other)
    ensures forall a | a in Aliases(conns, seen) :: ValueOk(a) && Plain(a)
    decreases |conns|
  {
    if conns != [] {
      var base := BaseAlias(conns[0]);
      var a := FreshAlias(base, seen);
      assert WellFormed(conns[0], other);
      if base in seen { SuffixedIsFine(base, FreeSuffix(base, seen, 2)); }
      AliasesAreFine(conns[1..], seen + {a}, other);
    }
  }

  /** A directive line acts on the parser as its keyword and value say. */
  lemma DirectiveStep(p: Parser, indent: string, key: string, v: string, other: Otherwise)
    requires KeyOk(key) && ValueOk(v) && indent in {"", "  "}
    ensures ParseStep(p, indent + (key + " " + v), other) == Apply(p, Lower(key), v, other)
  {
    hide Apply, ParseLine, Lower, IsLineTerminator;
    assert forall i | 0 <= i < |indent| :: IsSpace(indent[i]);
    DirectiveReadsBackExactly(indent, key, v);
  }

  /** A line that starts with a hash sign, indented or not, says nothing. */
  lemma CommentIsNothing(indent: string, note: string)
    requires indent in {"", "  "}
    ensures ParseLine(indent + ("#" + note)) == None
  {
    var s := "#" + note;
    assert s[0] == '#' && !IsSpace('#') && IsSpace(' ');
    TrimStartIndent(indent, s);
    TrimEndKeepsHead(s);
    hide TrimStart, TrimEnd, MatchFrom;
  }

  lemma CommentStep(p: Parser, note: string, other: Otherwise)
    ensures ParseStep(p, "  #" + note, other) == p
  {
    hide ParseLine, Apply;
    CommentIsNothing("  ", note);
    assert "  #" + note == "  " + ("#" + note);
  }

  lemma {:induction false} TrimEndKeepsHead(s: string)
    requires s != "" && !IsSpace(s[0])
    ensures TrimEnd(s) != "" && TrimEnd(s)[0] == s[0]
  {
    if IsSpace(s[|s| - 1]) { TrimEndKeepsHead(s[..|s| - 1]); }
  }

  lemma OneStep(p: Parser, line: string, other: Otherwise)
    ensures ParseLines(p, [line], other) == ParseStep(p, line, other)
  {
    hide ParseStep, Fold;
    FoldOne(Stepper(other), p, line);
  }

  lemma HostLines(p: Parser, c: Connection, alias: string, other: Otherwise)
    requires ValueOk(alias) && Plain(alias) && ValueOk(c.host)
    ensures ParseLines(p, ["" + ("Host" + " " + alias), "  " + ("HostName" + " " + c.host)], other)
         == Parser(Flush(p), Some(Host(alias, c.host, "", 22, None, None)))
  {
    hide ParseStep, Fold, Flush;
    var first, second := "" + ("Host" + " " + alias), "  " + ("HostName" + " " + c.host);
    assert Lower("Host") == "host" && Lower("HostName") == "hostname";
    DirectiveStep(p, "", "Host", alias, other);
    assert Words(alias) == [alias];
    assert FirstConcrete([alias]) == Some(alias);
    var q := Parser(Flush(p), Some(Host(alias, alias, "", 22, None, None)));
    DirectiveStep(q, "  ", "HostName", c.host, other);
    OneStep(p, first, other);
    OneStep(q, second, other);
    assert [first] + [second] == [first, second];
    FoldAppend(Stepper(other), p, [first], [second]);
  }

  lemma UserLinesRead(done: seq<Host>, h: Host, c: Connection, other: Otherwise)
    requires h.user == "" && (c.username == "" || ValueOk(c.username))
    ensures ParseLines(Parser(done, Some(h)), UserLines(c), other) == Parser(done, Some(h.(user := c.username)))
  {
    hide ParseStep;
    if c.username != "" {
      DirectiveStep(Parser(done, Some(h)), "  ", "User", c.username, other);
      assert Lower("User") == "user";
      OneStep(Parser(done, Some(h)), "  " + ("User" + " " + c.username), other);
    }
  }

  lemma PortLinesRead(done: seq<Host>, h: Host, c: Connection, other: Otherwise)
    requires h.port == 22 && c.port > 0
    ensures ParseLines(Parser(done, Some(h)), PortLines(c), other) == Parser(done, Some(h.(port := c.port)))
  {
    hide ParseStep;
    if c.port != 22 {
      NumeralIsFine(c.port);
      DirectiveStep(Parser(done, Some(h)), "  ", "Port", Show(c.port), other);
      assert Lower("Port") == "port";
      ReadBack(c.port);
      OneStep(Parser(done, Some(h)), "  " + ("Port" + " " + ShowInt(c.port)), other);
    }
  }

  lemma JumpLinesRead(done: seq<Host>, h: Host, c: Connection, other: Otherwise)
    requires h.jump == None
    requires JumpOf(c).Some? ==> var j := JumpOf(c).value; JumpFields(j) && ValueOk(JumpText(j)) && JumpReadable(j, other)
    ensures ParseLines(Parser(done, Some(h)), JumpLines(c), other) == Parser(done, Some(h.(jump := JumpOf(c))))
  {
    hide ParseStep, JumpText, ParseProxyJump, JumpReadable;
    if JumpOf(c).Some? {
      var j := JumpOf(c).value;
      DirectiveStep(Parser(done, Some(h)), "  ", "ProxyJump", JumpText(j), other);
      assert Lower("ProxyJump") == "proxyjump";
      JumpRoundTripExactly(j, other);
      OneStep(Parser(done, Some(h)), "  " + ("ProxyJump" + " " + JumpText(j)), other);
    }
  }

  lemma NoteLinesRead(p: Parser, c: Connection, other: Otherwise)
    ensures ParseLines(p, NoteLines(c) + [""], other) == p
  {
    BlankStep(p, other);
    hide ParseStep;
    CommentStep(p, KeyNote(c), other);
    var key := if c.keyAuth then ["  #" + KeyNote(c)] else [];
    var proxy := match NonEmpty(c.proxyHost)
      case Some(h) => ["  #" + ProxyNote(h, c.proxyPort.GetOr(1080))]
      case None => [];
    if NonEmpty(c.proxyHost).Some? { CommentStep(p, ProxyNote(NonEmpty(c.proxyHost).value, c.proxyPort.GetOr(1080)), other); }
    if c.keyAuth { OneStep(p, "  #" + KeyNote(c), other); }
    if NonEmpty(c.proxyHost).Some? { OneStep(p, "  #" + ProxyNote(NonEmpty(c.proxyHost).value, c.proxyPort.GetOr(1080)), other); }
    hide KeyNote, ProxyNote;
    assert Fold(Stepper(other), p, key) == p;
    assert Fold(Stepper(other), p, proxy) == p;
    FoldAppend(Stepper(other), p, key, proxy);
    FoldAppend(Stepper(other), p, key + proxy, [""]);
    OneStep(p, "", other);
  }

  lemma BlankStep(p: Parser, other: Otherwise)
    ensures ParseStep(p, "", other) == p
  {
    assert Trim("") == "";
  }

  /** One entry closes the host before it and opens the one it was printed from. */
  lemma EntryReads(p: Parser, c: Connection, alias: string, other: Otherwise)
    requires WellFormed(c, other) && ValueOk(alias) && Plain(alias)
    ensures ParseLines(p, Entry(c, alias), other) == Parser(Flush(p), Some(Expected(c, alias)))
  {
    var top := ["" + ("Host" + " " + alias), "  " + ("HostName" + " " + c.host)];
    var done := Flush(p);
    var h0 := Host(alias, c.host, "", 22, None, None);
    var h1 := h0.(user := c.username);
    var h2 := h1.(port := c.port);
    var h3 := h2.(jump := JumpOf(c));
    HostLines(p, c, alias, other);
    UserLinesRead(done, h0, c, other);
    PortLinesRead(done, h1, c, other);
    JumpLinesRead(done, h2, c, other);
    NoteLinesRead(Parser(done, Some(h3)), c, other);
    hide Fold, Flush, UserLines, PortLines, JumpLines, NoteLines, WellFormed, ValueOk, Plain, JumpOf;
    FoldAppend(Stepper(other), p, top, UserLines(c) + (PortLines(c) + (JumpLines(c) + (NoteLines(c) + [""]))));
    FoldAppend(Stepper(other), Parser(done, Some(h0)), UserLines(c), PortLines(c) + (JumpLines(c) + (NoteLines(c) + [""])));
    FoldAppend(Stepper(other), Parser(done, Some(h1)), PortLines(c), JumpLines(c) + (NoteLines(c) + [""]));
    FoldAppend(Stepper(other), Parser(done, Some(h2)), JumpLines(c), NoteLines(c) + [""]);
  }

  lemma {:induction false} EntriesRead(p: Parser, conns: seq<Connection>, aliases: seq<string>, other: Otherwise)
    requires |conns| == |aliases|
    requires forall c | c in conns :: WellFormed(c, other)
    requires forall a | a in aliases :: ValueOk(a) && Plain(a)
    ensures Flush(ParseLines(p, Entries(conns, aliases), other)) == Flush(p) + ExpectedAll(conns, aliases)
    decreases |conns|
  {
    hide Entry, WellFormed, ValueOk, Plain;
    if conns == [] {
      assert ExpectedAll(conns, aliases) == [];
    } else {
      var c, a := conns[0], aliases[0];
      assert c in conns && a in aliases;
      EntryReads(p, c, a, other);
      var q := Parser(Flush(p), Some(Expected(c, a)));
      EntriesRead(q, conns[1..], aliases[1..], other);
      FoldAppend(Stepper(other), p, Entry(c, a), Entries(conns[1..], aliases[1..]));
      assert a != "" by { AliasNonEmpty(a); }
      assert Flush(q) == Flush(p) + [Expected(c, a)];
      assert ExpectedAll(conns, aliases) == [Expected(c, a)] + ExpectedAll(conns[1..], aliases[1..]);
      Assoc(Flush(p), [Expected(c, a)], ExpectedAll(conns[1..], aliases[1..]));
    }
  }

  lemma AliasNonEmpty(a: string)
    requires ValueOk(a)
    ensures a != ""
  {
  }

  lemma NoNewlineIn(v: string)
    requires ValueOk(v)
    ensures '\n' !in v
  {
    assert OnOneLine(v);
    assert IsLineTerminator('\n');
  }

  lemma NumeralHasNoNewline(n: int)
    ensures '\n' !in ShowInt(n)
  {
    var d := Show(if n < 0 then -n else n);
    assert forall i | 0 <= i < |d| :: '0' <= d[i] <= '9';
  }

  lemma NoNewlineInParts(a: string, b: string, c: string)
    requires '\n' !in a && '\n' !in b && '\n' !in c
    ensures '\n' !in a + (b + c)
  {
  }

  lemma DirectiveHasNoNewline(indent: string, key: string, v: string)
    requires indent in {"", "  "} && key in {"Host", "HostName", "User", "Port", "ProxyJump"} && '\n' !in v
    ensures NoNewlines([indent + (key + " " + v)])
  {
    NoNewlineInParts(key, " ", v);
    assert key + (" " + v) == key + " " + v;
    NoNewlineInParts(indent, key + " " + v, "");
    assert indent + (key + " " + v + "") == indent + (key + " " + v);
  }

  lemma KeyNoteHasNoNewline(c: Connection)
    requires c.keyName.Some? ==> '\n' !in c.keyName.value
    ensures '\n' !in KeyNote(c)
  {
  }

  lemma ProxyNoteHasNoNewline(host: string, port: int)
    requires '\n' !in host
    ensures '\n' !in ProxyNote(host, port)
  {
    NumeralHasNoNewline(port);
    hide ShowInt;
    NoNewlineInParts(" — no portable directive; ", "use ProxyCommand if needed", "");
    assert " — no portable directive; " + ("use ProxyCommand if needed" + "") == " — no portable directive; " + "use ProxyCommand if needed";
    var tail := " — no portable directive; " + "use ProxyCommand if needed";
    NoNewlineInParts(":", ShowInt(port), tail);
    assert ":" + (ShowInt(port) + tail) == ":" + ShowInt(port) + tail;
    NoNewlineInParts(" SOCKS5 proxy ", host, ":" + ShowInt(port) + tail);
  }

  lemma NotesHaveNoNewlines(c: Connection)
    requires c.keyName.Some? ==> '\n' !in c.keyName.value
    requires c.proxyHost.Some? ==> '\n' !in c.proxyHost.value
    ensures NoNewlines(NoteLines(c))
  {
    KeyNoteHasNoNewline(c);
    if c.proxyHost.Some? { ProxyNoteHasNoNewline(c.proxyHost.value, c.proxyPort.GetOr(1080)); }
    hide KeyNote, ProxyNote;
    assert '\n' !in "  #" + KeyNote(c);
  }

  lemma EntryHasNoNewlines(c: Connection, alias: string, other: Otherwise)
    requires WellFormed(c, other) && ValueOk(alias)
    ensures NoNewlines(Entry(c, alias))
  {
    NoNewlineIn(alias);
    NoNewlineIn(c.host);
    if c.username != "" { NoNewlineIn(c.username); DirectiveHasNoNewline("  ", "User", c.username); }
    if JumpOf(c).Some? {
      NoNewlineIn(JumpText(JumpOf(c).value));
      DirectiveHasNoNewline("  ", "ProxyJump", JumpText(JumpOf(c).value));
    }
    NumeralHasNoNewline(c.port);
    DirectiveHasNoNewline("", "Host", alias);
    DirectiveHasNoNewline("  ", "HostName", c.host);
    DirectiveHasNoNewline("  ", "Port", ShowInt(c.port));
    NotesHaveNoNewlines(c);
    hide ValueOk, WellFormed, NoteLines, JumpText, ShowInt, JumpOf;
    assert NoNewlines([]);
    hide NoNewlines;
    assert NoNewlines(UserLines(c)) && NoNewlines(PortLines(c)) && NoNewlines(JumpLines(c));
    hide UserLines, PortLines, JumpLines;
    PartsHaveNoNewlines("" + ("Host" + " " + alias), "  " + ("HostName" + " " + c.host), UserLines(c), PortLines(c), JumpLines(c), NoteLines(c));
  }

  lemma PartsHaveNoNewlines(host: string, name: string, a: seq<string>, b: seq<string>, c: seq<string>, d: seq<string>)
    requires NoNewlines([host]) && NoNewlines([name]) && NoNewlines(a) && NoNewlines(b) && NoNewlines(c) && NoNewlines(d)
    ensures NoNewlines([host, name] + (a + (b + (c + (d + [""])))))
  {
    assert NoNewlines([""]);
    hide NoNewlines;
    BothHaveNoNewlines([host], [name]);
    assert [host] + [name] == [host, name];
    BothHaveNoNewlines(d, [""]);
    BothHaveNoNewlines(c, d + [""]);
    BothHaveNoNewlines(b, c + (d + [""]));
    BothHaveNoNewlines(a, b + (c + (d + [""])));
    BothHaveNoNewlines([host, name], a + (b + (c + (d + [""]))));
  }

  lemma {:induction false} EntriesHaveNoNewlines(conns: seq<Connection>, aliases: seq<string>, other: Otherwise)
    requires |conns| == |aliases|
    requires forall c | c in conns :: WellFormed(c, other)
    requires forall a | a in aliases :: ValueOk(a)
    ensures NoNewlines(Entries(conns, aliases))
    decreases |conns|
  {
    hide Entry, WellFormed, ValueOk;
    if conns != [] {
      assert conns[0] in conns && aliases[0] in aliases;
      EntryHasNoNewlines(conns[0], aliases[0], other);
      EntriesHaveNoNewlines(conns[1..], aliases[1..], other);
    }
  }

  lemma NoticeStep(p: Parser, note: string, other: Otherwise)
    ensures ParseStep(p, "#" + note, other) == p
  {
    hide ParseLine, Apply;
    CommentIsNothing("", note);
    assert "#" + note == "" + ("#" + note);
  }

  lemma HeaderIsSkipped(other: Otherwise)
    ensures ParseLines(Parser([], None), HEADER, other) == Parser([], None)
  {
    var p := Parser([], None);
    BlankStep(p, other);
    NoticeStep(p, NOTICE_1, other);
    NoticeStep(p, NOTICE_2, other);
    NoticeStep(p, NOTICE_3, other);
    hide ParseStep;
    SkipAll(p, HEADER, other);
  }

  lemma {:induction false} SkipAll(p: Parser, lines: seq<string>, other: Otherwise)
    requires forall l | l in lines :: ParseStep(p, l, other) == p
    ensures ParseLines(p, lines, other) == p
    decreases |lines|
  {
    hide ParseStep;
    if lines != [] { SkipAll(p, lines[1..], other); }
  }

  lemma FirstNotice()
    ensures '\n' !in NOTICE_1
  {
  }

  lemma SecondNotice()
    ensures '\n' !in NOTICE_2
  {
    NoNewlineInParts(" Passwords and private keys stay ", "in the TermiPod vault (OS keychain) ", "and are");
  }

  lemma ThirdNotice()
    ensures '\n' !in NOTICE_3
  {
    NoNewlineInParts(" NOT included — link an ", "IdentityFile yourself where one is needed.", "");
  }

  lemma CommentsHaveNoNewlines(a: string, b: string, c: string)
    requires '\n' !in a && '\n' !in b && '\n' !in c
    ensures NoNewlines(["#" + a, "#" + b, "#" + c, ""])
  {
  }

  lemma HeaderHasNoNewlines()
    ensures NoNewlines(HEADER)
  {
    hide NoNewlines;
    FirstNotice();
    SecondNotice();
    ThirdNotice();
    CommentsHaveNoNewlines(NOTICE_1, NOTICE_2, NOTICE_3);
  }

  lemma BothHaveNoNewlines(a: seq<string>, b: seq<string>)
    requires NoNewlines(a) && NoNewlines(b)
    ensures NoNewlines(a + b)
  {
  }

  /** Parsing an export gives every connection back, in order, under distinct aliases. */
  lemma ExportReadsBack(conns: seq<Connection>, other: Otherwise)
    requires forall c | c in conns :: WellFormed(c, other)
    ensures Parsed(Exported(conns), other) == ExpectedAll(conns, Aliases(conns, {}))
    ensures forall i, j | 0 <= i < j < |conns| :: Aliases(conns, {})[i] != Aliases(conns, {})[j]
  {
    hide Fold, WellFormed, ValueOk, Plain, Aliases, Entries, ExpectedAll, Join, Lines, ParseStep;
    var aliases := Aliases(conns, {});
    var start := Parser([], None);
    AliasesAreFine(conns, {}, other);
    AliasesAreDistinct(conns, {});
    EntriesHaveNoNewlines(conns, aliases, other);
    HeaderHasNoNewlines();
    hide NoNewlines;
    BothHaveNoNewlines(HEADER, Entries(conns, aliases));
    LinesJoin(HEADER + Entries(conns, aliases));
    HeaderIsSkipped(other);
    FoldAppend(Stepper(other), start, HEADER, Entries(conns, aliases));
    EntriesRead(start, conns, aliases, other);
    assert Flush(start) + ExpectedAll(conns, aliases) == ExpectedAll(conns, aliases);
  }
}
