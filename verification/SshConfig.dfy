/** OpenSSH client config text: the parser of the import flow and the exporter. */
module SshConfig {
  import opened Options
  import opened Text
  import opened Decimals

  /** What `Number` makes of text that is not plain digits. */
  type Otherwise = string -> Option<int>

  datatype Jump = Jump(host: string, port: Option<int>, user: Option<string>)

  datatype Host = Host(name: string, host: string, user: string, port: int, identityFile: Option<string>, jump: Option<Jump>)

  // ---- One ProxyJump value ----------------------------------------------------------

  function LastIndex(s: string, c: char): (r: int)
    ensures -1 <= r < |s|
    ensures r >= 0 ==> s[r] == c
    ensures forall j | r < j < |s| :: s[j] != c
  {
    if s == "" then -1 else if s[|s| - 1] == c then |s| - 1 else LastIndex(s[..|s| - 1], c)
  }

  function FirstIndex(s: string, c: char): (r: int)
    ensures -1 <= r < |s|
    ensures r >= 0 ==> s[r] == c && forall j | 0 <= j < r :: s[j] != c
    ensures r < 0 ==> c !in s
  {
    var i := IndexWhere(s, x => x == c, 0);
    if i == |s| then
      assert forall x | x in s :: exists j | 0 <= j < |s| :: s[j] == x;
      -1
    else i
  }

  /** `[host]` or `[host]:port`, where the host has no closing bracket. */
  function Bracketed(rest: string): Option<(string, string)> {
    var close := FirstIndex(rest, ']');
    if rest == "" || rest[0] != '[' || close < 2 then None
    else
      var after := rest[close + 1..];
      if after == "" then Some((rest[1..close], ""))
      else if after[0] == ':' && IsDigits(after[1..]) then Some((rest[1..close], after[1..]))
      else None
  }

  /** The number after a lone colon that is not the first character, when it is a port. */
  function LonePort(rest: string, other: Otherwise): Option<int> {
    var colon := LastIndex(rest, ':');
    if colon > 0 && FirstIndex(rest, ':') == colon then
      match Number(rest[colon + 1..], other)
      case Some(p) => if p > 0 then Some(p) else None
      case None => None
    else None
  }

  function HostPort(rest: string, other: Otherwise): (string, Option<int>) {
    match Bracketed(rest)
    case Some((host, port)) => (host, if port == "" then None else Number(port, other))
    case None =>
      match LonePort(rest, other)
      case Some(p) => (rest[..LastIndex(rest, ':')], Some(p))
      case None => (rest, None)
  }

  /** The parser after its first checks. */
  function ParseParts(v: string, other: Otherwise): Option<Jump> {
    var at := LastIndex(v, '@');
    var user := if at > 0 then Some(v[..at]) else None;
    var (host, port) := HostPort(if at > 0 then v[at + 1..] else v, other);
    if host == "" then None else Some(Jump(host, port, user))
  }

  function ParseProxyJump(val: string, other: Otherwise): Option<Jump> {
    var v := Trim(val);
    if v == "" || Lower(v) == "none" || ',' in v then None else ParseParts(v, other)
  }

  function JumpText(j: Jump): string {
    (if j.user.Some? then j.user.value + "@" else "") + j.host + if j.port.Some? then ":" + ShowInt(j.port.value) else ""
  }

  function HostPortText(j: Jump): string {
    j.host + if j.port.Some? then ":" + ShowInt(j.port.value) else ""
  }

  /** What a jump must satisfy to be read back from what is exported: in particular a host
      with a colon cannot carry a port, since the exporter adds no brackets. */
  predicate JumpReadable(j: Jump, other: Otherwise)
    requires JumpFields(j)
  {
    var text, rest := JumpText(j), HostPortText(j);
    && ',' !in text && Lower(text) != "none"
    && '@' !in (if j.user.Some? then rest else rest[1..])
    && Bracketed(rest).None?
    && (if j.port.Some? then ':' !in j.host else LonePort(j.host, other).None?)
  }

  predicate JumpFields(j: Jump) {
    j.host != "" && j.user != Some("") && (j.port.Some? ==> j.port.value > 0)
  }

  lemma LastIndexAt(a: string, c: char, b: string)
    requires c !in b
    ensures LastIndex(a + [c] + b, c) == |a|
    decreases |b|
  {
    var s := a + [c] + b;
    if b == "" {
      assert s[|s| - 1] == c;
    } else {
      var init := b[..|b| - 1];
      assert b[|b| - 1] in b && s[|s| - 1] == b[|b| - 1];
      assert s[..|s| - 1] == a + [c] + init;
      LastIndexAt(a, c, init);
    }
  }

  lemma FirstIndexAt(a: string, c: char, b: string)
    requires c !in a
    ensures FirstIndex(a + [c] + b, c) == |a|
  {
    var s := a + [c] + b;
    assert s[|a|] == c;
    assert c in s;
    forall j | 0 <= j < |a|
      ensures s[j] != c
    {
      assert s[j] == a[j] && a[j] in a;
    }
  }

  lemma DigitsHaveNoColon(d: string)
    requires AllDigits(d)
    ensures ':' !in d
  {
  }

  /** A number after the only colon is found; with a colon before it, it is not. */
  lemma LonePortBack(host: string, n: nat, other: Otherwise)
    requires host != "" && n > 0
    ensures var rest := host + [':'] + Show(n);
            && LastIndex(rest, ':') == |host| && rest[..|host|] == host
            && LonePort(rest, other) == if ':' in host then None else Some(n)
  {
    var d := Show(n);
    var rest := host + [':'] + d;
    ReadBack(n);
    DigitsHaveNoColon(d);
    LastIndexAt(host, ':', d);
    assert rest[|host| + 1..] == d;
    hide LastIndex, Show, Value;
    if ':' in host {
      var k :| 0 <= k < |host| && host[k] == ':';
      assert rest[k] == ':';
      assert FirstIndex(rest, ':') <= k;
    } else {
      FirstIndexAt(host, ':', d);
    }
  }

  lemma PortTextOf(j: Jump)
    requires JumpFields(j) && j.port.Some?
    ensures HostPortText(j) == j.host + [':'] + Show(j.port.value)
  {
    hide Show;
  }

  lemma UnbracketedParts(rest: string, other: Otherwise)
    requires Bracketed(rest).None?
    ensures LonePort(rest, other).None? ==> HostPort(rest, other) == (rest, None)
    ensures LonePort(rest, other).Some? ==> HostPort(rest, other) == (rest[..LastIndex(rest, ':')], LonePort(rest, other))
  {
    hide Bracketed, LastIndex, FirstIndex;
  }

  /** Host and port read back when the host has no colon, or there is no port to find. */
  lemma HostPortBack(j: Jump, other: Otherwise)
    requires JumpFields(j) && Bracketed(HostPortText(j)).None?
    ensures HostPort(HostPortText(j), other) == (j.host, j.port) <==>
            if j.port.Some? then ':' !in j.host else LonePort(j.host, other).None?
  {
    var rest := HostPortText(j);
    UnbracketedParts(rest, other);
    hide HostPort, LonePort, LastIndex, Bracketed, Show;
    if j.port.None? {
      assert rest == j.host;
    } else {
      PortTextOf(j);
      LonePortBack(j.host, j.port.value, other);
      hide HostPortText;
    }
  }

  /** A bracketed text never reads back as itself: the brackets are taken off. */
  lemma BracketsAreLost(j: Jump, other: Otherwise)
    requires JumpFields(j) && Bracketed(HostPortText(j)).Some?
    ensures HostPort(HostPortText(j), other) != (j.host, j.port)
  {
    var rest := HostPortText(j);
    var (inner, digits) := Bracketed(rest).value;
    var close := FirstIndex(rest, ']');
    assert |inner| == close - 1;
    assert |rest| >= |inner| + 2 + |digits|;
    assert digits != "" ==> |rest| == |inner| + 3 + |digits|;
    assert j.port.Some? ==> |rest| == |j.host| + 1 + |Show(j.port.value)|;
    if digits != "" {
      ShowIsShortest(digits);
    }
  }

  /** Where the parser splits an exported jump at its last `@`. */
  lemma SplitAtUser(u: string, rest: string)
    requires u != ""
    ensures var text := u + ['@'] + rest;
            var at := LastIndex(text, '@');
            && ('@' !in rest ==> at == |u| && text[..at] == u && text[at + 1..] == rest)
            && ('@' in rest ==> at > |u|)
  {
    hide LastIndex;
    var text := u + ['@'] + rest;
    if '@' !in rest {
      LastIndexAt(u, '@', rest);
    } else {
      var k :| 0 <= k < |rest| && rest[k] == '@';
      assert text[|u| + 1 + k] == '@';
    }
  }

  lemma NoUserToSplit(text: string)
    requires text != ""
    ensures LastIndex(text, '@') <= 0 <==> '@' !in text[1..]
  {
    hide LastIndex;
    var at := LastIndex(text, '@');
    if '@' in text[1..] {
      var k :| 0 <= k < |text[1..]| && text[1..][k] == '@';
      assert text[k + 1] == '@';
    }
    assert at > 0 ==> text[1..][at - 1] == text[at];
  }

  lemma PartsWithUser(u: string, rest: string, j: Jump, other: Otherwise)
    requires j.host != "" && j.user == Some(u) && u != ""
    ensures ParseParts(u + ['@'] + rest, other) == Some(j) <==> '@' !in rest && HostPort(rest, other) == (j.host, j.port)
  {
    hide HostPort, LastIndex;
    var text := u + ['@'] + rest;
    SplitAtUser(u, rest);
    var at := LastIndex(text, '@');
    if '@' in rest {
      assert |text[..at]| != |u|;
    }
  }

  lemma PartsWithoutUser(rest: string, j: Jump, other: Otherwise)
    requires j.host != "" && j.user == None && rest != ""
    ensures ParseParts(rest, other) == Some(j) <==> '@' !in rest[1..] && HostPort(rest, other) == (j.host, j.port)
  {
    hide HostPort, LastIndex;
    NoUserToSplit(rest);
  }

  lemma PartsRoundTrip(j: Jump, other: Otherwise)
    requires JumpFields(j)
    ensures ParseParts(JumpText(j), other) == Some(j) <==>
            '@' !in (if j.user.Some? then HostPortText(j) else HostPortText(j)[1..]) && HostPort(HostPortText(j), other) == (j.host, j.port)
  {
    var text, rest := JumpText(j), HostPortText(j);
    if j.user.Some? {
      assert text == j.user.value + ['@'] + rest;
      PartsWithUser(j.user.value, rest, j, other);
    } else {
      assert text == rest;
      PartsWithoutUser(rest, j, other);
    }
  }

  /** After the first checks, the exported parts read back exactly when the rest is readable. */
  lemma HostPortExactly(j: Jump, other: Otherwise)
    requires JumpFields(j)
    ensures HostPort(HostPortText(j), other) == (j.host, j.port) <==>
            Bracketed(HostPortText(j)).None? && if j.port.Some? then ':' !in j.host else LonePort(j.host, other).None?
  {
    hide HostPort, LonePort, HostPortText;
    if Bracketed(HostPortText(j)).Some? {
      BracketsAreLost(j, other);
    } else {
      HostPortBack(j, other);
    }
  }

  lemma ParsedParts(t: string, other: Otherwise)
    requires t != "" && Trimmed(t)
    ensures ParseProxyJump(t, other) == if Lower(t) == "none" || ',' in t then None else ParseParts(t, other)
  {
    TrimKeeps(t);
    hide ParseParts, Lower, Trim;
  }

  lemma JumpTextIsSome(j: Jump)
    requires JumpFields(j)
    ensures JumpText(j) != "" && HostPortText(j) != ""
  {
    hide ShowInt;
  }

  /** A jump is read back from its exported text exactly when it is readable. */
  lemma JumpRoundTripExactly(j: Jump, other: Otherwise)
    requires JumpFields(j) && Trimmed(JumpText(j))
    ensures ParseProxyJump(JumpText(j), other) == Some(j) <==> JumpReadable(j, other)
  {
    JumpTextIsSome(j);
    hide Trimmed, HostPort, Bracketed, LonePort, Trim, JumpText, HostPortText, ParseParts, ParseProxyJump, Lower;
    ParsedParts(JumpText(j), other);
    PartsRoundTrip(j, other);
    HostPortExactly(j, other);
  }

  /** The input that fails: an address with colons and a port is not read back. */
  lemma ColonsAndPortAreLost(other: Otherwise)
    ensures var j := Jump("::1", Some(2222), None); ParseProxyJump(JumpText(j), other) != Some(j)
  {
    var j := Jump("::1", Some(2222), None);
    var t := JumpText(j);
    ReadBack(2222);
    assert t == j.host + [':'] + Show(2222);
    assert t[0] == ':' && t[|t| - 1] == Show(2222)[|Show(2222)| - 1];
    assert '0' <= t[|t| - 1] <= '9';
    assert Trimmed(t);
    JumpRoundTripExactly(j, other);
    assert j.host[0] == ':' && ':' in j.host;
    hide Show, ParseProxyJump, Bracketed, LonePort, Lower;
  }

  // ---- One line ------------------------------------------------------------------------

  predicate IsSep(c: char) {
    IsSpace(c) || c == '='
  }

  predicate IsLineTerminator(c: char) {
    c == '\n' || c == '\r' || c == '\U{2028}' || c == '\U{2029}'
  }

  /** What `.` matches. */
  predicate OnOneLine(s: string) {
    forall i | 0 <= i < |s| :: !IsLineTerminator(s[i])
  }

  /** Where the separators from `k` on end. */
  function SepEnd(line: string, k: nat): (e: nat)
    requires k <= |line|
    ensures k <= e <= |line| && (e < |line| ==> !IsSep(line[e]))
    decreases |line| - k
  {
    if k == |line| || !IsSep(line[k]) then k else SepEnd(line, k + 1)
  }

  /** The longest separator stretch from `k` that leaves a character, and the value after it:
      `[\s=]+(.+)$`. */
  function ValueAfter(line: string, k: nat): Option<string>
    requires k < |line|
  {
    var e := SepEnd(line, k);
    var j := if e == |line| then |line| - 1 else e;
    if j > k && OnOneLine(line[j..]) then Some(line[j..]) else None
  }

  /** `^(\S+?)[\s=]+(.+)$`: the shortest key that works, growing over `=` but not over space. */
  function MatchFrom(line: string, k: nat): Option<(string, string)>
    requires 1 <= k <= |line|
    decreases |line| - k
  {
    if k == |line| then None
    else if !IsSep(line[k]) then MatchFrom(line, k + 1)
    else if ValueAfter(line, k).Some? then Some((line[..k], ValueAfter(line, k).value))
    else if IsSpace(line[k]) then None
    else MatchFrom(line, k + 1)
  }

  function StripQuotes(v: string): string {
    var w := if v != "" && (v[0] == '"' || v[0] == '\'') then v[1..] else v;
    if w != "" && (w[|w| - 1] == '"' || w[|w| - 1] == '\'') then w[..|w| - 1] else w
  }

  /** The keyword of a trimmed line, lower-cased, and its value. */
  function Directive(line: string): Option<(string, string)>
    requires line != ""
  {
    match MatchFrom(line, 1)
    case Some((key, val)) => Some((Lower(key), StripQuotes(Trim(val))))
    case None => None
  }

  /** The keyword and value of a line; none for blanks, comments and anything else. */
  function ParseLine(raw: string): Option<(string, string)> {
    var line := Trim(raw);
    if line == "" || line[0] == '#' then None else Directive(line)
  }

  // ---- The parser ------------------------------------------------------------------------

  /** `val.split(/\s+/)`. */
  function Words(s: string): seq<string>
    decreases |s|
  {
    var i := IndexWhere(s, c => IsSpace(c), 0);
    if i == |s| then [s] else [s[..i]] + Words(s[IndexWhere(s, c => !IsSpace(c), i)..])
  }

  predicate Concrete(p: string) {
    '*' !in p && '?' !in p
  }

  function FirstConcrete(words: seq<string>): Option<string> {
    if words == [] then None else if Concrete(words[0]) then Some(words[0]) else FirstConcrete(words[1..])
  }

  /** The hosts finished so far and the one being filled. */
  datatype Parser = Parser(hosts: seq<Host>, cur: Option<Host>)

  function Flush(p: Parser): seq<Host> {
    if p.cur.Some? && p.cur.value.name != "" then p.hosts + [p.cur.value] else p.hosts
  }

  function Apply(p: Parser, key: string, val: string, other: Otherwise): Parser {
    if key == "host" then
      var alias := FirstConcrete(Words(val));
      Parser(Flush(p), if alias.Some? then Some(Host(alias.value, alias.value, "", 22, None, None)) else None)
    else if key == "match" then Parser(Flush(p), None)
    else if p.cur.None? then p
    else
      var h := p.cur.value;
      p.(cur := Some(
        if key == "hostname" then h.(host := val)
        else if key == "user" then h.(user := val)
        else if key == "port" then
          var n := Number(val, other);
          if n.Some? && n.value > 0 then h.(port := n.value) else h
        else if key == "identityfile" then h.(identityFile := Some(val))
        else if key == "proxyjump" then h.(jump := ParseProxyJump(val, other))
        else h))
  }

  function ParseStep(p: Parser, line: string, other: Otherwise): Parser {
    match ParseLine(line)
    case Some((key, val)) => Apply(p, key, val, other)
    case None => p
  }

  function Stepper(other: Otherwise): (Parser, string) -> Parser {
    (p, line) => ParseStep(p, line, other)
  }

  function ParseLines(p: Parser, lines: seq<string>, other: Otherwise): Parser {
    Fold(Stepper(other), p, lines)
  }

  function Parsed(text: string, other: Otherwise): seq<Host> {
    Flush(ParseLines(Parser([], None), Lines(text), other))
  }

  // ---- Sections --------------------------------------------------------------------------

  /** The line opens a section: a `Host` or a `Match` line. */
  predicate Opens(line: string) {
    ParseLine(line).Some? && (ParseLine(line).value.0 == "host" || ParseLine(line).value.0 == "match")
  }

  predicate NoOpeners(lines: seq<string>) {
    forall l | l in lines :: !Opens(l)
  }

  /** The value of the last line with the keyword. */
  function LastValue(lines: seq<string>, key: string): Option<string> {
    if lines == [] then None
    else
      var d := ParseLine(lines[|lines| - 1]);
      if d.Some? && d.value.0 == key then Some(d.value.1) else LastValue(lines[..|lines| - 1], key)
  }

  /** The last `Port` that is a positive number. */
  function LastPort(lines: seq<string>, other: Otherwise): Option<int> {
    if lines == [] then None
    else
      var d := ParseLine(lines[|lines| - 1]);
      if d.Some? && d.value.0 == "port" && Number(d.value.1, other).GetOr(0) > 0 then Number(d.value.1, other)
      else LastPort(lines[..|lines| - 1], other)
  }

  /** The host with the options of a section: of each keyword the last one. */
  function WithOptions(h: Host, lines: seq<string>, other: Otherwise): Host {
    Host(h.name, LastValue(lines, "hostname").GetOr(h.host), LastValue(lines, "user").GetOr(h.user),
         LastPort(lines, other).GetOr(h.port),
         if LastValue(lines, "identityfile").Some? then LastValue(lines, "identityfile") else h.identityFile,
         match LastValue(lines, "proxyjump") case Some(v) => ParseProxyJump(v, other) case None => h.jump)
  }

  lemma LastAfter(init: seq<string>, line: string, key: string, other: Otherwise)
    ensures LastValue(init + [line], key) ==
            if ParseLine(line).Some? && ParseLine(line).value.0 == key then Some(ParseLine(line).value.1) else LastValue(init, key)
    ensures LastPort(init + [line], other) ==
            var d := ParseLine(line);
            if d.Some? && d.value.0 == "port" && Number(d.value.1, other).GetOr(0) > 0 then Number(d.value.1, other)
            else LastPort(init, other)
  {
    hide ParseLine, Number;
    assert (init + [line])[..|init|] == init;
  }

  lemma OptionStep(p: Parser, h: Host, init: seq<string>, line: string, other: Otherwise)
    requires p.cur == Some(WithOptions(h, init, other)) && !Opens(line)
    ensures ParseStep(p, line, other) == p.(cur := Some(WithOptions(h, init + [line], other)))
  {
    hide ParseLine, ParseProxyJump, Number;
    assert ParseLine(line).Some? ==> ParseLine(line).value.0 != "host" && ParseLine(line).value.0 != "match";
    forall key
      ensures LastValue(init + [line], key) ==
              if ParseLine(line).Some? && ParseLine(line).value.0 == key then Some(ParseLine(line).value.1) else LastValue(init, key)
    {
      LastAfter(init, line, key, other);
    }
    LastAfter(init, line, "", other);
    hide LastValue, LastPort, Opens;
  }

  /** The options of a section go to its host, of each keyword the last one; a section without a
      host, a wildcard's or a `Match`'s, changes nothing. */
  lemma {:induction false} SectionReads(p: Parser, lines: seq<string>, other: Otherwise)
    requires NoOpeners(lines)
    ensures ParseLines(p, lines, other) ==
            match p.cur case Some(h) => p.(cur := Some(WithOptions(h, lines, other))) case None => p
  {
    hide Opens, ParseStep, WithOptions;
    if lines == [] {
      assert p.cur.Some? ==> WithOptions(p.cur.value, lines, other) == p.cur.value by { NoOptions(p, other); }
    } else {
      var init, last := lines[..|lines| - 1], lines[|lines| - 1];
      assert lines == init + [last] && last in lines;
      SectionReads(p, init, other);
      var m := ParseLines(p, init, other);
      FoldAppend(Stepper(other), p, init, [last]);
      FoldOne(Stepper(other), m, last);
      assert Stepper(other)(m, last) == ParseStep(m, last, other);
      if p.cur.Some? { OptionStep(m, p.cur.value, init, last, other); } else { SkippedStep(m, last, other); }
    }
  }

  lemma NoOptions(p: Parser, other: Otherwise)
    ensures p.cur.Some? ==> WithOptions(p.cur.value, [], other) == p.cur.value
  {
  }

  lemma SkippedStep(p: Parser, line: string, other: Otherwise)
    requires p.cur.None? && !Opens(line)
    ensures ParseStep(p, line, other) == p
  {
    hide ParseLine;
  }

  /** A `Match` line ends the host before it, and the options up to the next `Host` or `Match` change
      no host. */
  lemma MatchEndsTheHost(p: Parser, line: string, val: string, rest: seq<string>, other: Otherwise)
    requires ParseLine(line) == Some(("match", val)) && NoOpeners(rest)
    ensures ParseLines(p, [line] + rest, other) == Parser(Flush(p), None)
  {
    hide ParseLine, Flush, NoOpeners;
    OpenerFirst(p, line, rest, other);
    SectionReads(Parser(Flush(p), None), rest, other);
  }

  lemma OpenerFirst(p: Parser, line: string, rest: seq<string>, other: Otherwise)
    ensures ParseLines(p, [line] + rest, other) == ParseLines(ParseStep(p, line, other), rest, other)
  {
    hide ParseStep;
    FoldAppend(Stepper(other), p, [line], rest);
    FoldOne(Stepper(other), p, line);
    assert Stepper(other)(p, line) == ParseStep(p, line, other);
  }

  /** The first pattern of a `Host` line that is no wildcard, if there is one. */
  predicate FirstPlain(words: seq<string>, alias: Option<string>) {
    match alias
    case Some(a) => exists k | 0 <= k < |words| :: words[k] == a && Concrete(a) && forall j | 0 <= j < k :: !Concrete(words[j])
    case None => forall w | w in words :: !Concrete(w)
  }

  lemma {:induction false} FirstConcreteIsFirst(words: seq<string>)
    ensures FirstPlain(words, FirstConcrete(words))
  {
    if words != [] && !Concrete(words[0]) {
      FirstConcreteIsFirst(words[1..]);
      match FirstConcrete(words) {
        case Some(a) =>
          var k :| 0 <= k < |words[1..]| && words[1..][k] == a && Concrete(a) && forall j | 0 <= j < k :: !Concrete(words[1..][j]);
          assert words[k + 1] == a;
          forall j | 0 <= j < k + 1
            ensures !Concrete(words[j])
          {
            if j > 0 { assert words[1..][j - 1] == words[j]; }
          }
        case None =>
      }
    }
  }

  /** A `Host` line ends the host before it and opens that of its first pattern without wildcards:
      the host is named and reached by it, on port 22, except as the options of the section say, of
      each keyword the last one. */
  lemma HostSection(p: Parser, line: string, val: string, rest: seq<string>, other: Otherwise)
    requires ParseLine(line) == Some(("host", val)) && NoOpeners(rest)
    ensures FirstPlain(Words(val), FirstConcrete(Words(val)))
    ensures ParseLines(p, [line] + rest, other) ==
            match FirstConcrete(Words(val))
            case Some(a) => Parser(Flush(p), Some(WithOptions(Host(a, a, "", 22, None, None), rest, other)))
            case None => Parser(Flush(p), None)
  {
    FirstConcreteIsFirst(Words(val));
    hide ParseLine, Flush, NoOpeners, FirstPlain, WithOptions, Words;
    OpenerFirst(p, line, rest, other);
    SectionReads(ParseStep(p, line, other), rest, other);
  }

  method ParseSshConfig(text: string, other: Otherwise) returns (hosts: seq<Host>)
    ensures hosts == Parsed(text, other)
  {
    hide ParseStep, Lines;
    var p := Parser([], None);
    var lines := Lines(text);
    assert lines[0..] == lines;
    for i := 0 to |lines|
      invariant ParseLines(p, lines[i..], other) == ParseLines(Parser([], None), lines, other)
    {
      assert lines[i..][0] == lines[i] && lines[i..][1..] == lines[i + 1..];
      assert Stepper(other)(p, lines[i]) == ParseStep(p, lines[i], other);
      p := ParseStep(p, lines[i], other);
    }
    hosts := Flush(p);
  }

  // ---- A directive reads back ----------------------------------------------------------------

  /** A value a directive line carries unchanged. */
  predicate ValueOk(v: string) {
    && v != "" && Trimmed(v)
    && OnOneLine(v)
    && (v[0] != '=' || v == "=")
    && !IsQuote(v[0]) && !IsQuote(v[|v| - 1])
  }

  predicate IsQuote(c: char) {
    c == '"' || c == '\''
  }

  predicate KeyOk(key: string) {
    key != "" && key[0] != '#' && forall i | 0 <= i < |key| :: !IsSep(key[i])
  }

  lemma {:induction false} SkipKey(key: string, v: string, k: nat)
    requires KeyOk(key) && 1 <= k <= |key|
    ensures MatchFrom(key + " " + v, k) == MatchFrom(key + " " + v, |key|)
    decreases |key| - k
  {
    if k < |key| {
      assert (key + " " + v)[k] == key[k];
      SkipKey(key, v, k + 1);
    }
  }

  lemma {:induction false} TrimStartIndent(indent: string, s: string)
    requires s != "" && !IsSpace(s[0]) && forall i | 0 <= i < |indent| :: IsSpace(indent[i])
    ensures TrimStart(indent + s) == s
  {
    if indent == "" {
      assert indent + s == s;
    } else {
      assert (indent + s)[1..] == indent[1..] + s && (indent + s)[0] == indent[0];
      TrimStartIndent(indent[1..], s);
    }
  }

  lemma TrimIndent(s: string, indent: string)
    requires s != "" && Trimmed(s) && forall i | 0 <= i < |indent| :: IsSpace(indent[i])
    ensures Trim(indent + s) == s
  {
    TrimStartIndent(indent, s);
    TrimKeeps(s);
  }

  lemma SepEndSkips(pre: string, v: string, k: nat)
    requires k < |pre| && IsSep(pre[k]) && k == |pre| - 1 && v != ""
    ensures var e := SepEnd(pre + v, k);
            e >= |pre| && (e > |pre| <==> IsSep(v[0]))
  {
    assert (pre + v)[k] == pre[k] && (pre + v)[|pre|] == v[0];
  }

  /** What follows the space after the key of a line with a trimmed value. */
  lemma ValueAfterKey(pre: string, v: string)
    requires |pre| >= 2 && pre[|pre| - 1] == ' ' && v != "" && Trimmed(v) && OnOneLine(v)
    ensures var r := ValueAfter(pre + v, |pre| - 1);
            && r.Some? && r.value != "" && Trimmed(r.value)
            && (if v[0] != '=' || v == "=" then r.value == v else |r.value| < |v|)
  {
    var line, n := pre + v, |pre|;
    SepEndSkips(pre, v, n - 1);
    var e := SepEnd(line, n - 1);
    var j := if e == |line| then |line| - 1 else e;
    assert IsSep(v[0]) <==> v[0] == '=';
    assert line[j..] == v[j - n..];
    assert v[j - n..][0] == v[j - n];
    assert e < |line| ==> line[e] == v[e - n];
    assert e < |line| ==> !IsSpace(v[e - n]);
    hide IsSpace, IsLineTerminator, SepEnd, IsSep;
    assert OnOneLine(v[j - n..]);
    assert j == n ==> v[j - n..] == v;
  }

  lemma KeyValueMatches(key: string, v: string)
    requires KeyOk(key) && v != "" && Trimmed(v) && OnOneLine(v)
    ensures var r := MatchFrom(key + " " + v, 1);
            && r.Some? && r.value.0 == key && r.value.1 != "" && Trimmed(r.value.1)
            && (if v[0] != '=' || v == "=" then r.value.1 == v else |r.value.1| < |v|)
  {
    var line := key + " " + v;
    SkipKey(key, v, 1);
    ValueAfterKey(key + " ", v);
    assert key + " " + v == line;
    assert line[|key|] == ' ' && line[..|key|] == key;
    assert IsSep(' ');
  }

  lemma LineIsTrimmed(key: string, v: string)
    requires KeyOk(key) && v != "" && Trimmed(v)
    ensures var line := key + " " + v; line != "" && line[0] != '#' && Trimmed(line)
  {
    var line := key + " " + v;
    assert line[0] == key[0] && line[|line| - 1] == v[|v| - 1];
  }

  /** The line of a directive is taken for one, whatever its indent. */
  lemma ParsedAsDirective(indent: string, key: string, v: string)
    requires KeyOk(key) && v != "" && Trimmed(v)
    requires forall i | 0 <= i < |indent| :: IsSpace(indent[i])
    ensures ParseLine(indent + (key + " " + v)) == Directive(key + " " + v)
  {
    var line := key + " " + v;
    LineIsTrimmed(key, v);
    hide Directive, ParseLine, Trim, KeyOk;
    TrimIndent(line, indent);
    hide IsSpace;
    LineIsDirective(indent + line);
  }

  /** What a line holds: its key, and of its value all but quotes at the ends. */
  lemma DirectiveHolds(key: string, v: string) returns (w: string)
    requires KeyOk(key) && v != "" && Trimmed(v) && OnOneLine(v)
    ensures w != "" && Directive(key + " " + v) == Some((Lower(key), StripQuotes(w)))
    ensures if v[0] != '=' || v == "=" then w == v else |w| < |v|
  {
    hide MatchFrom, Trim, StripQuotes, Lower, IsSpace, OnOneLine, KeyOk;
    KeyValueMatches(key, v);
    w := MatchFrom(key + " " + v, 1).value.1;
    TrimKeeps(w);
  }

  /** A directive reads back unchanged exactly for the values that are fit for one. */
  lemma DirectiveReadsBackExactly(indent: string, key: string, v: string)
    requires KeyOk(key) && v != "" && Trimmed(v) && OnOneLine(v)
    requires forall i | 0 <= i < |indent| :: IsSpace(indent[i])
    ensures ParseLine(indent + (key + " " + v)) == Some((Lower(key), v)) <==> ValueOk(v)
  {
    hide ParseLine, Directive, StripQuotes, Lower, KeyOk, Trimmed, OnOneLine, ValueOk, IsSpace;
    ParsedAsDirective(indent, key, v);
    var w := DirectiveHolds(key, v);
    StripIsFit(v, w);
  }

  lemma StripIsFit(v: string, w: string)
    requires v != "" && Trimmed(v) && OnOneLine(v) && w != ""
    requires if v[0] != '=' || v == "=" then w == v else |w| < |v|
    ensures StripQuotes(w) == v <==> ValueOk(v)
  {
    hide StripQuotes, Trimmed, OnOneLine;
    StripKeepsUnquoted(w);
  }

  lemma LineIsDirective(raw: string)
    ensures var line := Trim(raw); line != "" && line[0] != '#' ==> ParseLine(raw) == Directive(line)
  {
  }

  lemma StripKeepsUnquoted(w: string)
    requires w != ""
    ensures |StripQuotes(w)| <= |w|
    ensures StripQuotes(w) == w <==> !IsQuote(w[0]) && !IsQuote(w[|w| - 1])
  {
  }
}
