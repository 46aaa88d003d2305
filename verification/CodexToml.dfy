/** Splicing one table into foreign TOML source by lines, and taking it out again. */
module CodexToml {
  import opened Options
  import opened Text

  // ---- Strings ------------------------------------------------------------------

  function HexDigit(n: nat): char
    requires n < 16
  {
    "0123456789abcdef"[n]
  }

  function HexValue(c: char): Option<nat> {
    if '0' <= c <= '9' then Some((c - '0') as nat)
    else if 'a' <= c <= 'f' then Some((c - 'a') as nat + 10)
    else if 'A' <= c <= 'F' then Some((c - 'A') as nat + 10)
    else None
  }

  function EscapedChar(c: char): string {
    if c == '\\' then "\\\\"
    else if c == '"' then "\\\""
    else if c == '\n' then "\\n"
    else if c == '\r' then "\\r"
    else if c == '\t' then "\\t"
    else if c < ' ' then "\\u00" + [HexDigit(c as nat / 16), HexDigit(c as nat % 16)]
    else [c]
  }

  function Escaped(v: string): string {
    if v == "" then "" else EscapedChar(v[0]) + Escaped(v[1..])
  }

  function Quoted(v: string): string {
    "\"" + Escaped(v) + "\""
  }

  method TomlString(v: string) returns (r: string)
    ensures r == Quoted(v)
  {
    var out := "";
    assert v[0..] == v;
    for i := 0 to |v|
      invariant out + Escaped(v[i..]) == Escaped(v)
    {
      assert v[i..][0] == v[i] && v[i..][1..] == v[i + 1..];
      Assoc(out, EscapedChar(v[i]), Escaped(v[i + 1..]));
      out := out + EscapedChar(v[i]);
    }
    assert out + "" == out;
    r := "\"" + out + "\"";
  }

  /** The control characters a basic string may not hold as they are (section "String" of
      TOML v1.0.0): all but tab, and delete. */
  predicate Forbidden(c: char) {
    (c < ' ' && c != '\t') || c == '\U{7F}'
  }

  function FourHex(s: string): Option<char>
    requires |s| >= 4
  {
    match (HexValue(s[0]), HexValue(s[1]), HexValue(s[2]), HexValue(s[3]))
    case (Some(a), Some(b), Some(c), Some(d)) =>
      var n := ((a * 16 + b) * 16 + c) * 16 + d;
      if n < 0xD800 || 0xE000 <= n <= 0xFFFF then Some(n as char) else None
    case _ => None
  }

  /** The value of a basic string's inside up to its closing quote, which must be the last
      character (section "String" of TOML v1.0.0; `\U` escapes are not read here). */
  function DecodeRest(s: string): Option<string>
    decreases |s|
  {
    if s == "" then None
    else if s[0] == '"' then (if |s| == 1 then Some("") else None)
    else if s[0] != '\\' then
      if Forbidden(s[0]) then None else Prepend(s[0], DecodeRest(s[1..]))
    else if |s| == 1 then None
    else
      match s[1]
      case '\\' => Prepend('\\', DecodeRest(s[2..]))
      case '"' => Prepend('"', DecodeRest(s[2..]))
      case 'n' => Prepend('\n', DecodeRest(s[2..]))
      case 'r' => Prepend('\r', DecodeRest(s[2..]))
      case 't' => Prepend('\t', DecodeRest(s[2..]))
      case 'b' => Prepend('\U{08}', DecodeRest(s[2..]))
      case 'f' => Prepend('\U{0C}', DecodeRest(s[2..]))
      case 'u' =>
        if |s| < 6 || FourHex(s[2..6]).None? then None else Prepend(FourHex(s[2..6]).value, DecodeRest(s[6..]))
      case _ => None
  }

  function Prepend(c: char, rest: Option<string>): Option<string> {
    match rest case Some(v) => Some([c] + v) case None => None
  }

  function Decode(s: string): Option<string> {
    if s == "" || s[0] != '"' then None else DecodeRest(s[1..])
  }

  lemma HexRoundTrip(n: nat)
    requires n < 16
    ensures HexValue(HexDigit(n)) == Some(n)
  {
  }

  lemma ControlEscape(c: char, rest: string)
    requires c < ' '
    ensures var s := "\\u00" + [HexDigit(c as nat / 16), HexDigit(c as nat % 16)] + rest;
            DecodeRest(s) == Prepend(c, DecodeRest(rest))
  {
    var s := "\\u00" + [HexDigit(c as nat / 16), HexDigit(c as nat % 16)] + rest;
    HexRoundTrip(c as nat / 16);
    HexRoundTrip(c as nat % 16);
    var four := s[2..6];
    assert four == ['0', '0', HexDigit(c as nat / 16), HexDigit(c as nat % 16)];
    assert HexValue('0') == Some(0);
    assert FourHex(four) == Some((c as nat / 16 * 16 + c as nat % 16) as char);
    assert s[6..] == rest;
  }

  /** One written character is read back, unless it is the delete character. */
  lemma OneEscape(c: char, rest: string)
    ensures DecodeRest(EscapedChar(c) + rest) == if c == '\U{7F}' then None else Prepend(c, DecodeRest(rest))
  {
    var s := EscapedChar(c) + rest;
    if c == '\\' || c == '"' || c == '\n' || c == '\r' || c == '\t' {
      assert s[2..] == rest;
    } else if c < ' ' {
      ControlEscape(c, rest);
    } else {
      assert s[1..] == rest;
    }
  }

  lemma {:induction false} EscapedDecodes(v: string)
    ensures DecodeRest(Escaped(v) + "\"") == if '\U{7F}' in v then None else Some(v)
  {
    if v == "" {
      assert Escaped(v) + "\"" == "\"";
    } else {
      var c, rest := v[0], Escaped(v[1..]) + "\"";
      EscapedDecodes(v[1..]);
      OneEscape(c, rest);
      hide DecodeRest, EscapedChar;
      assert Escaped(v) + "\"" == EscapedChar(c) + rest;
      assert [c] + v[1..] == v;
      HeadOrTail(v, '\U{7F}');
    }
  }

  lemma HeadOrTail(v: string, c: char)
    requires v != ""
    ensures c in v <==> v[0] == c || c in v[1..]
  {
    assert v == [v[0]] + v[1..];
  }

  /** Decoding a written string gives the value back exactly when the value has no delete
      character, which the writer leaves unescaped and TOML forbids unescaped. */
  lemma StringRoundTripExactly(v: string)
    ensures Decode(Quoted(v)) == Some(v) <==> '\U{7F}' !in v
    ensures '\U{7F}' in v ==> Decode(Quoted(v)).None?
  {
    EscapedDecodes(v);
    assert Quoted(v)[1..] == Escaped(v) + "\"";
  }

  /** The text that fails: a lone delete character is written as it is. */
  lemma DeleteIsNotReadBack()
    ensures Quoted("\U{7F}") == "\"\U{7F}\"" && Decode(Quoted("\U{7F}")).None?
  {
    var v := "\U{7F}";
    assert v[0] == '\U{7F}' && v[1..] == "" && EscapedChar(v[0]) == v;
    StringRoundTripExactly(v);
  }

  lemma EscapedCharIsOneLine(c: char)
    ensures '\n' !in EscapedChar(c)
  {
    if c < ' ' {
      HexRoundTrip(c as nat / 16);
      HexRoundTrip(c as nat % 16);
    }
  }

  /** A written string is one line. */
  lemma {:induction false} QuotedIsOneLine(v: string)
    ensures '\n' !in Quoted(v) && '\n' !in Escaped(v)
  {
    if v != "" {
      hide EscapedChar;
      EscapedCharIsOneLine(v[0]);
      QuotedIsOneLine(v[1..]);
    }
  }

  // ---- Lines of the source --------------------------------------------------------

  predicate IsTableHeader(line: string) {
    StartsWith(TrimStart(line), "[")
  }

  function WithoutSpaces(s: string): string {
    if s == "" then "" else (if IsSpace(s[0]) then "" else [s[0]]) + WithoutSpaces(s[1..])
  }

  /** The line opens our table, with the key bare or quoted either way. */
  predicate OpensOurTable(line: string, name: string) {
    var t := Trim(line);
    && |t| >= 2 && t[0] == '[' && t[|t| - 1] == ']'
    && var inner := WithoutSpaces(t[1..|t| - 1]);
       || inner == "mcp_servers." + name
       || inner == "mcp_servers.\"" + name + "\""
       || inner == "mcp_servers.'" + name + "'"
  }

  /** An inline table or a dotted root key: `mcp_servers =` or `mcp_servers.`. */
  predicate Unsupported(line: string) {
    var t := TrimStart(line);
    StartsWith(t, "mcp_servers") &&
    var rest := TrimStart(t[11..]);
    rest != "" && (rest[0] == '.' || rest[0] == '=')
  }

  predicate Bare(name: string) {
    name != "" && forall i | 0 <= i < |name| :: !IsSpace(name[i]) && name[i] != '"' && name[i] != '\''
  }

  lemma {:induction false} WithoutSpacesKeeps(s: string)
    requires forall i | 0 <= i < |s| :: !IsSpace(s[i])
    ensures WithoutSpaces(s) == s
  {
    hide IsSpace;
    if s != "" {
      WithoutSpacesKeeps(s[1..]);
      assert s == [s[0]] + s[1..];
    }
  }

  /** The three keys that name our table. */
  predicate IsOurKey(key: string, name: string) {
    key == "mcp_servers." + name || key == "mcp_servers.\"" + name + "\"" || key == "mcp_servers.'" + name + "'"
  }

  lemma KeyHasNoSpace(key: string, name: string, i: nat)
    requires Bare(name) && IsOurKey(key, name) && i < |key|
    ensures !IsSpace(key[i])
  {
    var tail := if key[12] == '"' || key[12] == '\'' then |key| - 1 else |key|;
    if i < 12 {
      assert key[..12] == "mcp_servers.";
      assert key[i] == "mcp_servers."[i];
    }
  }

  /** A header with the key in any of its three spellings opens our table. */
  lemma OurKeyOpens(key: string, name: string)
    requires Bare(name) && IsOurKey(key, name)
    ensures OpensOurTable("[" + key + "]", name)
  {
    var line := "[" + key + "]";
    hide IsSpace, Bare;
    forall i | 0 <= i < |key|
      ensures !IsSpace(key[i])
    {
      KeyHasNoSpace(key, name, i);
    }
    WithoutSpacesKeeps(key);
    hide WithoutSpaces;
    assert !IsSpace('[') && !IsSpace(']') by { Brackets(); }
    assert Trimmed(line);
    TrimKeeps(line);
    assert line[1..|line| - 1] == key;
    hide Trim;
  }

  lemma Brackets()
    ensures !IsSpace('[') && !IsSpace(']')
  {
  }

  /** A line opens the table of one name at most. */
  lemma OpensOneTable(line: string, name: string, other: string)
    requires Bare(name) && Bare(other) && OpensOurTable(line, name) && OpensOurTable(line, other)
    ensures name == other
  {
    var t := Trim(line);
    var inner := WithoutSpaces(t[1..|t| - 1]);
    assert IsOurKey(inner, name) && IsOurKey(inner, other);
    hide WithoutSpaces, Trim, IsSpace;
    OneName(inner, name, other);
  }

  lemma OneName(key: string, name: string, other: string)
    requires Bare(name) && Bare(other) && IsOurKey(key, name) && IsOurKey(key, other)
    ensures name == other
  {
    hide IsSpace;
    NameIn(key, name);
    NameIn(key, other);
  }

  lemma NameIn(key: string, name: string)
    requires Bare(name) && IsOurKey(key, name)
    ensures |key| > 12
    ensures if key[12] == '"' || key[12] == '\'' then |key| > 13 && name == key[13..|key| - 1] else name == key[12..]
  {
    hide IsSpace;
    if key == "mcp_servers." + name {
      assert key[12] == name[0];
    }
  }

  /** A line that assigns to `mcp_servers` itself or to a dotted key of it, with any white space
      before and after the name. */
  ghost predicate AssignsRoot(line: string) {
    exists a: string, b: string, c: char, rest: string ::
      AllSpace(a) && AllSpace(b) && (c == '.' || c == '=') && line == a + "mcp_servers" + b + [c] + rest
  }

  predicate AllSpace(s: string) {
    forall i | 0 <= i < |s| :: IsSpace(s[i])
  }

  lemma {:induction false} TrimStartDropsSpace(s: string, i: nat)
    requires i < |s| - |TrimStart(s)|
    ensures IsSpace(s[i])
  {
    hide IsSpace;
    if i > 0 {
      TrimStartDropsSpace(s[1..], i - 1);
      assert s[1..][i - 1] == s[i];
    }
  }

  lemma TrimStartSplits(s: string) returns (a: string)
    ensures AllSpace(a) && s == a + TrimStart(s)
  {
    hide IsSpace, TrimStart;
    var n := |s| - |TrimStart(s)|;
    a := s[..n];
    assert TrimStart(s) == s[n..];
    forall i | 0 <= i < n
      ensures IsSpace(s[i])
    {
      TrimStartDropsSpace(s, i);
    }
  }

  lemma {:induction false} TrimStartOf(a: string, s: string)
    requires AllSpace(a) && s != "" && !IsSpace(s[0])
    ensures TrimStart(a + s) == s
  {
    if a == "" {
      assert a + s == s;
    } else {
      assert (a + s)[1..] == a[1..] + s && (a + s)[0] == a[0];
      TrimStartOf(a[1..], s);
    }
  }

  lemma Assembled(line: string, a: string, t: string, u: string, b: string, rest: string)
    requires line == a + t && StartsWith(t, "mcp_servers") && u == t[11..] && u == b + rest && rest != ""
    requires AllSpace(a) && AllSpace(b) && (rest[0] == '.' || rest[0] == '=')
    ensures AssignsRoot(line)
  {
    hide AllSpace;
    assert t == "mcp_servers" + u && rest == [rest[0]] + rest[1..];
    assert a + ("mcp_servers" + (b + ([rest[0]] + rest[1..]))) == a + "mcp_servers" + b + [rest[0]] + rest[1..];
  }

  lemma AssignmentIsUnsupported(a: string, b: string, c: char, rest: string)
    requires AllSpace(a) && AllSpace(b) && (c == '.' || c == '=')
    ensures Unsupported(a + "mcp_servers" + b + [c] + rest)
  {
    var u := b + ([c] + rest);
    var t := "mcp_servers" + u;
    assert a + "mcp_servers" + b + [c] + rest == a + t;
    TrimStartOf(a, t);
    TrimStartOf(b, [c] + rest);
    hide AllSpace, TrimStart, IsSpace;
    assert t[..11] == "mcp_servers" && t[11..] == u;
  }

  /** A source is refused for exactly these lines: an inline or a dotted assignment of `mcp_servers`. */
  lemma UnsupportedExactly(line: string)
    ensures Unsupported(line) <==> AssignsRoot(line)
  {
    if Unsupported(line) {
      var t := TrimStart(line);
      var a := TrimStartSplits(line);
      var b := TrimStartSplits(t[11..]);
      hide TrimStart, AllSpace, AssignsRoot;
      Assembled(line, a, t, t[11..], b, TrimStart(t[11..]));
    } else if AssignsRoot(line) {
      hide AllSpace, Unsupported;
      var a: string, b: string, c: char, rest: string :|
        AllSpace(a) && AllSpace(b) && (c == '.' || c == '=') && line == a + "mcp_servers" + b + [c] + rest;
      AssignmentIsUnsupported(a, b, c, rest);
    }
  }

  predicate HasUnsupportedForm(lines: seq<string>) {
    exists l | l in lines :: Unsupported(l)
  }

  /** The first line from `i` on that opens our table. */
  function OpenerAt(lines: seq<string>, name: string, i: nat): (r: nat)
    requires i <= |lines|
    ensures i <= r <= |lines|
    decreases |lines| - i
  {
    if i == |lines| || OpensOurTable(lines[i], name) then i else OpenerAt(lines, name, i + 1)
  }

  /** The first table header from `i` on. */
  function HeaderAt(lines: seq<string>, i: nat): (r: nat)
    requires i <= |lines|
    ensures i <= r <= |lines|
    decreases |lines| - i
  {
    if i == |lines| || IsTableHeader(lines[i]) then i else HeaderAt(lines, i + 1)
  }

  lemma {:induction false} FirstOpener(lines: seq<string>, name: string, i: nat)
    requires i <= |lines|
    ensures var r := OpenerAt(lines, name, i);
            (r < |lines| ==> OpensOurTable(lines[r], name)) && forall j | i <= j < r :: !OpensOurTable(lines[j], name)
    decreases |lines| - i
  {
    hide OpensOurTable;
    if i < |lines| && !OpensOurTable(lines[i], name) { FirstOpener(lines, name, i + 1); }
  }

  lemma {:induction false} FirstHeader(lines: seq<string>, i: nat)
    requires i <= |lines|
    ensures var r := HeaderAt(lines, i);
            (r < |lines| ==> IsTableHeader(lines[r])) && forall j | i <= j < r :: !IsTableHeader(lines[j])
    decreases |lines| - i
  {
    hide IsTableHeader;
    if i < |lines| && !IsTableHeader(lines[i]) { FirstHeader(lines, i + 1); }
  }

  /** How many lines open our table. */
  function Openings(lines: seq<string>, name: string): nat {
    if lines == [] then 0 else (if OpensOurTable(lines[0], name) then 1 else 0) + Openings(lines[1..], name)
  }

  predicate NoOpening(lines: seq<string>, name: string) {
    forall l | l in lines :: !OpensOurTable(l, name)
  }

  /** The lines outside our table: the header, up to the next header or the end, is ours. */
  function Outside(lines: seq<string>, name: string): seq<string> {
    var start := OpenerAt(lines, name, 0);
    if start == |lines| then lines else lines[..start] + lines[HeaderAt(lines, start + 1)..]
  }

  lemma OpeningIsHeader(line: string, name: string)
    ensures OpensOurTable(line, name) ==> IsTableHeader(line)
  {
    if OpensOurTable(line, name) {
      var t := TrimStart(line);
      assert Trim(line) == t[..|Trim(line)|];
      assert t[0] == '[';
      assert t[..1] == "[";
    }
  }

  lemma {:induction false} OpeningsAppend(a: seq<string>, b: seq<string>, name: string)
    ensures Openings(a + b, name) == Openings(a, name) + Openings(b, name)
  {
    if a == [] {
      assert a + b == b;
    } else {
      assert (a + b)[1..] == a[1..] + b;
      OpeningsAppend(a[1..], b, name);
    }
  }

  lemma {:induction false} OpeningsNone(lines: seq<string>, name: string)
    ensures Openings(lines, name) == 0 <==> NoOpening(lines, name)
  {
    hide OpensOurTable;
    if lines != [] {
      OpeningsNone(lines[1..], name);
      assert lines == [lines[0]] + lines[1..];
    }
  }

  /** Our header's lines hold one opening: no line up to the next header is another. */
  lemma OneOpeningInside(lines: seq<string>, name: string, start: nat)
    requires start == OpenerAt(lines, name, 0) < |lines|
    ensures var end := HeaderAt(lines, start + 1); Openings(lines[start..end], name) == 1
  {
    hide OpensOurTable, IsTableHeader;
    FirstOpener(lines, name, 0);
    FirstHeader(lines, start + 1);
    var end := HeaderAt(lines, start + 1);
    var tail := lines[start + 1..end];
    forall l | l in tail
      ensures !OpensOurTable(l, name)
    {
      var j :| 0 <= j < |tail| && tail[j] == l;
      assert l == lines[start + 1 + j] && !IsTableHeader(l);
      OpeningIsHeader(l, name);
    }
    OpeningsNone(tail, name);
    assert lines[start..end][0] == lines[start] && lines[start..end][1..] == tail;
  }

  lemma NoOpenerNoOpening(lines: seq<string>, name: string)
    requires OpenerAt(lines, name, 0) == |lines|
    ensures Openings(lines, name) == 0
  {
    hide OpensOurTable;
    FirstOpener(lines, name, 0);
    forall l | l in lines
      ensures !OpensOurTable(l, name)
    {
      var j :| 0 <= j < |lines| && lines[j] == l;
    }
    OpeningsNone(lines, name);
  }

  lemma OpeningsAround(head: seq<string>, mine: seq<string>, rest: seq<string>, name: string)
    ensures Openings(head + mine + rest, name) == Openings(head + rest, name) + Openings(mine, name)
  {
    hide Openings;
    OpeningsAppend(head + mine, rest, name);
    OpeningsAppend(head, mine, name);
    OpeningsAppend(head, rest, name);
  }

  /** What dropping refuses: exactly a second header of ours anywhere. */
  lemma OutsideOpenings(lines: seq<string>, name: string)
    ensures Openings(Outside(lines, name), name) == if Openings(lines, name) == 0 then 0 else Openings(lines, name) - 1
  {
    hide OpensOurTable, IsTableHeader, Openings;
    var start := OpenerAt(lines, name, 0);
    if start == |lines| {
      NoOpenerNoOpening(lines, name);
    } else {
      OneOpeningInside(lines, name, start);
      var end := HeaderAt(lines, start + 1);
      OpeningsAround(lines[..start], lines[start..end], lines[end..], name);
      assert lines == lines[..start] + lines[start..end] + lines[end..];
    }
  }

  /** With one opening, none is left outside; with more, one is left after ours. */
  lemma LeftOutside(lines: seq<string>, name: string, start: nat, end: nat)
    requires start == OpenerAt(lines, name, 0) < |lines| && end == HeaderAt(lines, start + 1)
    ensures Openings(lines, name) >= 1
    ensures Openings(lines, name) <= 1 <==> NoOpening(lines[end..], name)
  {
    hide OpensOurTable, IsTableHeader;
    FirstOpener(lines, name, 0);
    var head, rest := lines[..start], lines[end..];
    OutsideOpenings(lines, name);
    OpeningsAppend(head, rest, name);
    forall l | l in head
      ensures !OpensOurTable(l, name)
    {
      var j :| 0 <= j < |head| && head[j] == l;
      assert l == lines[j];
    }
    OpeningsNone(head, name);
    OpeningsNone(rest, name);
    assert OpensOurTable(lines[start], name);
    OpeningsNone(lines, name);
  }

  method DropOurTable(lines: seq<string>, name: string) returns (r: Option<seq<string>>)
    ensures r == if Openings(lines, name) <= 1 then Some(Outside(lines, name)) else None
  {
    hide OpensOurTable, IsTableHeader, Openings;
    var start := 0;
    while start < |lines| && !OpensOurTable(lines[start], name)
      invariant start <= |lines| && OpenerAt(lines, name, 0) == OpenerAt(lines, name, start)
    {
      start := start + 1;
    }
    if start == |lines| {
      NoOpenerNoOpening(lines, name);
      return Some(lines);
    }
    var end := start + 1;
    while end < |lines| && !IsTableHeader(lines[end])
      invariant start + 1 <= end <= |lines| && HeaderAt(lines, start + 1) == HeaderAt(lines, end)
    {
      end := end + 1;
    }
    var rest := lines[end..];
    LeftOutside(lines, name, start, end);
    if exists l | l in rest :: OpensOurTable(l, name) {
      return None;
    }
    r := Some(lines[..start] + rest);
  }

  // ---- Splice and remove ---------------------------------------------------------------

  function StripNewlines(s: string): (r: string)
    ensures r <= s && (r != "" ==> r[|r| - 1] != '\n')
  {
    if s != "" && s[|s| - 1] == '\n' then StripNewlines(s[..|s| - 1]) else s
  }

  predicate Refused(src: string, name: string) {
    HasUnsupportedForm(Lines(src)) || Openings(Lines(src), name) >= 2
  }

  function Spliced(src: string, block: string, name: string): string {
    var body := StripNewlines(Join(Outside(Lines(src), name)));
    if body == "" then block else body + "\n\n" + block
  }

  method SpliceTomlEntry(src: string, block: string, name: string) returns (r: Option<string>)
    ensures r == if Refused(src, name) then None else Some(Spliced(src, block, name))
  {
    var lines := Lines(src);
    if HasUnsupportedForm(lines) { return None; }
    var without := DropOurTable(lines, name);
    if without.None? { return None; }
    var body := StripNewlines(Join(without.value));
    r := Some(if body == "" then block else body + "\n\n" + block);
  }

  method SpliceTomlWithout(src: string, name: string) returns (r: Option<string>)
    ensures r == if Refused(src, name) then None else Some(Join(Outside(Lines(src), name)))
  {
    var lines := Lines(src);
    if HasUnsupportedForm(lines) { return None; }
    var without := DropOurTable(lines, name);
    if without.None? { return None; }
    r := Some(Join(without.value));
  }

  /** A block the caller may splice: our header, lines that are neither headers nor the
      unsupported forms, and a final newline. */
  predicate OurBlock(block: string, name: string) {
    var ls := Lines(block);
    && |ls| >= 2 && ls[|ls| - 1] == "" && OpensOurTable(ls[0], name)
    && (forall i | 1 <= i < |ls| :: !IsTableHeader(ls[i]))
    && !HasUnsupportedForm(ls)
  }

  // ---- The laws ---------------------------------------------------------------------------

  function Newlines(n: nat): (r: string)
    ensures |r| == n
  {
    seq(n, _ => '\n')
  }

  lemma {:induction false} StripSplits(s: string) returns (k: nat)
    ensures s == StripNewlines(s) + Newlines(k)
  {
    if s != "" && s[|s| - 1] == '\n' {
      var j := StripSplits(s[..|s| - 1]);
      k := j + 1;
      assert Newlines(k) == Newlines(j) + ['\n'];
      assert s == s[..|s| - 1] + ['\n'];
    } else {
      k := 0;
    }
  }

  lemma {:induction false} StripUndoes(body: string, k: nat)
    requires body != "" ==> body[|body| - 1] != '\n'
    ensures StripNewlines(body + Newlines(k)) == body
  {
    var s := body + Newlines(k);
    if k > 0 {
      assert s[..|s| - 1] == body + Newlines(k - 1);
      StripUndoes(body, k - 1);
    } else {
      assert s == body;
    }
  }

  /** A source without an opening is all outside. */
  lemma NothingOfOurs(lines: seq<string>, name: string)
    requires NoOpening(lines, name)
    ensures Outside(lines, name) == lines
  {
    hide OpensOurTable;
    FirstOpener(lines, name, 0);
    var start := OpenerAt(lines, name, 0);
    assert forall j | 0 <= j < |lines| :: lines[j] in lines;
  }

  /** Our block after lines without an opening: dropping it leaves those lines. */
  lemma BlockDropsOff(head: seq<string>, block: seq<string>, name: string)
    requires NoOpening(head, name) && block != [] && OpensOurTable(block[0], name)
    requires forall i | 1 <= i < |block| :: !IsTableHeader(block[i])
    ensures Outside(head + block, name) == head && Openings(head + block, name) == 1
  {
    hide OpensOurTable, IsTableHeader;
    var lines := head + block;
    FirstOpener(lines, name, 0);
    FirstHeader(lines, |head| + 1);
    var start := OpenerAt(lines, name, 0);
    assert lines[|head|] == block[0];
    assert forall j | 0 <= j < |head| :: lines[j] == head[j] && head[j] in head;
    assert start == |head|;
    var end := HeaderAt(lines, start + 1);
    assert forall j | |head| < j < |lines| :: lines[j] == block[j - |head|];
    assert end == |lines|;
    assert lines[..start] + lines[end..] == head;
    hide OpenerAt, HeaderAt;
    BlockIsOneOpening(head, block, name);
  }

  lemma BlockIsOneOpening(head: seq<string>, block: seq<string>, name: string)
    requires NoOpening(head, name) && block != [] && OpensOurTable(block[0], name)
    requires forall i | 1 <= i < |block| :: !IsTableHeader(block[i])
    ensures Openings(head + block, name) == 1
  {
    hide OpensOurTable, IsTableHeader;
    OpeningsAppend(head, block, name);
    OpeningsNone(head, name);
    assert block == [block[0]] + block[1..];
    forall l | l in block[1..]
      ensures !OpensOurTable(l, name)
    {
      OpeningIsHeader(l, name);
    }
    OpeningsNone(block[1..], name);
  }

  lemma BlankLineBetween(body: string, block: string)
    ensures body + "\n" + ("" + "\n" + block) == body + "\n\n" + block
    ensures body + "\n" + "" == body + "\n"
  {
  }

  /** The lines of a splice: what is outside, less trailing blank lines, a blank line, the block. */
  lemma SplicedLines(body: string, block: string, name: string)
    requires body != "" && OurBlock(block, name)
    ensures Lines(body + "\n\n" + block) == Lines(body) + [""] + Lines(block)
    ensures Join(Lines(body) + [""]) == body + "\n"
  {
    hide Lines, Join, OurBlock;
    JoinLines(body);
    JoinLines(block);
    JoinOne("");
    BlankLineBetween(body, block);
    JoinAppend(Lines(body), [""]);
    JoinAppend([""], Lines(block));
    JoinAppend(Lines(body), [""] + Lines(block));
    LinesJoin(Lines(body) + ([""] + Lines(block)));
    Assoc(Lines(body), [""], Lines(block));
  }

  /** The body of a splice still has no opening and no unsupported form. */
  lemma BodyIsClean(src: string, name: string, body: string)
    requires !Refused(src, name) && body == StripNewlines(Join(Outside(Lines(src), name))) && body != ""
    ensures NoOpening(Lines(body), name) && !HasUnsupportedForm(Lines(body))
  {
    hide OpensOurTable, Unsupported, IsTableHeader;
    var outside := Outside(Lines(src), name);
    OutsideOpenings(Lines(src), name);
    OpeningsNone(outside, name);
    OutsideComesFrom(Lines(src), name);
    var k := StripSplits(Join(outside));
    BodyLines(body, k, outside);
  }

  lemma OutsideComesFrom(lines: seq<string>, name: string)
    ensures forall l | l in Outside(lines, name) :: l in lines
  {
    hide OpensOurTable, IsTableHeader;
  }

  lemma BodyLines(body: string, k: nat, outside: seq<string>)
    requires NoNewlines(outside) && body != "" && Join(outside) == body + Newlines(k)
    ensures Lines(body) <= outside && forall i | |Lines(body)| <= i < |outside| :: outside[i] == ""
    ensures |outside| == |Lines(body)| + k
  {
    assert outside != [];
    hide Lines, Join;
    LinesJoin(outside);
    LinesThenNewlines(body, k);
  }

  function Blanks(k: nat): (r: seq<string>)
    ensures |r| == k && forall i | 0 <= i < k :: r[i] == ""
  {
    if k == 0 then [] else Blanks(k - 1) + [""]
  }

  lemma OneMoreNewline(body: string, k: nat)
    requires k > 0
    ensures body + Newlines(k) == body + Newlines(k - 1) + "\n"
  {
  }

  lemma EndOfLine(s: string)
    ensures Lines(s + "\n") == Lines(s) + [""]
  {
    hide Lines, Join;
    JoinLines(s);
    JoinOne("");
    JoinAppend(Lines(s), [""]);
    assert s + "\n" + "" == s + "\n";
    LinesJoin(Lines(s) + [""]);
  }

  lemma {:induction false} LinesThenNewlines(body: string, k: nat)
    ensures Lines(body + Newlines(k)) == Lines(body) + Blanks(k)
  {
    if k == 0 {
      assert body + Newlines(0) == body;
      assert Lines(body) + [] == Lines(body);
    } else {
      hide Lines, Newlines;
      LinesThenNewlines(body, k - 1);
      OneMoreNewline(body, k);
      EndOfLine(body + Newlines(k - 1));
      Assoc(Lines(body), Blanks(k - 1), [""]);
    }
  }

  /** `out` is the first `n` lines outside, a blank line if there are any, and the block; what
      is dropped of the lines outside is blank. */
  predicate Kept(outside: seq<string>, n: nat, block: seq<string>, out: seq<string>) {
    && n <= |outside| && (forall i | n <= i < |outside| :: outside[i] == "")
    && out == (if n == 0 then [] else outside[..n] + [""]) + block
  }

  /** Splicing keeps every line outside our old table, in order, up to blank lines at the end. */
  lemma SpliceKeepsOutside(src: string, block: string, name: string) returns (n: nat)
    requires !Refused(src, name) && OurBlock(block, name)
    ensures Kept(Outside(Lines(src), name), n, Lines(block), Lines(Spliced(src, block, name)))
  {
    hide OpensOurTable, Unsupported, IsTableHeader, OurBlock;
    var outside := Outside(Lines(src), name);
    var body := StripNewlines(Join(outside));
    var k := StripSplits(Join(outside));
    OutsideComesFrom(Lines(src), name);
    hide Outside, StripNewlines;
    if body == "" {
      n := 0;
      AllBlank(outside, k);
      assert [] + Lines(block) == Lines(block);
    } else {
      n := |Lines(body)|;
      BodyLines(body, k, outside);
      SplicedLines(body, block, name);
      assert outside[..n] == Lines(body);
    }
  }

  lemma AllBlank(outside: seq<string>, k: nat)
    requires NoNewlines(outside) && Join(outside) == "" + Newlines(k)
    ensures forall i | 0 <= i < |outside| :: outside[i] == ""
  {
    if outside != [] {
      LinesJoin(outside);
      LinesThenNewlines("", k);
      OneLine("");
    }
  }

  /** The result has exactly one opening of our table and is never refused. */
  lemma SpliceLeavesOne(src: string, block: string, name: string)
    requires !Refused(src, name) && OurBlock(block, name)
    ensures var out := Spliced(src, block, name);
            && Openings(Lines(out), name) == 1 && !Refused(out, name)
            && var body := StripNewlines(Join(Outside(Lines(src), name)));
               Outside(Lines(out), name) == if body == "" then [] else Lines(body) + [""]
  {
    hide OpensOurTable, Unsupported, IsTableHeader;
    var body := StripNewlines(Join(Outside(Lines(src), name)));
    if body == "" {
      assert [] + Lines(block) == Lines(block);
      BlockDropsOff([], Lines(block), name);
    } else {
      BodyIsClean(src, name, body);
      SplicedLines(body, block, name);
      BlankIsNothing(name);
      BlockDropsOff(Lines(body) + [""], Lines(block), name);
    }
  }

  lemma BlankIsNothing(name: string)
    ensures !OpensOurTable("", name) && !Unsupported("") && !IsTableHeader("")
  {
  }

  /** Splicing twice is splicing once. */
  lemma SpliceIsIdempotent(src: string, block: string, name: string)
    requires !Refused(src, name) && OurBlock(block, name)
    ensures Spliced(Spliced(src, block, name), block, name) == Spliced(src, block, name)
  {
    hide OpensOurTable, Unsupported, IsTableHeader, OurBlock;
    SpliceLeavesOne(src, block, name);
    var body := StripNewlines(Join(Outside(Lines(src), name)));
    if body != "" {
      SplicedLines(body, block, name);
      StripUndoes(body, 1);
      assert body + Newlines(1) == body + "\n";
    }
  }

  /** A source that remove can give back: nothing of ours, and either empty or some text and
      then exactly one newline. */
  predicate Restorable(src: string, name: string) {
    && NoOpening(Lines(src), name)
    && (src == "" || (|src| >= 2 && src[|src| - 1] == '\n' && src[|src| - 2] != '\n'))
  }

  /** What removing the spliced table leaves. */
  lemma RemoveAfterSplice(src: string, block: string, name: string)
    requires !Refused(src, name) && OurBlock(block, name)
    ensures var body := StripNewlines(Join(Outside(Lines(src), name)));
            Join(Outside(Lines(Spliced(src, block, name)), name)) == if body == "" then "" else body + "\n"
  {
    hide OpensOurTable, Unsupported, IsTableHeader, OurBlock;
    SpliceLeavesOne(src, block, name);
    var body := StripNewlines(Join(Outside(Lines(src), name)));
    if body != "" {
      SplicedLines(body, block, name);
    }
  }

  lemma StripOne(src: string)
    requires |src| >= 2 && src[|src| - 1] == '\n' && src[|src| - 2] != '\n'
    ensures StripNewlines(src) != "" && src == StripNewlines(src) + "\n"
  {
    var b := src[..|src| - 1];
    StripUndoes(b, 1);
    assert src == b + Newlines(1);
  }

  /** Stripping the one final newline of a restorable source. */
  lemma RestorableBody(src: string, name: string)
    requires Restorable(src, name)
    ensures var body := StripNewlines(Join(Outside(Lines(src), name))); src == if body == "" then "" else body + "\n"
  {
    NothingOfOurs(Lines(src), name);
    JoinLines(src);
    hide OpensOurTable, Lines, Join, Outside;
    if src != "" {
      hide StripNewlines;
      StripOne(src);
    }
  }

  /** A clean body and one newline make a restorable source. */
  lemma BodyIsRestorable(body: string, name: string)
    requires body == "" || (body[|body| - 1] != '\n' && NoOpening(Lines(body), name))
    ensures Restorable(if body == "" then "" else body + "\n", name)
  {
    hide OpensOurTable, Lines, Unsupported, IsTableHeader;
    BlankIsNothing(name);
    if body == "" {
      OneLine("");
    } else {
      EndOfLine(body);
      var src := body + "\n";
      assert src[|src| - 2] == body[|body| - 1];
      BlankOpensNothing(Lines(body), name);
    }
  }

  lemma BlankOpensNothing(lines: seq<string>, name: string)
    requires NoOpening(lines, name) && !OpensOurTable("", name)
    ensures NoOpening(lines + [""], name)
  {
    hide OpensOurTable;
  }

  /** Splicing and then removing gives the source back exactly for those sources. */
  lemma SpliceThenRemove(src: string, block: string, name: string)
    requires !Refused(src, name) && OurBlock(block, name)
    ensures Join(Outside(Lines(Spliced(src, block, name)), name)) == src <==> Restorable(src, name)
  {
    hide OpensOurTable, Unsupported, IsTableHeader, OurBlock, Restorable, Outside, Spliced;
    RemoveAfterSplice(src, block, name);
    var body := StripNewlines(Join(Outside(Lines(src), name)));
    if Restorable(src, name) {
      RestorableBody(src, name);
    }
    if body != "" {
      BodyIsClean(src, name, body);
    }
    BodyIsRestorable(body, name);
  }

  // ---- The block this program writes ----------------------------------------------------------

  const ENTRY := "termipod-desktop"

  /** `relay` is where the relay script was copied to. */
  function CodexEntryBlock(relay: string): string {
    ("[mcp_servers." + ENTRY + "]") + "\n" + (("command = " + Quoted("node")) + "\n" + (("args = [" + Quoted(relay) + "]") + "\n"))
  }

  lemma ThreeLines(a: string, b: string, c: string)
    requires '\n' !in a && '\n' !in b && '\n' !in c
    ensures Lines(a + "\n" + (b + "\n" + (c + "\n"))) == [a, b, c, ""]
  {
    hide Lines;
    OneLine("");
    EndOfLine(c);
    OneLine(c);
    LinesCons(b, c + "\n");
    LinesCons(a, b + "\n" + (c + "\n"));
  }

  lemma CodexBlockLines(relay: string)
    ensures Lines(CodexEntryBlock(relay)) ==
            ["[mcp_servers." + ENTRY + "]", "command = " + Quoted("node"), "args = [" + Quoted(relay) + "]", ""]
  {
    hide Lines, Quoted;
    QuotedIsOneLine(relay);
    QuotedIsOneLine("node");
    ThreeLines("[mcp_servers." + ENTRY + "]", "command = " + Quoted("node"), "args = [" + Quoted(relay) + "]");
  }

  /** A line that starts with a letter other than the one of `mcp_servers`. */
  lemma OrdinaryLine(l: string)
    requires l != "" && (l[0] == 'c' || l[0] == 'a' || l[0] == '[')
    ensures !Unsupported(l) && (l[0] != '[' ==> !IsTableHeader(l))
  {
    assert !IsSpace(l[0]) && TrimStart(l) == l;
    hide IsSpace, TrimStart;
    OtherStart(l, "mcp_servers");
    if l[0] != '[' { OtherStart(l, "["); }
  }

  lemma OtherStart(l: string, prefix: string)
    requires l != "" && prefix != "" && l[0] != prefix[0]
    ensures !StartsWith(l, prefix)
  {
    assert |prefix| <= |l| ==> l[..|prefix|][0] == l[0];
  }

  /** The block this program writes is one it may splice, whatever the path in it. */
  lemma CodexBlockIsOurs(relay: string)
    ensures OurBlock(CodexEntryBlock(relay), ENTRY)
  {
    CodexBlockLines(relay);
    HeaderOpens();
    BlankIsNothing(ENTRY);
    hide OpensOurTable, Unsupported, IsTableHeader, Lines, Quoted;
    var ls := Lines(CodexEntryBlock(relay));
    OrdinaryLine(ls[0]);
    OrdinaryLine(ls[1]);
    OrdinaryLine(ls[2]);
  }

  lemma BracketsOpen(inner: string, name: string)
    requires inner == "mcp_servers." + name && forall c | c in inner :: !IsSpace(c)
    ensures OpensOurTable(['['] + inner + [']'], name)
  {
    var l := ['['] + inner + [']'];
    assert !IsSpace('[') && !IsSpace(']');
    hide IsSpace;
    TrimKeeps(l);
    assert l[1..|l| - 1] == inner;
    NoSpacesInside(inner);
    hide WithoutSpaces, Trim;
  }

  lemma EntryHasNoSpaces()
    ensures forall c | c in "mcp_servers." + ENTRY :: !IsSpace(c)
  {
  }

  lemma HeaderOpens()
    ensures OpensOurTable("[mcp_servers." + ENTRY + "]", ENTRY)
  {
    EntryHasNoSpaces();
    hide IsSpace, OpensOurTable;
    var inner := "mcp_servers." + ENTRY;
    BracketsOpen(inner, ENTRY);
    assert "[mcp_servers." + ENTRY + "]" == ['['] + inner + [']'];
  }

  lemma {:induction false} NoSpacesInside(s: string)
    requires forall c | c in s :: !IsSpace(c)
    ensures WithoutSpaces(s) == s
  {
    if s != "" {
      NoSpacesInside(s[1..]);
      assert s == [s[0]] + s[1..];
    }
  }
}
