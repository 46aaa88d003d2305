/** JavaScript string operations over characters: splitting and joining lines, trimming. */
module Text {

  lemma Assoc<T>(a: seq<T>, b: seq<T>, c: seq<T>)
    ensures (a + b) + c == a + (b + c)
  {
  }

  function Concat(parts: seq<string>): string {
    if parts == [] then "" else parts[0] + Concat(parts[1..])
  }

  predicate StartsWith(s: string, prefix: string) {
    |prefix| <= |s| && s[..|prefix|] == prefix
  }

  /** The white space of `trim` and of `\s`. */
  predicate IsSpace(c: char) {
    || c == ' ' || '\t' <= c <= '\r' || c == '\U{A0}' || c == '\U{1680}' || '\U{2000}' <= c <= '\U{200A}'
    || c == '\U{2028}' || c == '\U{2029}' || c == '\U{202F}' || c == '\U{205F}' || c == '\U{3000}' || c == '\U{FEFF}'
  }

  function TrimStart(s: string): (r: string)
    ensures |r| <= |s| && r == s[|s| - |r|..]
    ensures r != "" ==> !IsSpace(r[0])
  {
    if s != "" && IsSpace(s[0]) then TrimStart(s[1..]) else s
  }

  function TrimEnd(s: string): (r: string)
    ensures |r| <= |s| && r == s[..|r|]
    ensures r != "" ==> !IsSpace(r[|r| - 1])
  {
    if s != "" && IsSpace(s[|s| - 1]) then TrimEnd(s[..|s| - 1]) else s
  }

  function Trim(s: string): string {
    TrimEnd(TrimStart(s))
  }

  /** No white space at either end. */
  predicate Trimmed(s: string) {
    s == "" || (!IsSpace(s[0]) && !IsSpace(s[|s| - 1]))
  }

  lemma TrimKeeps(s: string)
    requires Trimmed(s)
    ensures TrimStart(s) == TrimEnd(s) == Trim(s) == s
  {
  }

  /** The first place from `i` on whose element satisfies `p`, or the length. */
  function IndexWhere<T>(s: seq<T>, p: T -> bool, i: nat): (r: nat)
    requires i <= |s|
    ensures i <= r <= |s|
    ensures r < |s| ==> p(s[r])
    ensures forall j | i <= j < r :: !p(s[j])
    decreases |s| - i
  {
    if i == |s| || p(s[i]) then i else IndexWhere(s, p, i + 1)
  }

  /** `toLowerCase` on the ASCII letters. */
  function LowerChar(c: char): char {
    if 'A' <= c <= 'Z' then (c as int + 32) as char else c
  }

  function Lower(s: string): (r: string)
    ensures |r| == |s|
  {
    seq(|s|, i requires 0 <= i < |s| => LowerChar(s[i]))
  }

  /** `xs.reduce(f, s)`. */
  function Fold<S, X>(f: (S, X) -> S, s: S, xs: seq<X>): S
    decreases |xs|
  {
    if xs == [] then s else Fold(f, f(s, xs[0]), xs[1..])
  }

  lemma FoldOne<S, X>(f: (S, X) -> S, s: S, x: X)
    ensures Fold(f, s, [x]) == f(s, x)
  {
    assert [x][1..] == [];
  }

  lemma {:induction false} FoldAppend<S, X>(f: (S, X) -> S, s: S, a: seq<X>, b: seq<X>)
    ensures Fold(f, s, a + b) == Fold(f, Fold(f, s, a), b)
    decreases |a|
  {
    if a == [] {
      assert a + b == b;
    } else {
      assert (a + b)[1..] == a[1..] + b;
      FoldAppend(f, f(s, a[0]), a[1..], b);
    }
  }

  // ---- Lines ------------------------------------------------------------------

  function LineEnd(s: string, i: nat): (r: nat)
    requires i <= |s|
    ensures i <= r <= |s|
    ensures r < |s| ==> s[r] == '\n'
    ensures forall j | i <= j < r :: s[j] != '\n'
    decreases |s| - i
  {
    if i == |s| || s[i] == '\n' then i else LineEnd(s, i + 1)
  }

  /** `s.split('\n')`. */
  function Lines(s: string): (r: seq<string>)
    ensures |r| >= 1
    ensures forall l | l in r :: '\n' !in l
    decreases |s|
  {
    var i := LineEnd(s, 0);
    if i == |s| then [s] else [s[..i]] + Lines(s[i + 1..])
  }

  /** `parts.join('\n')`. */
  function Join(parts: seq<string>): string {
    if parts == [] then "" else if |parts| == 1 then parts[0] else parts[0] + "\n" + Join(parts[1..])
  }

  predicate NoNewlines(parts: seq<string>) {
    forall l | l in parts :: '\n' !in l
  }

  lemma {:induction false} JoinLines(s: string)
    ensures Join(Lines(s)) == s
    decreases |s|
  {
    var i := LineEnd(s, 0);
    if i < |s| {
      JoinLines(s[i + 1..]);
      assert Lines(s)[1..] == Lines(s[i + 1..]);
      assert s == s[..i] + "\n" + s[i + 1..];
    }
  }

  lemma LinesCons(l: string, rest: string)
    requires '\n' !in l
    ensures Lines(l + "\n" + rest) == [l] + Lines(rest)
  {
    var s := l + "\n" + rest;
    assert s[|l|] == '\n';
    assert forall j | 0 <= j < |l| :: s[j] == l[j];
    assert LineEnd(s, 0) == |l|;
    assert s[..|l|] == l && s[|l| + 1..] == rest;
  }

  lemma OneLine(l: string)
    requires '\n' !in l
    ensures Lines(l) == [l]
  {
    assert LineEnd(l, 0) == |l|;
  }

  lemma {:induction false} LinesJoin(parts: seq<string>)
    requires parts != [] && NoNewlines(parts)
    ensures Lines(Join(parts)) == parts
  {
    assert parts[0] in parts;
    if |parts| == 1 {
      OneLine(parts[0]);
    } else {
      LinesJoin(parts[1..]);
      LinesCons(parts[0], Join(parts[1..]));
    }
  }

  lemma JoinOne(l: string)
    ensures Join([l]) == l
  {
  }

  lemma {:induction false} JoinAppend(a: seq<string>, b: seq<string>)
    requires a != [] && b != []
    ensures Join(a + b) == Join(a) + "\n" + Join(b)
  {
    if |a| == 1 {
      assert (a + b)[1..] == b;
    } else {
      JoinAppend(a[1..], b);
      assert (a + b)[1..] == a[1..] + b;
      assert a[0] + "\n" + (Join(a[1..]) + "\n" + Join(b)) == (a[0] + "\n" + Join(a[1..])) + "\n" + Join(b);
    }
  }
}
