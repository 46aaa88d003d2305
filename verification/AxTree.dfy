/** The accessibility outline a browser snapshot hands to an agent. */
module AxTree {
  import opened Options
  import opened Text
  import opened Decimals

  datatype AxNode = AxNode(
    id: string, ignored: bool, role: string, name: string, value: Option<string>, backend: Option<int>, children: seq<string>)

  /** A walk of the page from its root: the nodes from the root down to one node. */
  type Path = p: seq<AxNode> | p != [] witness [AxNode("", true, "", "", None, None, [])]

  function Last(p: Path): AxNode {
    p[|p| - 1]
  }

  function Role(n: AxNode): string {
    Lower(n.role)
  }

  /** A node that makes a line of its own and indents what is below it. */
  predicate Shown(n: AxNode) {
    !n.ignored && Role(n) != ""
  }

  const INTERACTIVE := {
    "button", "checkbox", "combobox", "link", "listbox", "menuitem", "menuitemcheckbox", "menuitemradio",
    "option", "radio", "searchbox", "slider", "spinbutton", "switch", "tab", "textbox"}

  predicate HasRef(n: AxNode) {
    Role(n) in INTERACTIVE && n.backend.Some?
  }

  /** How many of the nodes make lines. */
  function ShownCount(nodes: seq<AxNode>): nat {
    if nodes == [] then 0 else ShownCount(nodes[..|nodes| - 1]) + if Shown(nodes[|nodes| - 1]) then 1 else 0
  }

  /** The depth of the last node: its shown ancestors. */
  function Depth(p: Path): nat {
    ShownCount(p[..|p| - 1])
  }

  // ---- The page as the compactor sees it ------------------------------------------------

  /** `byId` of the snapshot and the two bounds. */
  datatype Page = Page(byId: map<string, AxNode>, maxNodes: nat, maxDepth: nat)

  function ById(nodes: seq<AxNode>): map<string, AxNode> {
    if nodes == [] then map[] else ById(nodes[..|nodes| - 1])[nodes[|nodes| - 1].id := nodes[|nodes| - 1]]
  }

  predicate IsChild(nodes: seq<AxNode>, id: string) {
    exists n | n in nodes :: id in n.children
  }

  /** The first node nobody lists as a child; the first node when every one is listed. */
  function Root(nodes: seq<AxNode>): (r: AxNode)
    requires nodes != []
    ensures r in nodes
    ensures (forall n | n in nodes :: IsChild(nodes, n.id)) ==> r == nodes[0]
    ensures forall k | 0 <= k < |nodes| && !IsChild(nodes, nodes[k].id) ::
              !IsChild(nodes, r.id) && exists j | 0 <= j <= k :: nodes[j] == r && forall i | 0 <= i < j :: IsChild(nodes, nodes[i].id)
  {
    var i := IndexWhere(nodes, (n: AxNode) => !IsChild(nodes, n.id), 0);
    if i < |nodes| then nodes[i] else nodes[0]
  }

  predicate Edge(g: Page, parent: AxNode, child: AxNode) {
    exists k | 0 <= k < |parent.children| :: parent.children[k] in g.byId && g.byId[parent.children[k]] == child
  }

  /** A walk along child links. */
  predicate IsWalk(g: Page, p: Path) {
    forall i | 0 < i < |p| :: Edge(g, p[i - 1], p[i])
  }

  // ---- The order of visits -----------------------------------------------------------------

  datatype Visits = Visits(paths: seq<Path>, truncated: bool)

  function Visit(g: Page, w: Visits, p: Path): (r: Visits)
    requires |w.paths| <= g.maxNodes
    ensures |w.paths| <= |r.paths| <= g.maxNodes && r.paths[..|w.paths|] == w.paths
    ensures w.truncated ==> r.truncated
    decreases g.maxNodes - |w.paths|, 0
  {
    if |w.paths| >= g.maxNodes then w.(truncated := true)
    else
      var v := w.(paths := w.paths + [p]);
      if Depth(p) > g.maxDepth then v.(truncated := true) else VisitAll(g, v, p, Last(p).children)
  }

  function VisitAll(g: Page, w: Visits, p: Path, ids: seq<string>): (r: Visits)
    requires |w.paths| <= g.maxNodes
    ensures |w.paths| <= |r.paths| <= g.maxNodes && r.paths[..|w.paths|] == w.paths
    ensures w.truncated ==> r.truncated
    decreases g.maxNodes - |w.paths|, |ids| + 1
  {
    if ids == [] then w
    else
      var v := if ids[0] in g.byId then Visit(g, w, p + [g.byId[ids[0]]]) else w;
      VisitAll(g, v, p, ids[1..])
  }

  function Visited(g: Page, root: AxNode): Visits {
    Visit(g, Visits([], false), [root])
  }

  // ---- Every visit is a walk, in preorder ------------------------------------------------------

  /** Each visit adds one node to a beginning of the visit before it. */
  predicate Preorder(paths: seq<Path>) {
    forall i | 0 < i < |paths| :: paths[i][..|paths[i]| - 1] <= paths[i - 1]
  }

  /** What one subtree adds: walks below `p` in preorder, none reached through a node too deep. */
  predicate Extends(g: Page, w: Visits, r: Visits, p: Path) {
    && (forall i | |w.paths| <= i < |r.paths| :: p <= r.paths[i] && IsWalk(g, r.paths[i]))
    && Preorder(r.paths)
  }

  lemma WalkOn(g: Page, p: Path, k: nat)
    requires IsWalk(g, p) && k < |Last(p).children| && Last(p).children[k] in g.byId
    ensures IsWalk(g, p + [g.byId[Last(p).children[k]]])
  {
    var c := g.byId[Last(p).children[k]];
    var q := p + [c];
    forall i | 0 < i < |q|
      ensures Edge(g, q[i - 1], q[i])
    {
      if i < |p| { assert Edge(g, p[i - 1], p[i]); }
    }
  }

  lemma {:induction false} VisitExtends(g: Page, w: Visits, p: Path)
    requires |w.paths| <= g.maxNodes && IsWalk(g, p) && Preorder(w.paths)
    requires w.paths != [] ==> p[..|p| - 1] <= w.paths[|w.paths| - 1]
    ensures Extends(g, w, Visit(g, w, p), p)
    decreases g.maxNodes - |w.paths|, 0
  {
    hide IsWalk, Depth;
    if |w.paths| < g.maxNodes {
      var v := w.(paths := w.paths + [p]);
      assert Preorder(v.paths);
      if Depth(p) <= g.maxDepth { VisitAllExtends(g, v, p, 0); }
    }
  }

  lemma {:induction false} VisitAllExtends(g: Page, w: Visits, p: Path, k: nat)
    requires |w.paths| <= g.maxNodes && IsWalk(g, p) && Preorder(w.paths) && k <= |Last(p).children|
    requires w.paths != [] && p <= w.paths[|w.paths| - 1]
    ensures Extends(g, w, VisitAll(g, w, p, Last(p).children[k..]), p)
    decreases g.maxNodes - |w.paths|, |Last(p).children| - k + 1
  {
    hide IsWalk, Visit;
    var ids := Last(p).children[k..];
    if ids != [] {
      var v := if ids[0] in g.byId then Visit(g, w, p + [g.byId[ids[0]]]) else w;
      if ids[0] in g.byId {
        WalkOn(g, p, k);
        var q := p + [g.byId[ids[0]]];
        assert q[..|q| - 1] == p;
        VisitExtends(g, w, q);
        assert Extends(g, w, v, q);
        assert forall i | |w.paths| <= i < |v.paths| :: p <= v.paths[i];
        assert |v.paths| == |w.paths| ==> v.paths == w.paths;
      }
      VisitAllExtends(g, v, p, k + 1);
      assert ids[1..] == Last(p).children[k + 1..];
      var r := VisitAll(g, v, p, ids[1..]);
      forall i | |w.paths| <= i < |r.paths|
        ensures p <= r.paths[i] && IsWalk(g, r.paths[i])
      {
        if i < |v.paths| { assert r.paths[..|v.paths|][i] == v.paths[i]; }
      }
    }
  }

  // ---- Nothing is left out unless the result says so ---------------------------------------------

  /** Every walk from `p` on is among the visits, and none is too deep. */
  ghost predicate Covers(g: Page, r: Visits, p: Path) {
    forall q: Path | p <= q && IsWalk(g, q) :: q in r.paths && Depth(q) <= g.maxDepth
  }

  lemma MoreVisitsCover(g: Page, v: Visits, r: Visits, p: Path)
    requires Covers(g, v, p) && |v.paths| <= |r.paths| && r.paths[..|v.paths|] == v.paths
    ensures Covers(g, r, p)
  {
    forall q: Path | p <= q && IsWalk(g, q)
      ensures q in r.paths && Depth(q) <= g.maxDepth
    {
      var i :| 0 <= i < |v.paths| && v.paths[i] == q;
      assert r.paths[..|v.paths|][i] == r.paths[i];
    }
  }

  lemma {:induction false} VisitCovers(g: Page, w: Visits, p: Path)
    requires |w.paths| <= g.maxNodes && !Visit(g, w, p).truncated
    ensures Covers(g, Visit(g, w, p), p)
    decreases g.maxNodes - |w.paths|, 0
  {
    hide Depth, IsWalk;
    var v := w.(paths := w.paths + [p]);
    var r := VisitAll(g, v, p, Last(p).children);
    VisitAllCovers(g, v, p, 0);
    forall q: Path | p <= q && IsWalk(g, q)
      ensures q in r.paths && Depth(q) <= g.maxDepth
    {
      if q == p {
        assert r.paths[..|v.paths|][|w.paths|] == p;
      } else {
        FirstStep(g, p, q);
        var k :| 0 <= k < |Last(p).children| && Last(p).children[k] in g.byId && p + [g.byId[Last(p).children[k]]] <= q;
        assert Covers(g, r, p + [g.byId[Last(p).children[k]]]);
      }
    }
  }

  lemma FirstStep(g: Page, p: Path, q: Path)
    requires p <= q && p != q && IsWalk(g, q)
    ensures exists k | 0 <= k < |Last(p).children| :: Last(p).children[k] in g.byId && p + [g.byId[Last(p).children[k]]] <= q
  {
    assert Edge(g, q[|p| - 1], q[|p|]);
    var k :| 0 <= k < |Last(p).children| && Last(p).children[k] in g.byId && g.byId[Last(p).children[k]] == q[|p|];
    assert p + [q[|p|]] == q[..|p| + 1];
  }

  lemma {:induction false} VisitAllCovers(g: Page, w: Visits, p: Path, k: nat)
    requires |w.paths| <= g.maxNodes && k <= |Last(p).children|
    requires !VisitAll(g, w, p, Last(p).children[k..]).truncated
    ensures forall j | k <= j < |Last(p).children| && Last(p).children[j] in g.byId ::
              Covers(g, VisitAll(g, w, p, Last(p).children[k..]), p + [g.byId[Last(p).children[j]]])
    decreases g.maxNodes - |w.paths|, |Last(p).children| - k + 1
  {
    hide Covers, Visit;
    var ids := Last(p).children[k..];
    if ids != [] {
      var v := if ids[0] in g.byId then Visit(g, w, p + [g.byId[ids[0]]]) else w;
      assert ids[1..] == Last(p).children[k + 1..];
      VisitAllCovers(g, v, p, k + 1);
      if ids[0] in g.byId {
        VisitCovers(g, w, p + [g.byId[ids[0]]]);
        MoreVisitsCover(g, v, VisitAll(g, v, p, ids[1..]), p + [g.byId[ids[0]]]);
      }
    }
  }

  /** The result is marked truncated only when the budget is spent or a walk goes too deep. */
  predicate Reason(g: Page, r: Visits) {
    |r.paths| == g.maxNodes || exists q | q in r.paths :: Depth(q) > g.maxDepth
  }

  lemma {:induction false} VisitReason(g: Page, w: Visits, p: Path)
    requires |w.paths| <= g.maxNodes && (w.truncated ==> Reason(g, w))
    ensures Visit(g, w, p).truncated ==> Reason(g, Visit(g, w, p))
    decreases g.maxNodes - |w.paths|, 0
  {
    hide Depth;
    if |w.paths| < g.maxNodes {
      var v := w.(paths := w.paths + [p]);
      assert v.paths[|w.paths|] == p;
      assert w.truncated ==> Reason(g, v) by {
        if w.truncated {
          var q :| q in w.paths && Depth(q) > g.maxDepth;
          assert q in v.paths;
        }
      }
      if Depth(p) <= g.maxDepth { VisitAllReason(g, v, p, Last(p).children); }
    }
  }

  lemma {:induction false} VisitAllReason(g: Page, w: Visits, p: Path, ids: seq<string>)
    requires |w.paths| <= g.maxNodes && (w.truncated ==> Reason(g, w))
    ensures VisitAll(g, w, p, ids).truncated ==> Reason(g, VisitAll(g, w, p, ids))
    decreases g.maxNodes - |w.paths|, |ids| + 1
  {
    hide Reason, Visit;
    if ids != [] {
      var v := if ids[0] in g.byId then Visit(g, w, p + [g.byId[ids[0]]]) else w;
      if ids[0] in g.byId { VisitReason(g, w, p + [g.byId[ids[0]]]); }
      VisitAllReason(g, v, p, ids[1..]);
    }
  }

  // ---- What is printed ----------------------------------------------------------------------

  const AX_MAX_NODES := 400
  const AX_MAX_DEPTH := 24
  const AX_MAX_NAME := 120

  function Clip(s: string): (r: string)
    ensures |r| <= AX_MAX_NAME
    ensures |s| <= AX_MAX_NAME ==> r == s
    ensures |s| > AX_MAX_NAME ==> |r| == AX_MAX_NAME && r[..AX_MAX_NAME - 1] == s[..AX_MAX_NAME - 1] && r[AX_MAX_NAME - 1] == '…'
  {
    if |s| > AX_MAX_NAME then s[..AX_MAX_NAME - 1] + "…" else s
  }

  function Indent(n: nat): string {
    if n == 0 then "" else "  " + Indent(n - 1)
  }

  function RefName(k: nat): string {
    "@e" + Show(k)
  }

  function RenderAt(n: AxNode, depth: nat, ref: Option<nat>): string {
    Indent(depth) + "- " + Role(n)
    + (if n.name != "" then " \"" + Clip(n.name) + "\"" else "")
    + (if n.value.Some? && n.value.value != "" then " = " + Clip(n.value.value) else "")
    + (match ref
       case Some(k) => " [ref=" + RefName(k) + "]"
       case None => "")
  }

  predicate Contains(s: string, part: string) {
    exists i | 0 <= i <= |s| :: part <= s[i..]
  }

  lemma ContainsPart(a: string, part: string, b: string)
    ensures Contains(a + part + b, part)
  {
    assert (a + part + b)[|a|..] == part + b;
  }

  function LengthIf(c: bool, part: string): nat {
    if c then |part| else 0
  }

  lemma {:induction false} IndentLength(n: nat)
    ensures |Indent(n)| == 2 * n
  {
    if n > 0 { IndentLength(n - 1); }
  }

  /** What a line says: two spaces a level, a dash, the role, and after it the name in quotes, the
      value and the reference, each if there is one, and nothing else. */
  lemma LineSays(n: AxNode, depth: nat, ref: Option<nat>)
    ensures var s := RenderAt(n, depth, ref);
            var name, value := " \"" + Clip(n.name) + "\"", " = " + Clip(n.value.GetOr(""));
            var tag := " [ref=" + RefName(ref.GetOr(0)) + "]";
            && Indent(depth) + "- " + Role(n) <= s
            && (n.name != "" ==> Contains(s, name)) && (n.value.GetOr("") != "" ==> Contains(s, value)) && (ref.Some? ==> Contains(s, tag))
            && |s| == 2 * depth + 2 + |Role(n)| + LengthIf(n.name != "", name) + LengthIf(n.value.GetOr("") != "", value) + LengthIf(ref.Some?, tag)
  {
    var start := Indent(depth) + "- " + Role(n);
    var name := if n.name != "" then " \"" + Clip(n.name) + "\"" else "";
    var value := if n.value.GetOr("") != "" then " = " + Clip(n.value.value) else "";
    var tag := if ref.Some? then " [ref=" + RefName(ref.value) + "]" else "";
    IndentLength(depth);
    assert RenderAt(n, depth, ref) == start + name + value + tag;
    hide RenderAt, Clip, RefName, Indent, Role;
    LineParts(start, name, value, tag);
    hide Contains;
  }

  lemma LineParts(start: string, name: string, value: string, tag: string)
    ensures var s := start + name + value + tag;
            start <= s && Contains(s, name) && Contains(s, value) && Contains(s, tag) && |s| == |start| + |name| + |value| + |tag|
  {
    hide Contains;
    var s := start + name + value + tag;
    ContainsPart(start, name, value + tag);
    assert s == start + name + (value + tag);
    ContainsPart(start + name, value, tag);
    ContainsPart(start + name + value, tag, "");
    assert s + "" == s;
  }

  function Render(p: Path, ref: Option<nat>): string {
    RenderAt(Last(p), Depth(p), ref)
  }

  predicate Listed(g: Page, p: Path) {
    Shown(Last(p)) && Depth(p) <= g.maxDepth
  }

  /** The visits that make lines. */
  function Entries(g: Page, paths: seq<Path>): (r: seq<Path>)
    ensures forall p | p in r :: p in paths && Listed(g, p)
  {
    if paths == [] then []
    else Entries(g, paths[..|paths| - 1]) + if Listed(g, paths[|paths| - 1]) then [paths[|paths| - 1]] else []
  }

  function RefCount(entries: seq<Path>): nat {
    if entries == [] then 0
    else RefCount(entries[..|entries| - 1]) + if HasRef(Last(entries[|entries| - 1])) then 1 else 0
  }

  /** The number printed on entry `k`, if it gets one. */
  function RefOf(entries: seq<Path>, k: nat): Option<nat>
    requires k < |entries|
  {
    if HasRef(Last(entries[k])) then Some(RefCount(entries[..k]) + 1) else None
  }

  function Rendered(entries: seq<Path>): (r: seq<string>)
    ensures |r| == |entries|
    ensures forall k | 0 <= k < |r| :: r[k] == Render(entries[k], RefOf(entries, k))
  {
    seq(|entries|, k requires 0 <= k < |entries| => Render(entries[k], RefOf(entries, k)))
  }

  /** The reference map, in insertion order. */
  function Refs(entries: seq<Path>): (r: seq<(string, int)>)
    ensures |r| == RefCount(entries)
  {
    if entries == [] then []
    else
      var n := Last(entries[|entries| - 1]);
      var before := Refs(entries[..|entries| - 1]);
      if HasRef(n) then before + [(RefName(|before| + 1), n.backend.value)] else before
  }

  // ---- The outline shows the nesting -----------------------------------------------------------

  lemma {:induction false} ShownCountGrows(a: seq<AxNode>, b: seq<AxNode>)
    requires a <= b
    ensures ShownCount(a) <= ShownCount(b)
    ensures a != b && |a| > 0 && Shown(a[|a| - 1]) ==> ShownCount(a[..|a| - 1]) < ShownCount(b[..|b| - 1])
    decreases |b|
  {
    if a == b {
    } else {
      assert a <= b[..|b| - 1];
      ShownCountGrows(a, b[..|b| - 1]);
    }
  }

  /** A visited walk has each of its beginnings visited before, and all between go through it. */
  lemma {:induction false} BeginningsAreVisited(paths: seq<Path>, v: nat, q: Path) returns (u: nat)
    requires Preorder(paths) && v < |paths| && |paths[0]| == 1 && q <= paths[v] && q != paths[v]
    ensures u < v && paths[u] == q
    ensures forall j | u < j <= v :: q <= paths[j] && q != paths[j]
    decreases v
  {
    assert v > 0;
    assert q <= paths[v][..|paths[v]| - 1] <= paths[v - 1];
    if q == paths[v - 1] { u := v - 1; } else { u := BeginningsAreVisited(paths, v - 1, q); }
  }

  /** The nearest shown node above the last one. */
  lemma {:induction false} NearestShown(p: Path, n: nat) returns (q: Path)
    requires n < |p| && ShownCount(p[..n]) > 0
    ensures q <= p && |q| <= n && Shown(Last(q)) && Depth(q) == ShownCount(p[..n]) - 1
  {
    assert p[..n][..n - 1] == p[..n - 1];
    if Shown(p[n - 1]) { q := p[..n]; } else { q := NearestShown(p, n - 1); }
  }

  /** Where visits become entries. */
  lemma {:induction false} EntryOfVisit(g: Page, paths: seq<Path>, v: nat)
    requires v < |paths|
    ensures Entries(g, paths[..v]) <= Entries(g, paths)
    ensures Listed(g, paths[v]) ==> |Entries(g, paths[..v])| < |Entries(g, paths)| && Entries(g, paths)[|Entries(g, paths[..v])|] == paths[v]
    decreases |paths|
  {
    hide Listed;
    var init := paths[..|paths| - 1];
    if v < |init| {
      assert init[..v] == paths[..v];
      EntryOfVisit(g, init, v);
    }
  }

  lemma {:induction false} VisitOfEntry(g: Page, paths: seq<Path>, k: nat) returns (v: nat)
    requires k < |Entries(g, paths)|
    ensures v < |paths| && paths[v] == Entries(g, paths)[k] && Listed(g, paths[v]) && |Entries(g, paths[..v])| == k
    decreases |paths|
  {
    hide Listed;
    var init := paths[..|paths| - 1];
    if k < |Entries(g, init)| {
      v := VisitOfEntry(g, init, k);
      assert init[..v] == paths[..v];
    } else {
      v := |paths| - 1;
    }
  }

  lemma EntryComesBefore(g: Page, paths: seq<Path>, x: nat, u: nat)
    requires x < u <= |paths| && Listed(g, paths[x])
    ensures |Entries(g, paths[..x])| < |Entries(g, paths[..u])| && Entries(g, paths[..u])[|Entries(g, paths[..x])|] == paths[x]
  {
    assert paths[..u][..x] == paths[..x] && paths[..u][x] == paths[x];
    EntryOfVisit(g, paths[..u], x);
  }

  /** An entry made by the visits from `u` to `v` is one of these visits. */
  lemma EntriesBetween(g: Page, paths: seq<Path>, u: nat, v: nat, j: nat) returns (x: nat)
    requires u <= v <= |paths| && |Entries(g, paths[..u])| <= j < |Entries(g, paths[..v])|
    ensures u <= x < v && Entries(g, paths[..v])[j] == paths[x]
  {
    hide Listed;
    x := VisitOfEntry(g, paths[..v], j);
    assert paths[..v][..x] == paths[..x] && paths[..v][x] == paths[x];
    if x < u { EntryComesBefore(g, paths, x, u); }
  }

  /** The indentation of a line counts the listed lines above it: its closest shown ancestor is
      listed one step further left, and every line between them is at least as far right. */
  predicate NestedUnder(entries: seq<Path>, m: nat, k: nat)
    requires m < k < |entries|
  {
    && entries[m] <= entries[k] && entries[m] != entries[k]
    && Depth(entries[m]) == Depth(entries[k]) - 1
    && forall j | m < j <= k :: Depth(entries[j]) > Depth(entries[m])
  }

  lemma DeeperBelow(q: Path, p: Path)
    requires q <= p && q != p && Shown(Last(q))
    ensures Depth(q) < Depth(p)
  {
    ShownCountGrows(q, p);
  }

  /** The visit of the nearest shown ancestor; the visits since then are all below it. */
  lemma ShownAncestorVisit(paths: seq<Path>, v: nat) returns (u: nat)
    requires Preorder(paths) && v < |paths| && |paths[0]| == 1 && Depth(paths[v]) > 0
    ensures u < v && Shown(Last(paths[u])) && paths[u] <= paths[v] && Depth(paths[u]) == Depth(paths[v]) - 1
    ensures forall j | u < j <= v :: Depth(paths[j]) > Depth(paths[u])
  {
    var p := paths[v];
    var q := NearestShown(p, |p| - 1);
    hide Depth, Shown, Preorder;
    u := BeginningsAreVisited(paths, v, q);
    forall j | u < j <= v
      ensures Depth(paths[j]) > Depth(paths[u])
    {
      DeeperBelow(q, paths[j]);
    }
  }

  lemma EntriesPrefix(g: Page, paths: seq<Path>, v: nat)
    requires v < |paths|
    ensures Entries(g, paths[..v]) <= Entries(g, paths)
  {
    EntryOfVisit(g, paths, v);
  }

  lemma AtMostOneMore(g: Page, paths: seq<Path>, u: nat)
    requires u < |paths|
    ensures |Entries(g, paths[..u + 1])| <= |Entries(g, paths[..u])| + 1
  {
    assert paths[..u + 1][..u] == paths[..u];
  }

  /** A line strictly between two lines comes from a visit strictly between theirs. */
  lemma LineBetween(g: Page, paths: seq<Path>, u: nat, v: nat, j: nat) returns (x: nat)
    requires u < v < |paths|
    requires |Entries(g, paths[..u])| < j < |Entries(g, paths[..v])| <= |Entries(g, paths)|
    ensures u < x < v && Entries(g, paths)[j] == paths[x]
  {
    hide Entries;
    EntriesPrefix(g, paths, v);
    AtMostOneMore(g, paths, u);
    x := EntriesBetween(g, paths, u + 1, v, j);
  }

  lemma OutlineNests(g: Page, paths: seq<Path>, k: nat) returns (m: nat)
    requires Preorder(paths) && paths != [] && |paths[0]| == 1
    requires k < |Entries(g, paths)| && Depth(Entries(g, paths)[k]) > 0
    ensures m < k && NestedUnder(Entries(g, paths), m, k)
  {
    hide Depth, Shown, Preorder, Entries;
    var v := VisitOfEntry(g, paths, k);
    var u := ShownAncestorVisit(paths, v);
    assert Listed(g, paths[u]);
    hide Listed;
    m := EntryOfAncestor(g, paths, u, v, k);
    forall j | m < j <= k
      ensures Depth(Entries(g, paths)[j]) > Depth(Entries(g, paths)[m])
    {
      if j < k { var x := LineBetween(g, paths, u, v, j); }
    }
  }

  /** The line of a shown visit comes before the lines of later visits. */
  lemma EntryOfAncestor(g: Page, paths: seq<Path>, u: nat, v: nat, k: nat) returns (m: nat)
    requires u < v < |paths| && Listed(g, paths[u]) && k == |Entries(g, paths[..v])| < |Entries(g, paths)|
    ensures m == |Entries(g, paths[..u])| < k && Entries(g, paths)[m] == paths[u]
  {
    hide Entries, Listed;
    EntryComesBefore(g, paths, u, v);
    EntryOfVisit(g, paths, u);
    m := |Entries(g, paths[..u])|;
  }

  // ---- The references -----------------------------------------------------------------------

  /** The references are @e1, @e2, ... in line order: each line that asks for one gets the next
      number, and the map sends it to that line's own backend node. */
  lemma {:induction false} RefsFollowLines(entries: seq<Path>)
    ensures forall i | 0 <= i < |Refs(entries)| :: Refs(entries)[i].0 == RefName(i + 1)
    ensures forall k | 0 <= k < |entries| && HasRef(Last(entries[k])) ::
              && RefCount(entries[..k]) < |Refs(entries)|
              && Refs(entries)[RefCount(entries[..k])].1 == Last(entries[k]).backend.value
  {
    if entries != [] {
      var init := entries[..|entries| - 1];
      RefsFollowLines(init);
      forall k | 0 <= k < |entries| && HasRef(Last(entries[k]))
        ensures RefCount(entries[..k]) < |Refs(entries)| && Refs(entries)[RefCount(entries[..k])].1 == Last(entries[k]).backend.value
      {
        if k < |init| { assert init[..k] == entries[..k] && init[k] == entries[k]; }
      }
    }
  }

  /** Every reference is some line's. */
  lemma {:induction false} RefIsOnALine(entries: seq<Path>, i: nat) returns (k: nat)
    requires i < |Refs(entries)|
    ensures k < |entries| && RefOf(entries, k) == Some(i + 1)
  {
    var init := entries[..|entries| - 1];
    if i < |Refs(init)| {
      k := RefIsOnALine(init, i);
      assert init[..k] == entries[..k] && init[k] == entries[k];
    } else {
      k := |init|;
      assert entries[..k] == init;
    }
  }

  lemma RefNamesDiffer(a: nat, b: nat)
    ensures RefName(a) == RefName(b) ==> a == b
  {
    assert RefName(a)[2..] == Show(a) && RefName(b)[2..] == Show(b);
    ShowInjective(a, b);
  }

  // ---- Cycles ---------------------------------------------------------------------------------

  lemma {:induction false} WalksAreShort(paths: seq<Path>, i: nat)
    requires Preorder(paths) && i < |paths| && |paths[0]| == 1
    ensures |paths[i]| <= i + 1
  {
    if i > 0 { WalksAreShort(paths, i - 1); }
  }

  /** A walk that comes back to a node can be continued for ever. */
  lemma {:induction false} RoundAndRound(g: Page, p: Path, i: nat, n: nat) returns (q: Path)
    requires IsWalk(g, p) && i < |p| - 1 && p[i] == Last(p)
    ensures IsWalk(g, q) && q[0] == p[0] && Last(q) == Last(p) && |q| > n
    decreases n
  {
    if n == 0 {
      q := p;
    } else {
      var before := RoundAndRound(g, p, i, n - 1);
      q := before + p[i + 1..];
      forall k | 0 < k < |q|
        ensures Edge(g, q[k - 1], q[k])
      {
        if k < |before| { assert Edge(g, before[k - 1], before[k]); } else {
          var m := k - |before| + i + 1;
          assert q[k] == p[m] && q[k - 1] == p[m - 1];
        }
      }
    }
  }

  /** On a page whose child links come round, the outline says that it was cut. */
  lemma CyclesAreCut(g: Page, root: AxNode, p: Path, i: nat)
    requires IsWalk(g, p) && p[0] == root && i < |p| - 1 && p[i] == Last(p)
    ensures Visited(g, root).truncated
  {
    var r := Visited(g, root);
    if !r.truncated {
      assert IsWalk(g, [root]);
      VisitExtends(g, Visits([], false), [root]);
      VisitCovers(g, Visits([], false), [root]);
      var q := RoundAndRound(g, p, i, g.maxNodes);
      assert [root] <= q;
      var k :| 0 <= k < |r.paths| && r.paths[k] == q;
      FirstVisit(g, root);
      WalksAreShort(r.paths, k);
      assert false;
    }
  }

  lemma FirstVisit(g: Page, root: AxNode)
    ensures var r := Visited(g, root); r.paths != [] ==> r.paths[0] == [root]
    ensures g.maxNodes > 0 ==> Visited(g, root).paths != []
  {
    if g.maxNodes > 0 {
      var v := Visits([[root]], false);
      assert Visits([], false).(paths := [] + [[root]]) == v;
      assert VisitAll(g, v, [root], root.children).paths[..1][0] == [root];
    }
  }

  // ---- The compactor ----------------------------------------------------------------------------

  lemma EntriesGrow(g: Page, paths: seq<Path>, p: Path)
    ensures Entries(g, paths + [p]) == if Listed(g, p) then Entries(g, paths) + [p] else Entries(g, paths)
  {
    assert (paths + [p])[..|paths|] == paths;
  }

  lemma EntryAdds(entries: seq<Path>, p: Path)
    ensures Rendered(entries + [p]) == Rendered(entries) + [Render(p, if HasRef(Last(p)) then Some(|Refs(entries)| + 1) else None)]
    ensures Refs(entries + [p]) == if HasRef(Last(p)) then Refs(entries) + [(RefName(|Refs(entries)| + 1), Last(p).backend.value)] else Refs(entries)
  {
    hide Render, RefName;
    var more := entries + [p];
    assert more[..|entries|] == entries && more[|entries|] == p;
    hide Refs;
    forall k: nat | k < |entries|
      ensures RefOf(more, k) == RefOf(entries, k) && more[k] == entries[k]
    {
      assert more[..k] == entries[..k];
    }
    hide RefOf;
  }

  lemma DepthBelow(p: Path, child: AxNode)
    ensures Depth(p + [child]) == Depth(p) + if Shown(Last(p)) then 1 else 0
  {
    assert (p + [child])[..|p|] == p;
  }

  lemma VisitUnfolds(g: Page, w: Visits, p: Path)
    requires |w.paths| <= g.maxNodes
    ensures |w.paths| == g.maxNodes ==> Visit(g, w, p) == Visits(w.paths, true)
    ensures |w.paths| < g.maxNodes && Depth(p) > g.maxDepth ==> Visit(g, w, p) == Visits(w.paths + [p], true)
    ensures |w.paths| < g.maxNodes && Depth(p) <= g.maxDepth ==>
              Visit(g, w, p) == VisitAll(g, Visits(w.paths + [p], w.truncated), p, Last(p).children)
  {
  }

  lemma VisitAllUnfolds(g: Page, w: Visits, p: Path, ids: seq<string>, i: nat)
    requires |w.paths| <= g.maxNodes && i < |ids|
    ensures ids[i] !in g.byId ==> VisitAll(g, w, p, ids[i..]) == VisitAll(g, w, p, ids[i + 1..])
    ensures ids[i] in g.byId ==> VisitAll(g, w, p, ids[i..]) == VisitAll(g, Visit(g, w, p + [g.byId[ids[i]]]), p, ids[i + 1..])
  {
    hide Visit;
    assert ids[i..][0] == ids[i] && ids[i..][1..] == ids[i + 1..];
  }

  lemma VisitAllEnds(g: Page, w: Visits, p: Path, ids: seq<string>)
    requires |w.paths| <= g.maxNodes
    ensures VisitAll(g, w, p, ids[|ids|..]) == w
    ensures ids[0..] == ids
  {
  }

  /** The walk's mutable state; `paths` remembers by which way each node was reached. */
  class Compactor {
    const page: Page
    var seen: nat
    var truncated: bool
    var refs: seq<(string, int)>
    var lines: seq<string>
    ghost var paths: seq<Path>

    constructor (page: Page)
      ensures this.page == page && Valid() && paths == [] && !truncated
    {
      this.page := page;
      seen, truncated, refs, lines, paths := 0, false, [], [], [];
    }

    ghost predicate Valid()
      reads this
    {
      && seen == |paths| <= page.maxNodes
      && lines == Rendered(Entries(page, paths)) && refs == Refs(Entries(page, paths))
    }

    /** The visit of one node: its line and reference, if it shows. */
    method Enter(node: AxNode, depth: nat, ghost p: Path)
      requires Valid() && seen < page.maxNodes && node == Last(p) && depth == Depth(p)
      modifies this
      ensures Valid() && paths == old(paths) + [p] && truncated == old(truncated)
    {
      hide Depth, Entries, RefCount, Refs, Rendered, RenderAt;
      EntriesGrow(page, paths, p);
      EntryAdds(Entries(page, paths), p);
      seen := seen + 1;
      if Shown(node) && depth <= page.maxDepth {
        var ref := None;
        if HasRef(node) {
          ref := Some(|refs| + 1);
          refs := refs + [(RefName(|refs| + 1), node.backend.value)];
        }
        lines := lines + [RenderAt(node, depth, ref)];
      }
      paths := paths + [p];
    }

    method Walk(node: AxNode, depth: nat, ghost p: Path)
      requires Valid() && node == Last(p) && depth == Depth(p)
      modifies this
      ensures Valid() && Visits(paths, truncated) == Visit(page, old(Visits(paths, truncated)), p)
      decreases page.maxNodes - seen, 0
    {
      hide Depth, Entries, Refs, Rendered, Shown, Visit, VisitAll;
      VisitUnfolds(page, Visits(paths, truncated), p);
      if seen >= page.maxNodes {
        truncated := true;
        return;
      }
      Enter(node, depth, p);
      if depth > page.maxDepth {
        truncated := true;
        return;
      }
      WalkChildren(node, depth, p);
    }

    /** The loop over the child links, which may name nodes the snapshot lacks. */
    method WalkChildren(node: AxNode, depth: nat, ghost p: Path)
      requires Valid() && node == Last(p) && depth == Depth(p)
      modifies this
      ensures Valid() && Visits(paths, truncated) == VisitAll(page, old(Visits(paths, truncated)), p, node.children)
      decreases page.maxNodes - seen, 1
    {
      hide Depth, Entries, Refs, Rendered, Shown, Visit, VisitAll;
      ghost var v := Visits(paths, truncated);
      VisitAllEnds(page, v, p, node.children);
      for i := 0 to |node.children|
        invariant Valid() && seen >= old(seen)
        invariant VisitAll(page, Visits(paths, truncated), p, node.children[i..]) == VisitAll(page, v, p, node.children)
      {
        VisitAllUnfolds(page, Visits(paths, truncated), p, node.children, i);
        if node.children[i] in page.byId {
          DepthBelow(p, page.byId[node.children[i]]);
          Walk(page.byId[node.children[i]], if Shown(node) then depth + 1 else depth, p + [page.byId[node.children[i]]]);
        }
      }
      VisitAllEnds(page, Visits(paths, truncated), p, node.children);
    }
  }

  datatype AxCompaction = AxCompaction(text: string, refs: seq<(string, int)>, truncated: bool)

  /** The outline that a run of visits stands for. */
  function Outline(g: Page, r: Visits): AxCompaction {
    var e := Entries(g, r.paths);
    AxCompaction(Join(Rendered(e) + if r.truncated then ["- … (tree truncated)"] else []), Refs(e), r.truncated)
  }

  function Compacted(nodes: seq<AxNode>, maxNodes: nat, maxDepth: nat): AxCompaction {
    if nodes == [] then AxCompaction("", [], false)
    else
      var g := Page(ById(nodes), maxNodes, maxDepth);
      Outline(g, Visited(g, Root(nodes)))
  }

  method CompactAxTree(nodes: seq<AxNode>, maxNodes: nat := AX_MAX_NODES, maxDepth: nat := AX_MAX_DEPTH) returns (c: AxCompaction)
    ensures c == Compacted(nodes, maxNodes, maxDepth)
  {
    var walker := new Compactor(Page(ById(nodes), maxNodes, maxDepth));
    if nodes != [] { walker.Walk(Root(nodes), 0, [Root(nodes)]); }
    c := AxCompaction(
      Join(walker.lines + if walker.truncated then ["- … (tree truncated)"] else []), walker.refs, walker.truncated);
  }

  /** The laws of an outline. The visits are walks from the root in preorder, no more than the
      budget, and the lines are those of them that show; every line stands just inside its
      closest listed ancestor. If the outline is not cut then each walk from the root was
      followed, so every node with a role that can be reached has a line; if it is cut, then
      the budget is spent or some walk is too deep. */
  lemma OutlineIsTrue(g: Page, root: AxNode)
    ensures var r := Visited(g, root);
            var e := Entries(g, r.paths);
            && |e| <= |r.paths| <= g.maxNodes && Preorder(r.paths)
            && (forall p | p in r.paths :: IsWalk(g, p) && p[0] == root)
            && (forall k | 0 <= k < |e| && Depth(e[k]) > 0 :: exists m | 0 <= m < k :: NestedUnder(e, m, k))
            && (!r.truncated ==> forall q: Path | IsWalk(g, q) && q[0] == root && Shown(Last(q)) :: q in e)
            && (r.truncated ==> Reason(g, r))
  {
    var r := Visited(g, root);
    var e := Entries(g, r.paths);
    var start := Visits([], false);
    assert IsWalk(g, [root]);
    VisitExtends(g, start, [root]);
    VisitReason(g, start, [root]);
    FirstVisit(g, root);
    EntriesAreFewer(g, r.paths);
    hide Visited, Preorder, Depth, IsWalk, Reason, Entries;
    forall k | 0 <= k < |e| && Depth(e[k]) > 0
      ensures exists m | 0 <= m < k :: NestedUnder(e, m, k)
    {
      var v := VisitOfEntry(g, r.paths, k);
      var m := OutlineNests(g, r.paths, k);
    }
    if !r.truncated { EveryWalkIsListed(g, root); }
  }

  lemma EveryWalkIsListed(g: Page, root: AxNode)
    requires !Visited(g, root).truncated
    ensures forall q: Path | IsWalk(g, q) && q[0] == root && Shown(Last(q)) :: q in Entries(g, Visited(g, root).paths)
  {
    var r := Visited(g, root);
    VisitCovers(g, Visits([], false), [root]);
    hide Visit, Visited, IsWalk, Depth, Entries;
    forall q: Path | IsWalk(g, q) && q[0] == root && Shown(Last(q))
      ensures q in Entries(g, r.paths)
    {
      assert [root] <= q;
      var v :| 0 <= v < |r.paths| && r.paths[v] == q;
      EntryOfVisit(g, r.paths, v);
    }
  }

  lemma {:induction false} EntriesAreFewer(g: Page, paths: seq<Path>)
    ensures |Entries(g, paths)| <= |paths|
  {
    if paths != [] { EntriesAreFewer(g, paths[..|paths| - 1]); }
  }
}
