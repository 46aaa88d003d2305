/** The references an agent may still use: the map of the last snapshot of each tab, and the
    pointers added to it on a user's gesture. */
module SnapshotRefs {
  import opened Options
  import opened Decimals
  import AxTree

  /** A reference map in insertion order. */
  type RefMap = seq<(string, int)>

  function Find(m: RefMap, ref: string): Option<int>
    decreases |m|
  {
    if m == [] then None else if m[0].0 == ref then Some(m[0].1) else Find(m[1..], ref)
  }

  function Pointer(n: nat): string {
    "@a" + Show(n)
  }

  /** Every reference of a tab's last snapshot, and the number of pointers minted so far. */
  datatype Registry = Registry(tabs: map<int, RefMap>, minted: nat)

  function Resolve(r: Registry, tab: int, ref: string): Option<int> {
    if tab in r.tabs then Find(r.tabs[tab], ref) else None
  }

  /** What the registry sees: a snapshot of a tab, a closed tab, a pointed-at element. */
  datatype Event =
    | Snapshot(tab: int, refs: RefMap)
    | Prune(tab: int)
    | Point(tab: int, backend: int)

  function Named(m: RefMap, backend: int): Option<string>
    decreases |m|
  {
    if m == [] then None else if m[0].1 == backend then Some(m[0].0) else Named(m[1..], backend)
  }

  function RefsOfTab(r: Registry, tab: int): RefMap {
    if tab in r.tabs then r.tabs[tab] else []
  }

  function Step(r: Registry, e: Event): Registry {
    match e
    case Snapshot(tab, refs) => r.(tabs := r.tabs[tab := refs])
    case Prune(tab) => r.(tabs := r.tabs - {tab})
    case Point(tab, backend) =>
      if Named(RefsOfTab(r, tab), backend).Some? then r
      else Registry(r.tabs[tab := RefsOfTab(r, tab) + [(Pointer(r.minted + 1), backend)]], r.minted + 1)
  }

  function Run(r: Registry, events: seq<Event>): Registry
    decreases |events|
  {
    if events == [] then r else Run(Step(r, events[0]), events[1..])
  }

  /** References as the compactor numbers them. */
  predicate SnapshotShaped(m: RefMap) {
    forall i | 0 <= i < |m| :: m[i].0 == AxTree.RefName(i + 1)
  }

  predicate FromSnapshots(e: Event) {
    e.Snapshot? ==> SnapshotShaped(e.refs)
  }

  predicate Minted(ref: string, most: nat) {
    exists k | 1 <= k <= most :: ref == Pointer(k)
  }

  /** Distinct references, each a snapshot's own or a pointer minted by now. */
  predicate TabSound(m: RefMap, most: nat) {
    && (forall i, j | 0 <= i < j < |m| :: m[i].0 != m[j].0)
    && (forall i | 0 <= i < |m| :: |m[i].0| > 1 && (m[i].0[1] == 'e' || Minted(m[i].0, most)))
  }

  predicate Sound(r: Registry) {
    forall tab | tab in r.tabs :: TabSound(r.tabs[tab], r.minted)
  }

  lemma NewPointer(n: nat, most: nat)
    requires n > most
    ensures !Minted(Pointer(n), most) && Pointer(n)[1] == 'a'
  {
    forall k | 1 <= k <= most
      ensures Pointer(n) != Pointer(k)
    {
      assert Pointer(n)[2..] == Show(n) && Pointer(k)[2..] == Show(k);
      ShowInjective(n, k);
    }
  }

  lemma SnapshotIsSound(m: RefMap, most: nat)
    requires SnapshotShaped(m)
    ensures TabSound(m, most)
  {
    forall i, j | 0 <= i < j < |m|
      ensures m[i].0 != m[j].0
    {
      AxTree.RefNamesDiffer(i + 1, j + 1);
    }
  }

  lemma StaysMinted(m: RefMap, most: nat, more: nat)
    requires TabSound(m, most) && most <= more
    ensures TabSound(m, more)
  {
    forall i | 0 <= i < |m| && m[i].0[1] != 'e'
      ensures Minted(m[i].0, more)
    {
      var k :| 1 <= k <= most && m[i].0 == Pointer(k);
    }
  }

  lemma PointerAdded(m: RefMap, most: nat, backend: int)
    requires TabSound(m, most)
    ensures TabSound(m + [(Pointer(most + 1), backend)], most + 1)
  {
    StaysMinted(m, most, most + 1);
    NewPointer(most + 1, most);
    assert Minted(Pointer(most + 1), most + 1);
  }

  lemma StepSound(r: Registry, e: Event)
    requires Sound(r) && FromSnapshots(e)
    ensures Sound(Step(r, e)) && Step(r, e).minted >= r.minted
  {
    hide TabSound, SnapshotShaped;
    match e
    case Snapshot(tab, refs) =>
      assert SnapshotShaped(refs);
      SnapshotIsSound(refs, r.minted);
    case Prune(tab) =>
    case Point(tab, backend) =>
      assert TabSound([], r.minted) by { EmptyIsSound(r.minted); }
      PointerAdded(RefsOfTab(r, tab), r.minted, backend);
      forall t | t in r.tabs
        ensures TabSound(r.tabs[t], r.minted + 1)
      {
        StaysMinted(r.tabs[t], r.minted, r.minted + 1);
      }
  }

  lemma EmptyIsSound(most: nat)
    ensures TabSound([], most)
  {
  }

  lemma {:induction false} FindInLonger(m: RefMap, more: RefMap, ref: string)
    ensures Find(m + more, ref) == if Find(m, ref).Some? then Find(m, ref) else Find(more, ref)
    decreases |m|
  {
    if m == [] {
      assert m + more == more;
    } else {
      assert (m + more)[1..] == m[1..] + more;
      FindInLonger(m[1..], more, ref);
    }
  }

  /** An event that does not replace or drop the tab's own map. */
  predicate Keeps(e: Event, tab: int) {
    e.Point? || e.tab != tab
  }

  lemma StepKeepsRefs(r: Registry, e: Event, tab: int, ref: string)
    requires Keeps(e, tab) && Resolve(r, tab, ref).Some?
    ensures Resolve(Step(r, e), tab, ref) == Resolve(r, tab, ref)
  {
    if e.Point? && e.tab == tab {
      FindInLonger(r.tabs[tab], [(Pointer(r.minted + 1), e.backend)], ref);
    }
  }

  /** After a snapshot its tab resolves exactly the snapshot's references, after a close none, and
      every other tab what it did. */
  lemma ReplacedRefs(r: Registry, e: Event, tab: int, ref: string)
    requires !e.Point?
    ensures Resolve(Step(r, e), tab, ref) ==
            if tab != e.tab then Resolve(r, tab, ref) else if e.Snapshot? then Find(e.refs, ref) else None
  {
  }

  /** A reference resolves to the first entry with its name, and to nothing without one. */
  lemma {:induction false} FindIsFirst(m: RefMap, ref: string)
    ensures match Find(m, ref)
            case Some(b) => exists i | 0 <= i < |m| :: m[i] == (ref, b) && forall j | 0 <= j < i :: m[j].0 != ref
            case None => forall i | 0 <= i < |m| :: m[i].0 != ref
    decreases |m|
  {
    if m != [] && m[0].0 != ref {
      FindIsFirst(m[1..], ref);
      assert forall i | 0 < i < |m| :: m[i] == m[1..][i - 1];
      match Find(m, ref) {
        case Some(b) =>
          var i :| 0 <= i < |m[1..]| && m[1..][i] == (ref, b) && forall j | 0 <= j < i :: m[1..][j].0 != ref;
          assert m[i + 1] == (ref, b);
        case None =>
      }
    }
  }

  /** Until its tab is snapshotted again or closed, a live reference keeps its element: no
      pointer, on this tab or another, retargets or renumbers it. */
  lemma {:induction false} LiveRefsStay(r: Registry, events: seq<Event>, tab: int, ref: string)
    requires Resolve(r, tab, ref).Some? && forall e | e in events :: Keeps(e, tab)
    ensures Resolve(Run(r, events), tab, ref) == Resolve(r, tab, ref)
    decreases |events|
  {
    hide Resolve, Step, Keeps;
    if events != [] {
      assert events[0] in events;
      StepKeepsRefs(r, events[0], tab, ref);
      LiveRefsStay(Step(r, events[0]), events[1..], tab, ref);
    }
  }

  lemma {:induction false} RunSound(r: Registry, events: seq<Event>)
    requires Sound(r) && forall e | e in events :: FromSnapshots(e)
    ensures Sound(Run(r, events)) && Run(r, events).minted >= r.minted
    decreases |events|
  {
    hide Sound, Step, FromSnapshots;
    if events != [] {
      assert events[0] in events;
      StepSound(r, events[0]);
      RunSound(Step(r, events[0]), events[1..]);
    }
  }

  lemma {:induction false} NamedResolves(m: RefMap, backend: int)
    requires Named(m, backend).Some? && forall i, j | 0 <= i < j < |m| :: m[i].0 != m[j].0
    ensures Find(m, Named(m, backend).value) == Some(backend)
    decreases |m|
  {
    if m[0].1 != backend {
      NamedResolves(m[1..], backend);
      NamedIsThere(m[1..], backend);
    }
  }

  lemma {:induction false} NamedIsThere(m: RefMap, backend: int)
    requires Named(m, backend).Some?
    ensures exists i | 0 <= i < |m| :: m[i].0 == Named(m, backend).value
    decreases |m|
  {
    if m[0].1 != backend {
      NamedIsThere(m[1..], backend);
      var i :| 0 <= i < |m[1..]| && m[1..][i].0 == Named(m[1..], backend).value;
      assert m[i + 1].0 == Named(m, backend).value;
    }
  }

  lemma {:induction false} NotFound(m: RefMap, ref: string)
    requires forall i | 0 <= i < |m| :: m[i].0 != ref
    ensures Find(m, ref) == None
    decreases |m|
  {
    if m != [] { NotFound(m[1..], ref); }
  }

  /** What one pointer gives back: a reference that resolves to the element, the one the agent
      already holds if there is one, and otherwise one that no live map and no earlier pointer
      has used. */
  lemma PointerIsGood(r: Registry, tab: int, backend: int)
    requires Sound(r)
    ensures var next := Step(r, Point(tab, backend));
            match Named(RefsOfTab(r, tab), backend)
            case Some(ref) => next == r && Resolve(r, tab, ref) == Some(backend)
            case None =>
              var ref := Pointer(r.minted + 1);
              && Resolve(next, tab, ref) == Some(backend)
              && !Minted(ref, r.minted) && forall t | t in r.tabs :: Resolve(r, t, ref) == None
  {
    var ref := Pointer(r.minted + 1);
    NewPointer(r.minted + 1, r.minted);
    forall t | t in r.tabs
      ensures Find(r.tabs[t], ref) == None
    {
      var m := r.tabs[t];
      assert TabSound(m, r.minted);
      forall i | 0 <= i < |m|
        ensures m[i].0 != ref
      {
        assert m[i].0[1] == 'e' || Minted(m[i].0, r.minted);
      }
      NotFound(m, ref);
    }
    if Named(RefsOfTab(r, tab), backend).Some? {
      NamedResolves(r.tabs[tab], backend);
    } else {
      FindInLonger(RefsOfTab(r, tab), [(ref, backend)], ref);
    }
  }

  /** The module's mutable maps. */
  class References {
    var snapshotRefs: map<int, RefMap>
    var annotationRefSeq: nat

    function Value(): Registry
      reads this
    {
      Registry(snapshotRefs, annotationRefSeq)
    }

    constructor ()
      ensures Value() == Registry(map[], 0)
    {
      snapshotRefs, annotationRefSeq := map[], 0;
    }

    method PruneSnapshotRefs(tab: int)
      modifies this
      ensures Value() == Step(old(Value()), Prune(tab))
    {
      snapshotRefs := snapshotRefs - {tab};
    }

    /** The snapshot tool: compact the tree, keep its references, answer with the outline. */
    method TakeSnapshot(tab: int, nodes: seq<AxTree.AxNode>) returns (text: string)
      modifies this
      ensures var c := AxTree.Compacted(nodes, AxTree.AX_MAX_NODES, AxTree.AX_MAX_DEPTH);
              && Value() == Step(old(Value()), Snapshot(tab, c.refs)) && FromSnapshots(Snapshot(tab, c.refs))
              && text == if c.text == "" then "(empty accessibility tree)" else c.text
    {
      var c := AxTree.CompactAxTree(nodes);
      if nodes != [] {
        ghost var g := AxTree.Page(AxTree.ById(nodes), AxTree.AX_MAX_NODES, AxTree.AX_MAX_DEPTH);
        AxTree.RefsFollowLines(AxTree.Entries(g, AxTree.Visited(g, AxTree.Root(nodes)).paths));
      }
      snapshotRefs := snapshotRefs[tab := c.refs];
      text := if c.text == "" then "(empty accessibility tree)" else c.text;
    }

    method RegisterAnnotationRef(tab: int, backend: int) returns (ref: string)
      requires Sound(Value())
      modifies this
      ensures Value() == Step(old(Value()), Point(tab, backend)) && Sound(Value())
      ensures Resolve(Value(), tab, ref) == Some(backend)
      ensures forall t, held | Resolve(old(Value()), t, held).Some? :: Resolve(Value(), t, held) == Resolve(old(Value()), t, held)
    {
      ghost var was := Value();
      PointerIsGood(was, tab, backend);
      StepSound(was, Point(tab, backend));
      forall t, held | Resolve(was, t, held).Some?
        ensures Resolve(Step(was, Point(tab, backend)), t, held) == Resolve(was, t, held)
      {
        StepKeepsRefs(was, Point(tab, backend), t, held);
      }
      var m := if tab in snapshotRefs then snapshotRefs[tab] else [];
      assert m[0..] == m;
      for i := 0 to |m|
        invariant Value() == was && Named(m, backend) == Named(m[i..], backend)
      {
        assert m[i..][0] == m[i] && m[i..][1..] == m[i + 1..];
        if m[i].1 == backend { return m[i].0; }
      }
      annotationRefSeq := annotationRefSeq + 1;
      ref := Pointer(annotationRefSeq);
      snapshotRefs := snapshotRefs[tab := m + [(ref, backend)]];
    }
  }
}
