/** Rows stay under their reference: whatever happens, a row of the device and the hub row it is linked to hang off
    the same reference. */
module AnnotationHomes {
  import opened Options
  import opened AnnotationStore
  import opened AnnotationSync

  /** The row has the reference its id was given, and is linked only to a hub row of that reference. */
  predicate AtHome(r: Row, home: map<nat, nat>, hub: Hub, refs: seq<(nat, nat)>) {
    && r.id in home && home[r.id] == r.ref
    && (r.Linked() ==> r.Link() in hub.rows && (r.ref, hub.rows[r.Link()].ref) in refs)
  }

  predicate AllAtHome(rows: seq<Row>, home: map<nat, nat>, hub: Hub, refs: seq<(nat, nat)>) {
    forall r | r in rows :: AtHome(r, home, hub, refs)
  }

  predicate StoreAtHome(s: Store, home: map<nat, nat>, hub: Hub, refs: seq<(nat, nat)>) {
    && AllAtHome(s.items, home, hub, refs)
    && (forall rows | rows in s.past :: AllAtHome(rows, home, hub, refs))
    && (forall id | id in home :: id < s.next)
  }

  predicate HubMinted(hub: Hub) {
    forall h | h in hub.rows :: h < hub.minted
  }

  predicate PhaseAtHome(w: World, home: map<nat, nat>) {
    match w.phase
    case Pushing(locals, _) => AllAtHome(locals, home, w.hub, w.refs)
    case Sent(locals, _) => AllAtHome(locals, home, w.hub, w.refs)
    case Answered(locals, i, h) =>
      && AllAtHome(locals, home, w.hub, w.refs)
      && i < |locals| && h in w.hub.rows && (locals[i].ref, w.hub.rows[h].ref) in w.refs
    case Listed(_, k, rows) => k < |w.refs| && forall x | x in rows :: x.0 in w.hub.rows && w.hub.rows[x.0].ref == w.refs[k].1
    case _ => true
  }

  predicate Homed(w: World, home: map<nat, nat>) {
    StoreAtHome(w.store, home, w.hub, w.refs) && HubMinted(w.hub) && PhaseAtHome(w, home)
  }

  // ---- More ids, more hub rows ----------------------------------------------------

  predicate HubGrows(hub: Hub, hub': Hub) {
    forall h | h in hub.rows :: h in hub'.rows && hub'.rows[h].ref == hub.rows[h].ref
  }

  predicate HomeGrows(home: map<nat, nat>, home': map<nat, nat>) {
    forall id | id in home :: id in home' && home'[id] == home[id]
  }

  lemma StaysAtHome(rows: seq<Row>, home: map<nat, nat>, home': map<nat, nat>, hub: Hub, hub': Hub, refs: seq<(nat, nat)>)
    requires AllAtHome(rows, home, hub, refs) && HomeGrows(home, home') && HubGrows(hub, hub')
    ensures AllAtHome(rows, home', hub', refs)
  {
  }

  /** The same store beside a hub with more rows. */
  lemma HubMoves(w: World, w': World, home: map<nat, nat>)
    requires Homed(w, home) && w' == w.(hub := w'.hub, phase := w'.phase, tally := w'.tally)
    requires HubGrows(w.hub, w'.hub) && HubMinted(w'.hub) && PhaseAtHome(w', home)
    ensures Homed(w', home)
  {
    StaysAtHome(w.store.items, home, home, w.hub, w'.hub, w.refs);
    forall rows | rows in w.store.past
      ensures AllAtHome(rows, home, w'.hub, w.refs)
    {
      StaysAtHome(rows, home, home, w.hub, w'.hub, w.refs);
    }
    hide AllAtHome;
  }

  /** Another store beside the same hub, with room for more ids. */
  lemma StoreMoves(w: World, w': World, home: map<nat, nat>, home': map<nat, nat>)
    requires Homed(w, home) && w' == w.(store := w'.store, tally := w'.tally)
    requires HomeGrows(home, home') && StoreAtHome(w'.store, home', w.hub, w.refs)
    ensures Homed(w', home')
  {
    match w.phase
    case Pushing(locals, _) => StaysAtHome(locals, home, home', w.hub, w.hub, w.refs);
    case Sent(locals, _) => StaysAtHome(locals, home, home', w.hub, w.hub, w.refs);
    case Answered(locals, _, _) => StaysAtHome(locals, home, home', w.hub, w.hub, w.refs);
    case _ =>
  }

  // ---- The store -----------------------------------------------------------------------

  /** What a recorded operation leaves: new rows at home, the old ones on the stack. */
  lemma OperationAtHome(s: Store, t: Store, home: map<nat, nat>, home': map<nat, nat>, hub: Hub, refs: seq<(nat, nat)>)
    requires StoreAtHome(s, home, hub, refs) && HomeGrows(home, home')
    requires AllAtHome(t.items, home', hub, refs) && t.past == PushPast(s.past, s.items) && forall id | id in home' :: id < t.next
    ensures StoreAtHome(t, home', hub, refs)
  {
    forall rows | rows in t.past
      ensures AllAtHome(rows, home', hub, refs)
    {
      assert rows == s.items || rows in s.past;
      StaysAtHome(rows, home, home', hub, hub, refs);
    }
    hide AllAtHome;
  }

  lemma AddAtHome(s: Store, home: map<nat, nat>, hub: Hub, refs: seq<(nat, nat)>, ref: nat, c: Content, hubId: Option<HubId>, pulled: bool)
    requires StoreAtHome(s, home, hub, refs)
    requires hubId.Some? && hubId.value.Minted? ==> hubId.value.n in hub.rows && (ref, hub.rows[hubId.value.n].ref) in refs
    ensures HomeGrows(home, home[s.next := ref])
    ensures StoreAtHome(Add(s, ref, c, hubId, pulled), home[s.next := ref], hub, refs)
  {
    var home', t := home[s.next := ref], Add(s, ref, c, hubId, pulled);
    StaysAtHome(s.items, home, home', hub, hub, refs);
    assert AtHome(t.items[|s.items|], home', hub, refs);
    assert forall r | r in t.items :: r in s.items || r == t.items[|s.items|];
    assert AllAtHome(t.items, home', hub, refs);
    OperationAtHome(s, t, home, home', hub, refs);
  }

  lemma UpdatedRowsAtHome(s: Store, home: map<nat, nat>, hub: Hub, refs: seq<(nat, nat)>, id: nat, p: Patch)
    requires AllAtHome(s.items, home, hub, refs)
    requires p.hubId.Some? && p.hubId.value.Minted? && id in home ==>
               p.hubId.value.n in hub.rows && (home[id], hub.rows[p.hubId.value.n].ref) in refs
    ensures AllAtHome(Update(s, id, p).items, home, hub, refs)
  {
    hide PushPast, Applied;
    var items := Update(s, id, p).items;
    forall r' | r' in items
      ensures AtHome(r', home, hub, refs)
    {
      var i :| 0 <= i < |items| && items[i] == r';
      assert AtHome(s.items[i], home, hub, refs);
    }
  }

  /** An edit that writes no link, or the link of a hub row of the reference of that id. */
  lemma UpdateAtHome(s: Store, home: map<nat, nat>, hub: Hub, refs: seq<(nat, nat)>, id: nat, p: Patch)
    requires StoreAtHome(s, home, hub, refs)
    requires p.hubId.Some? && p.hubId.value.Minted? && id in home ==>
               p.hubId.value.n in hub.rows && (home[id], hub.rows[p.hubId.value.n].ref) in refs
    ensures StoreAtHome(Update(s, id, p), home, hub, refs)
  {
    var t := Update(s, id, p);
    assert t.past == PushPast(s.past, s.items) && t.next == s.next + 1 by { hide PushPast; }
    UpdatedRowsAtHome(s, home, hub, refs, id, p);
    hide Update, PushPast;
    OperationAtHome(s, t, home, home, hub, refs);
  }

  lemma UndoAtHome(s: Store, home: map<nat, nat>, hub: Hub, refs: seq<(nat, nat)>)
    requires StoreAtHome(s, home, hub, refs)
    ensures StoreAtHome(Undo(s), home, hub, refs)
  {
    if s.past != [] {
      var snapshot := s.past[|s.past| - 1];
      assert AllAtHome(snapshot, home, hub, refs);
      forall r' | r' in Restored(snapshot, s.next)
        ensures AtHome(r', home, hub, refs)
      {
        var i := RestoredFrom(snapshot, s.next, r');
        assert AtHome(snapshot[i], home, hub, refs);
      }
      assert forall rows | rows in Undo(s).past :: rows in s.past;
      hide AtHome;
    }
  }

  /** Pulled rows get the reference they were listed under. */
  lemma {:induction false} PullRowsAtHome(
      s: Store, have: set<nat>, rows: seq<(nat, HubBody)>, ref: nat, home: map<nat, nat>, hub: Hub, refs: seq<(nat, nat)>)
      returns (home': map<nat, nat>)
    requires StoreAtHome(s, home, hub, refs)
    requires forall x | x in rows :: x.0 in hub.rows && (ref, hub.rows[x.0].ref) in refs
    ensures HomeGrows(home, home') && StoreAtHome(PullRows(s, have, rows, ref).0, home', hub, refs)
    decreases |rows|
  {
    hide StoreAtHome, Add;
    if rows == [] {
      home' := home;
    } else if rows[0].0 in have {
      home' := PullRowsAtHome(s, have, rows[1..], ref, home, hub, refs);
    } else {
      var (h, b) := rows[0];
      assert rows[0] in rows;
      AddAtHome(s, home, hub, refs, ref, HubToAnnotation(b), Some(Minted(h)), true);
      home' := PullRowsAtHome(
        Add(s, ref, HubToAnnotation(b), Some(Minted(h)), true), have + {h}, rows[1..], ref, home[s.next := ref], hub, refs);
    }
  }

  // ---- The steps ------------------------------------------------------------------------

  lemma OutsideAtHome(w: World, home: map<nat, nat>, e: Event) returns (home': map<nat, nat>)
    requires Homed(w, home) && (FromOutside(e) || e.Restart?)
    ensures Homed(Step(w, e), home') && Step(w, e).refs == w.refs
  {
    hide StoreAtHome, AllAtHome, HubMinted, Add, Update, Undo, Remove;
    home' := home;
    match e
    case UserAdd(ref, c) =>
      AddAtHome(w.store, home, w.hub, w.refs, ref, c, None, false);
      home' := home[w.store.next := ref];
      StoreMoves(w, Step(w, e), home, home');
    case UserUpdate(id, p) =>
      UpdateAtHome(w.store, home, w.hub, w.refs, id, p.(hubId := None, dirty := None));
      StoreMoves(w, Step(w, e), home, home);
    case UserRemove(id) =>
      RemoveAtHome(w.store, home, w.hub, w.refs, id);
      StoreMoves(w, Step(w, e), home, home);
    case UserUndo =>
      UndoAtHome(w.store, home, w.hub, w.refs);
      StoreMoves(w, Step(w, e), home, home);
    case HubDraw(ref, b) => InsertAtHome(w, home, ref, b, w.phase);
    case Restart => RestartAtHome(w, home);
  }

  lemma RemoveAtHome(s: Store, home: map<nat, nat>, hub: Hub, refs: seq<(nat, nat)>, id: nat)
    requires StoreAtHome(s, home, hub, refs)
    ensures StoreAtHome(Remove(s, id), home, hub, refs)
  {
    assert AllAtHome(Without(s.items, id), home, hub, refs);
    OperationAtHome(s, Remove(s, id), home, home, hub, refs);
  }

  lemma RestartAtHome(w: World, home: map<nat, nat>)
    requires Homed(w, home)
    ensures Homed(Step(w, Restart), home)
  {
    hide AllAtHome;
  }

  /** A new hub row takes nothing away from those there are. */
  lemma InsertAtHome(w: World, home: map<nat, nat>, ref: nat, b: HubBody, phase: Phase)
    requires Homed(w, home)
    requires phase == w.phase ||
             (w.phase.Sent? && w.phase.i < |w.phase.locals| && phase == Answered(w.phase.locals, w.phase.i, w.hub.minted)
              && (w.phase.locals[w.phase.i].ref, ref) in w.refs)
    ensures Homed(w.(hub := InsertRow(w.hub, ref, b), phase := phase), home)
  {
    var w' := w.(hub := InsertRow(w.hub, ref, b), phase := phase);
    assert HubGrows(w.hub, w'.hub) && HubMinted(w'.hub);
    match w.phase {
      case Pushing(locals, _) => StaysAtHome(locals, home, home, w.hub, w'.hub, w.refs);
      case Sent(locals, _) => StaysAtHome(locals, home, home, w.hub, w'.hub, w.refs);
      case Answered(locals, _, _) => StaysAtHome(locals, home, home, w.hub, w'.hub, w.refs);
      case _ =>
    }
    hide AllAtHome, StoreAtHome;
    HubMoves(w, w', home);
  }

  lemma {:induction false} HubRefIsPaired(refs: seq<(nat, nat)>, local: nat)
    ensures HubRefOf(refs, local).Some? ==> (local, HubRefOf(refs, local).value) in refs
  {
    if refs != [] && refs[|refs| - 1].0 != local {
      HubRefIsPaired(refs[..|refs| - 1], local);
    }
  }

  lemma PatchAtHome(w: World, home: map<nat, nat>, hub: Hub, phase: Phase)
    requires Homed(w, home) && w.phase.Sent? && w.phase.i < |w.phase.locals| && w.phase.locals[w.phase.i].Linked()
    requires hub.minted == w.hub.minted && hub.rows.Keys == w.hub.rows.Keys && HubGrows(w.hub, hub)
    requires phase == Answered(w.phase.locals, w.phase.i, w.phase.locals[w.phase.i].Link())
    ensures Homed(w.(hub := hub, phase := phase), home)
  {
    var w' := w.(hub := hub, phase := phase);
    var a := w.phase.locals[w.phase.i];
    assert AtHome(a, home, w.hub, w.refs);
    StaysAtHome(w.phase.locals, home, home, w.hub, hub, w.refs);
    hide AllAtHome, StoreAtHome;
    HubMoves(w, w', home);
  }

  lemma ServeAtHome(w: World, home: map<nat, nat>)
    requires Homed(w, home) && w.phase.Sent? && Step(w, HubApply) != w
    ensures Homed(Step(w, HubApply), home) && Step(w, HubApply).refs == w.refs
  {
    var a := w.phase.locals[w.phase.i];
    HubRefIsPaired(w.refs, a.ref);
    hide HubRefOf, AllAtHome, StoreAtHome, HubMinted, AnnToHubBody;
    var n := Step(w, HubApply);
    if a.Linked() {
      PatchAtHome(w, home, n.hub, n.phase);
    } else {
      InsertAtHome(w, home, HubRefOf(w.refs, a.ref).value, AnnToHubBody(a.content), n.phase);
    }
  }

  lemma WriteBackAtHome(w: World, home: map<nat, nat>)
    requires Homed(w, home) && w.phase.Answered?
    ensures Homed(Step(w, ReplyOk), home) && Step(w, ReplyOk).refs == w.refs
  {
    var Answered(locals, i, h) := w.phase;
    var a := locals[i];
    assert AtHome(a, home, w.hub, w.refs);
    hide AllAtHome, HubMinted, Find;
    var cur := Find(w.store.items, a.id);
    var p := LinkPatch(Minted(h), cur.Some? && cur.value.obj == a.obj);
    UpdateAtHome(w.store, home, w.hub, w.refs, a.id, p);
    hide StoreAtHome, Update;
    StoreMoves(w, w.(store := WriteBack(w.store, a, Minted(h))), home, home);
  }

  lemma PullAtHome(w: World, home: map<nat, nat>) returns (home': map<nat, nat>)
    requires Homed(w, home) && w.phase.Listed?
    ensures Homed(Step(w, ListOk), home') && Step(w, ListOk).refs == w.refs
  {
    var Listed(have, k, rows) := w.phase;
    assert (w.refs[k].0, w.refs[k].1) in w.refs;
    home' := PullRowsAtHome(w.store, have, rows, w.refs[k].0, home, w.hub, w.refs);
    hide StoreAtHome, PullRows;
    ListOkSteps(w, have, k, rows);
    hide Step;
  }

  lemma ListAtHome(w: World, home: map<nat, nat>)
    requires Homed(w, home) && w.phase.Pulling? && w.phase.k < |w.refs|
    ensures Homed(Step(w, List), home) && Step(w, List).refs == w.refs
  {
    ListSteps(w, w.phase.have, w.phase.k);
    hide StoreAtHome, Step;
  }

  /** Steps of the sync that change neither the store nor the hub. */
  lemma QuietAtHome(w: World, home: map<nat, nat>, e: Event)
    requires Homed(w, home) && (e.Begin? || e.Skip? || e.Send? || e.ReplyWithoutId? || e.ReplyFail? || e.StartPull? || e.ListFail? || e.Finish?)
    ensures Homed(Step(w, e), home) && Step(w, e).refs == w.refs
  {
    hide AllAtHome, HubMinted, Skipped, HubRefOf, Links;
  }

  lemma StepAtHome(w: World, home: map<nat, nat>, e: Event) returns (home': map<nat, nat>)
    requires Homed(w, home)
    ensures Homed(Step(w, e), home') && Step(w, e).refs == w.refs
  {
    hide Homed;
    home' := home;
    if FromOutside(e) || e.Restart? {
      home' := OutsideAtHome(w, home, e);
    } else if e.HubApply? {
      if w.phase.Sent? && Step(w, e) != w { ServeAtHome(w, home); } else { assert Step(w, e) == w by { NotServed(w); } }
    } else if e.ReplyOk? {
      if w.phase.Answered? { WriteBackAtHome(w, home); }
    } else if e.ListOk? {
      if w.phase.Listed? { home' := PullAtHome(w, home); }
    } else if e.List? {
      if w.phase.Pulling? && w.phase.k < |w.refs| { ListAtHome(w, home); }
    } else {
      QuietAtHome(w, home, e);
    }
  }

  lemma NotServed(w: World)
    ensures !w.phase.Sent? ==> Step(w, HubApply) == w
  {
  }

  lemma {:induction false} RunAtHome(w: World, home: map<nat, nat>, es: seq<Event>) returns (home': map<nat, nat>)
    requires Homed(w, home)
    ensures Homed(Run(w, es), home') && Run(w, es).refs == w.refs
  {
    hide Homed, Step;
    if es == [] {
      home' := home;
    } else {
      var mid := RunAtHome(w, home, es[..|es| - 1]);
      home' := StepAtHome(Run(w, es[..|es| - 1]), mid, es[|es| - 1]);
    }
  }

  /** Each of the first `n` rows has its id in the map. */
  lemma {:induction false} HomeOf(items: seq<Row>, n: nat, next: nat) returns (home: map<nat, nat>)
    requires n <= |items| && DistinctIds(items) && forall i | 0 <= i < |items| :: items[i].id < next
    ensures forall i | 0 <= i < n :: items[i].id in home && home[items[i].id] == items[i].ref
    ensures forall id | id in home :: id < next
    decreases n
  {
    if n == 0 {
      home := map[];
    } else {
      var before := HomeOf(items, n - 1, next);
      home := before[items[n - 1].id := items[n - 1].ref];
    }
  }

  lemma FreshIsAtHome(w: World) returns (home: map<nat, nat>)
    requires Fresh(w)
    ensures Homed(w, home)
  {
    var items := w.store.items;
    assert forall i | 0 <= i < |items| :: items[i] in items && items[i].id < w.store.next;
    home := HomeOf(items, |items|, w.store.next);
    hide SameObjectSameRow, DistinctIds;
    forall r | r in items
      ensures AtHome(r, home, w.hub, w.refs)
    {
      var i :| 0 <= i < |items| && items[i] == r;
    }
  }

  /** Over every run, whatever the user, other writers and failures do in between: a row is linked
      only to a hub row that hangs off the hub's side of the row's own reference, so an annotation is
      neither pushed to nor pulled from another document. */
  lemma LinksStayWithinReferences(w: World, es: seq<Event>, r: Row)
    requires Fresh(w) && r in Run(w, es).store.items && r.Linked()
    ensures var now := Run(w, es);
            now.refs == w.refs && r.Link() in now.hub.rows && (r.ref, now.hub.rows[r.Link()].ref) in w.refs
  {
    hide Fresh, Step, Run;
    var home := FreshIsAtHome(w);
    var home' := RunAtHome(w, home, es);
    hide HubMinted, PhaseAtHome;
    assert AtHome(r, home', Run(w, es).hub, w.refs);
  }
}
