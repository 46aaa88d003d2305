/** A sync nothing interferes with: what one push, one pull and the whole pass leave behind. */
module AnnotationQuiet {
  import opened Options
  import opened AnnotationStore
  import opened AnnotationSync

  function PushedQuietly(w: World, a: Row): World {
    if Skipped(w.refs, a) then Step(w, Skip) else Step(Step(Step(w, Send), HubApply), ReplyOk)
  }

  function PulledQuietly(w: World): World {
    Step(Step(w, List), ListOk)
  }

  /** The push loop from row `i` on. */
  function PushedFrom(w: World, locals: seq<Row>, i: nat): World
    decreases |locals| - i
  {
    if i >= |locals| then w else PushedFrom(PushedQuietly(w, locals[i]), locals, i + 1)
  }

  /** The pull loop with `left` references still to list. */
  function PulledFrom(w: World, left: nat): World
    decreases left
  {
    if left == 0 then w else PulledFrom(PulledQuietly(w), left - 1)
  }

  /** A whole sync that nothing interferes with. */
  function SyncedQuietly(w: World): World {
    Step(PulledFrom(Step(PushedFrom(Step(w, Begin), w.store.items, 0), StartPull), |w.refs|), Finish)
  }

  /** All rows linked and clean, and every hub row of a synced reference is on the device. */
  ghost predicate Settled(items: seq<Row>, hub: Hub, refs: seq<(nat, nat)>) {
    && AllClean(items)
    && (forall k | 0 <= k < |refs| :: Present(items, hub, refs[k].1))
  }

  predicate AllClean(items: seq<Row>) {
    forall r | r in items :: r.Linked() && !r.dirty
  }

  /** Every hub row under the hub reference `ref` is linked from the device. */
  ghost predicate Present(items: seq<Row>, hub: Hub, ref: nat) {
    forall h | h in hub.rows && hub.rows[h].ref == ref :: h in Links(items)
  }

  /** Every row hangs off a reference that has a hub id. */
  predicate AllParentsSynced(items: seq<Row>, refs: seq<(nat, nat)>) {
    forall r | r in items :: HubRefOf(refs, r.ref).Some?
  }

  /** Same annotation under the same reference; the link and the flag may differ. */
  predicate SameRow(r: Row, r': Row) {
    r.id == r'.id && r.ref == r'.ref && r.content == r'.content
  }

  predicate SamePrefix(items: seq<Row>, items': seq<Row>) {
    |items| <= |items'| && forall j | 0 <= j < |items| :: SameRow(items[j], items'[j])
  }

  /** The hub row is linked from one row of the device and no other. */
  predicate LinkedOnce(items: seq<Row>, h: nat) {
    exists i | 0 <= i < |items| ::
      items[i].hubId == Some(Minted(h)) && forall j | 0 <= j < |items| && items[j].hubId == Some(Minted(h)) :: j == i
  }

  lemma SamePrefixTransitive(a: seq<Row>, b: seq<Row>, c: seq<Row>)
    ensures SamePrefix(a, b) && SamePrefix(b, c) ==> SamePrefix(a, c)
  {
  }

  /** Rows before `i` are pushed, rows from `i` on are untouched. */
  predicate Aligned(items: seq<Row>, locals: seq<Row>, i: nat) {
    && |items| == |locals| && SamePrefix(locals, items)
    && (forall j | 0 <= j < i && j < |items| :: items[j].Linked() && !items[j].dirty)
    && (forall j | i <= j < |items| :: items[j] == locals[j])
  }

  lemma UntouchedRowIsFound(items: seq<Row>, i: nat)
    requires DistinctIds(items) && i < |items|
    ensures Find(items, items[i].id) == Some(items[i])
  {
    var cur := Find(items, items[i].id);
    assert items[i] in items;
    var j :| 0 <= j < |items| && items[j] == cur.value;
  }

  lemma WriteBackAligned(s: Store, locals: seq<Row>, i: nat, h: nat)
    requires DistinctIds(s.items) && i < |locals| && Aligned(s.items, locals, i)
    ensures Aligned(WriteBack(s, locals[i], Minted(h)).items, locals, i + 1)
  {
    UntouchedRowIsFound(s.items, i);
    var t := WriteBack(s, locals[i], Minted(h)).items;
    assert (locals[i].content.opt + map[]) - {} == locals[i].content.opt;
    forall j | 0 <= j < |t|
      ensures SameRow(locals[j], t[j]) && (j != i ==> t[j] == s.items[j])
    {
      if j != i {
        assert s.items[j].id != s.items[i].id;
      }
    }
  }

  /** Where an answered request leads. */
  lemma PushSteps(w: World, locals: seq<Row>, i: nat)
    requires w.phase == Pushing(locals, i) && i < |locals| && !Skipped(w.refs, locals[i]) && HubRefOf(w.refs, locals[i].ref).Some?
    ensures var w' := PushedQuietly(w, locals[i]);
            && w'.phase == Pushing(locals, i + 1) && w'.refs == w.refs
            && exists h: nat :: w'.store == WriteBack(w.store, locals[i], Minted(h))
  {
    hide HubServe, WriteBack, Skipped;
    var (hub, h) := HubServe(w.hub, HubRefOf(w.refs, locals[i].ref).value, locals[i]);
    var w2 := Step(Step(w, Send), HubApply);
    assert w2 == w.(hub := hub, phase := Answered(locals, i, h));
    assert Step(w2, ReplyOk).store == WriteBack(w.store, locals[i], Minted(h));
  }

  lemma PushedKeeps(w: World, a: Row)
    requires Inv(w)
    ensures Inv(PushedQuietly(w, a))
  {
    hide Inv, Step;
    if Skipped(w.refs, a) {
      StepKeeps(w, Skip);
    } else {
      StepKeeps(w, Send);
      StepKeeps(Step(w, Send), HubApply);
      StepKeeps(Step(Step(w, Send), HubApply), ReplyOk);
    }
  }

  /** One undisturbed iteration of the push loop. */
  lemma PushQuietly(w: World, locals: seq<Row>, i: nat)
    requires Inv(w) && w.phase == Pushing(locals, i) && i < |locals|
    requires Aligned(w.store.items, locals, i) && HubRefOf(w.refs, locals[i].ref).Some?
    ensures var w' := PushedQuietly(w, locals[i]);
            && Inv(w') && w'.phase == Pushing(locals, i + 1) && w'.refs == w.refs
            && Aligned(w'.store.items, locals, i + 1)
            && (locals[i].Linked() && !locals[i].dirty ==> w'.store == w.store && w'.hub == w.hub && w'.tally == w.tally)
  {
    hide Inv, HubRefOf, WriteBack, HubServe;
    PushedKeeps(w, locals[i]);
    if Skipped(w.refs, locals[i]) {
      assert PushedQuietly(w, locals[i]) == w.(phase := Pushing(locals, i + 1));
    } else {
      InvDistinct(w);
      PushSteps(w, locals, i);
      hide PushedQuietly;
      var h: nat :| PushedQuietly(w, locals[i]).store == WriteBack(w.store, locals[i], Minted(h));
      hide Skipped, Step;
      WriteBackAligned(w.store, locals, i, h);
      hide Aligned;
    }
  }

  lemma InvDistinct(w: World)
    requires Inv(w)
    ensures DistinctIds(w.store.items)
  {
  }

  /** The pull loop adds clean linked rows for exactly the missing ids. */
  lemma {:induction false} PullRowsQuietly(s: Store, have: set<nat>, rows: seq<(nat, HubBody)>, ref: nat)
    requires have == Links(s.items) && AllClean(s.items)
    ensures var (t, have', n) := PullRows(s, have, rows, ref);
            && SamePrefix(s.items, t.items) && AllClean(t.items) && have' == Links(t.items)
            && have <= have' && (forall x | x in rows :: x.0 in have')
            && ((forall x | x in rows :: x.0 in have) ==> t == s && n == 0)
    decreases |rows|
  {
    if rows == [] {
    } else if rows[0].0 in have {
      hide AllClean, Links, SamePrefix;
      PullRowsQuietly(s, have, rows[1..], ref);
    } else {
      AddPulledQuietly(s, ref, rows[0].1, rows[0].0);
      var t := Add(s, ref, HubToAnnotation(rows[0].1), Some(Minted(rows[0].0)), true);
      hide Add, AllClean, Links, SamePrefix;
      PullRowsQuietly(t, have + {rows[0].0}, rows[1..], ref);
      SamePrefixTransitive(s.items, t.items, PullRows(s, have, rows, ref).0.items);
    }
  }

  /** `r` holds the listed hub row `x` under the reference `ref`, clean and linked. */
  ghost predicate HoldsListed(r: Row, x: (nat, HubBody), ref: nat) {
    r.ref == ref && r.hubId == Some(Minted(x.0)) && !r.dirty && ReadFrom(r.content, x.1)
  }

  ghost predicate HoldsOneOf(r: Row, have: set<nat>, rows: seq<(nat, HubBody)>, ref: nat) {
    exists x :: x in rows && x.0 !in have && HoldsListed(r, x, ref)
  }

  lemma HoldsMore(have: set<nat>, more: set<nat>, rows: seq<(nat, HubBody)>, ref: nat)
    requires rows != [] && have <= more
    ensures forall r | HoldsOneOf(r, more, rows[1..], ref) :: HoldsOneOf(r, have, rows, ref)
  {
    hide HoldsListed;
    forall r | HoldsOneOf(r, more, rows[1..], ref)
      ensures HoldsOneOf(r, have, rows, ref)
    {
      var x :| x in rows[1..] && x.0 !in more && HoldsListed(r, x, ref);
      assert x in rows;
    }
  }

  /** The pull loop appends one clean row for each listed hub row it takes, read column by column,
      and touches no other; `n` counts them. */
  lemma {:induction false} PullRowsAreRead(s: Store, have: set<nat>, rows: seq<(nat, HubBody)>, ref: nat)
    ensures var (t, have', n) := PullRows(s, have, rows, ref);
            && s.items <= t.items && |t.items| == |s.items| + n
            && forall j | |s.items| <= j < |t.items| :: HoldsOneOf(t.items[j], have, rows, ref)
    decreases |rows|
  {
    if rows != [] && rows[0].0 in have {
      PullRowsAreRead(s, have, rows[1..], ref);
      HoldsMore(have, have, rows, ref);
    } else if rows != [] {
      var (h, b) := rows[0];
      var m := Add(s, ref, HubToAnnotation(b), Some(Minted(h)), true);
      AddPulledIsRead(s, ref, b, h);
      PullRowsAreRead(m, have + {h}, rows[1..], ref);
      var t := PullRows(s, have, rows, ref).0;
      assert t == PullRows(m, have + {h}, rows[1..], ref).0;
      hide HoldsListed, Add, PullRows;
      assert t.items[|s.items|] == m.items[|s.items|] && rows[0] in rows;
      HoldsMore(have, have + {h}, rows, ref);
    }
  }

  lemma AddPulledIsRead(s: Store, ref: nat, b: HubBody, h: nat)
    ensures var t := Add(s, ref, HubToAnnotation(b), Some(Minted(h)), true);
            s.items <= t.items && |t.items| == |s.items| + 1 && HoldsListed(t.items[|s.items|], (h, b), ref)
  {
    PulledIsReadFrom(b);
    hide ReadFrom;
  }

  /** `r` holds the hub row it links, read column by column, under the reference of that hub row. */
  ghost predicate ReadRow(r: Row, hub: Hub, refs: seq<(nat, nat)>) {
    && r.Linked() && r.Link() in hub.rows && ReadFrom(r.content, hub.rows[r.Link()].body)
    && (r.ref, hub.rows[r.Link()].ref) in refs
  }

  /** The rows that were there come first, untouched; those after them are read from the hub. */
  ghost predicate PulledOnto(items: seq<Row>, items': seq<Row>, hub: Hub, refs: seq<(nat, nat)>) {
    items <= items' && forall j | |items| <= j < |items'| :: ReadRow(items'[j], hub, refs)
  }

  lemma PulledOntoTransitive(a: seq<Row>, b: seq<Row>, c: seq<Row>, hub: Hub, refs: seq<(nat, nat)>)
    requires PulledOnto(a, b, hub, refs) && PulledOnto(b, c, hub, refs)
    ensures PulledOnto(a, c, hub, refs)
  {
    hide ReadRow;
    forall j | |a| <= j < |c|
      ensures ReadRow(c[j], hub, refs)
    {
      if j < |b| { assert c[j] == b[j]; }
    }
  }

  lemma AddPulledQuietly(s: Store, ref: nat, b: HubBody, h: nat)
    requires AllClean(s.items)
    ensures var t := Add(s, ref, HubToAnnotation(b), Some(Minted(h)), true);
            SamePrefix(s.items, t.items) && AllClean(t.items) && Links(t.items) == Links(s.items) + {h}
  {
    var t := Add(s, ref, HubToAnnotation(b), Some(Minted(h)), true);
    assert t.items[..|s.items|] == s.items;
    var row := t.items[|s.items|];
    assert row in t.items && row.Link() == h;
    assert forall x | x in s.items :: x in t.items;
  }

  lemma {:induction false} OwnReferenceIsSynced(refs: seq<(nat, nat)>, k: nat)
    requires k < |refs|
    ensures HubRefOf(refs, refs[k].0).Some?
  {
    if k < |refs| - 1 {
      OwnReferenceIsSynced(refs[..|refs| - 1], k);
    }
  }

  /** A pulled row hangs off the reference it was listed under. */
  lemma {:induction false} PullRowsKeepParents(s: Store, have: set<nat>, rows: seq<(nat, HubBody)>, ref: nat, refs: seq<(nat, nat)>)
    requires AllParentsSynced(s.items, refs) && HubRefOf(refs, ref).Some?
    ensures AllParentsSynced(PullRows(s, have, rows, ref).0.items, refs)
    decreases |rows|
  {
    hide HubRefOf, HubToAnnotation, WithSortIndex;
    if rows == [] {
    } else if rows[0].0 in have {
      hide AllParentsSynced;
      PullRowsKeepParents(s, have, rows[1..], ref, refs);
    } else {
      var t := Add(s, ref, HubToAnnotation(rows[0].1), Some(Minted(rows[0].0)), true);
      assert AllParentsSynced(t.items, refs);
      hide AllParentsSynced, Add;
      PullRowsKeepParents(t, have + {rows[0].0}, rows[1..], ref, refs);
    }
  }

  lemma AlignedKeepsParents(items: seq<Row>, locals: seq<Row>, refs: seq<(nat, nat)>)
    requires AllParentsSynced(locals, refs) && |items| == |locals| && SamePrefix(locals, items)
    ensures AllParentsSynced(items, refs)
  {
    hide HubRefOf;
    forall r | r in items
      ensures HubRefOf(refs, r.ref).Some?
    {
      var j :| 0 <= j < |items| && items[j] == r;
      assert locals[j] in locals;
    }
  }

  /** Where an answered listing leads. */
  lemma PullSteps(w: World, have: set<nat>, k: nat)
    requires w.phase == Pulling(have, k) && k < |w.refs|
    ensures var (store, have', n) := PullRows(w.store, have, Listing(w.hub.rows, w.refs[k].1, w.hub.minted), w.refs[k].0);
            PulledQuietly(w) == w.(store := store, phase := Pulling(have', k + 1), tally := w.tally.(pulledAdded := w.tally.pulledAdded + n))
  {
    hide Step;
    ListSteps(w, have, k);
    var w1 := Step(w, List);
    ListOkSteps(w1, have, k, w1.phase.rows);
  }

  /** One answered listing, with the hub as it is: what it appends is read from the hub. */
  lemma PullReads(w: World, have: set<nat>, k: nat)
    requires w.phase == Pulling(have, k) && k < |w.refs|
    ensures PulledOnto(w.store.items, PulledQuietly(w).store.items, w.hub, w.refs)
  {
    PullSteps(w, have, k);
    var rows := Listing(w.hub.rows, w.refs[k].1, w.hub.minted);
    PullRowsAreRead(w.store, have, rows, w.refs[k].0);
    var items, items' := w.store.items, PulledQuietly(w).store.items;
    assert forall x | x in rows :: x.0 in w.hub.rows && w.hub.rows[x.0] == HubRow(w.refs[k].1, x.1);
    assert (w.refs[k].0, w.refs[k].1) in w.refs;
    hide PulledQuietly, PullRows, Listing, ReadFrom;
    forall j | |items| <= j < |items'|
      ensures ReadRow(items'[j], w.hub, w.refs)
    {
      assert HoldsOneOf(items'[j], have, rows, w.refs[k].0);
      var x :| x in rows && HoldsListed(items'[j], x, w.refs[k].0);
    }
  }

  lemma PulledQuietlyKeeps(w: World)
    requires Inv(w)
    ensures Inv(PulledQuietly(w))
  {
    hide Inv, Step;
    StepKeeps(w, List);
    StepKeeps(Step(w, List), ListOk);
  }

  lemma ListingIsPresent(hub: Hub, ref: nat, have: set<nat>, items: seq<Row>)
    requires (forall h | h in hub.rows :: h < hub.minted) && have == Links(items)
    ensures (forall x | x in Listing(hub.rows, ref, hub.minted) :: x.0 in have) <==> Present(items, hub, ref)
  {
    hide Links;
    var rows := Listing(hub.rows, ref, hub.minted);
    if forall x | x in rows :: x.0 in have {
      forall h | h in hub.rows && hub.rows[h].ref == ref
        ensures h in have
      {
        assert (h, hub.rows[h].body) in rows;
      }
    }
  }

  /** One undisturbed iteration of the pull loop. */
  lemma PullQuietly(w: World, have: set<nat>, k: nat)
    requires Inv(w) && w.phase == Pulling(have, k) && k < |w.refs|
    requires have == Links(w.store.items) && AllClean(w.store.items)
    ensures var w' := PulledQuietly(w);
            && Inv(w') && w'.phase.Pulling? && w'.phase.have == Links(w'.store.items) && w'.phase.k == k + 1
            && w'.refs == w.refs && w'.hub == w.hub
            && SamePrefix(w.store.items, w'.store.items) && AllClean(w'.store.items)
            && have <= w'.phase.have && Present(w'.store.items, w.hub, w.refs[k].1)
            && (Present(w.store.items, w.hub, w.refs[k].1) ==> w'.store == w.store && w'.tally == w.tally)
  {
    PulledQuietlyKeeps(w);
    InvMinted(w);
    PullSteps(w, have, k);
    hide Inv, PulledQuietly, AllClean, Links, SamePrefix, Present, Listing, PullRows;
    var rows := Listing(w.hub.rows, w.refs[k].1, w.hub.minted);
    PullRowsQuietly(w.store, have, rows, w.refs[k].0);
    var w' := PulledQuietly(w);
    ListingIsPresent(w.hub, w.refs[k].1, have, w.store.items);
    ListingIsPresent(w.hub, w.refs[k].1, w'.phase.have, w'.store.items);
  }

  lemma PullKeepsParents(w: World, have: set<nat>, k: nat)
    requires w.phase == Pulling(have, k) && k < |w.refs| && AllParentsSynced(w.store.items, w.refs)
    ensures AllParentsSynced(PulledQuietly(w).store.items, w.refs)
  {
    hide AllParentsSynced, HubRefOf, PullRows, Listing, PulledQuietly;
    OwnReferenceIsSynced(w.refs, k);
    PullSteps(w, have, k);
    PullRowsKeepParents(w.store, have, Listing(w.hub.rows, w.refs[k].1, w.hub.minted), w.refs[k].0, w.refs);
  }

  lemma InvMinted(w: World)
    requires Inv(w)
    ensures forall h | h in w.hub.rows :: h < w.hub.minted
  {
  }

  // ---- The whole sync -----------------------------------------------------------

  /** The rest of an undisturbed push loop. */
  lemma {:induction false} PushesQuietly(w: World, locals: seq<Row>, i: nat)
    requires Inv(w) && w.phase == Pushing(locals, i) && Aligned(w.store.items, locals, i) && AllParentsSynced(locals, w.refs)
    ensures var w' := PushedFrom(w, locals, i);
            && Inv(w') && w'.phase == Pushing(locals, |locals|) && w'.refs == w.refs
            && Aligned(w'.store.items, locals, |locals|)
            && (AllClean(locals) ==> w'.store == w.store && w'.hub == w.hub && w'.tally == w.tally)
    decreases |locals| - i
  {
    assert i <= |locals| by { hide AllParentsSynced, Aligned, AllClean; }
    hide Inv, PushedQuietly, Aligned, HubRefOf;
    if i < |locals| {
      assert locals[i] in locals;
      PushQuietly(w, locals, i);
      PushesQuietly(PushedQuietly(w, locals[i]), locals, i + 1);
    }
  }

  /** The references from `k` on are all listed. */
  ghost predicate PresentUpTo(items: seq<Row>, hub: Hub, refs: seq<(nat, nat)>, k: nat) {
    forall j | 0 <= j < k && j < |refs| :: Present(items, hub, refs[j].1)
  }

  /** The rest of an undisturbed pull loop. */
  lemma {:induction false} PullsQuietly(w: World, have: set<nat>, k: nat)
    requires Inv(w) && w.phase == Pulling(have, k) && k <= |w.refs| && have == Links(w.store.items)
    requires AllClean(w.store.items) && AllParentsSynced(w.store.items, w.refs) && PresentUpTo(w.store.items, w.hub, w.refs, k)
    ensures var w' := PulledFrom(w, |w.refs| - k);
            && Inv(w') && w'.phase.Pulling? && w'.phase.k == |w.refs| && w'.refs == w.refs && w'.hub == w.hub
            && SamePrefix(w.store.items, w'.store.items) && AllClean(w'.store.items) && AllParentsSynced(w'.store.items, w.refs)
            && PresentUpTo(w'.store.items, w.hub, w.refs, |w.refs|) && PulledOnto(w.store.items, w'.store.items, w.hub, w.refs)
            && (PresentUpTo(w.store.items, w.hub, w.refs, |w.refs|) ==> w'.store == w.store && w'.tally == w.tally)
    decreases |w.refs| - k
  {
    hide Inv, PulledQuietly, AllClean, AllParentsSynced, SamePrefix, Links, Present, ReadRow;
    SamePrefixReflexive(w.store.items);
    assert PulledOnto(w.store.items, w.store.items, w.hub, w.refs);
    hide PulledOnto;
    if k < |w.refs| {
      PullQuietly(w, have, k);
      PullKeepsParents(w, have, k);
      PullReads(w, have, k);
      var m := PulledQuietly(w);
      PresentLater(w, m, k);
      PullsQuietly(m, m.phase.have, k + 1);
      SamePrefixTransitive(w.store.items, m.store.items, PulledFrom(w, |w.refs| - k).store.items);
      PulledOntoTransitive(w.store.items, m.store.items, PulledFrom(w, |w.refs| - k).store.items, w.hub, w.refs);
    }
  }

  lemma SamePrefixReflexive(items: seq<Row>)
    ensures SamePrefix(items, items)
  {
  }

  lemma PresentLater(w: World, m: World, k: nat)
    requires PresentUpTo(w.store.items, w.hub, w.refs, k) && k < |w.refs| && m.refs == w.refs && m.hub == w.hub
    requires Links(w.store.items) <= Links(m.store.items) && Present(m.store.items, w.hub, w.refs[k].1)
    ensures PresentUpTo(m.store.items, m.hub, m.refs, k + 1)
  {
  }

  /** The push phase: every row ends linked and clean. */
  lemma PushSettles(w: World)
    requires Inv(w) && w.phase.Idle? && AllParentsSynced(w.store.items, w.refs)
    ensures var q := Step(PushedFrom(Step(w, Begin), w.store.items, 0), StartPull);
            && Inv(q) && q.phase == Pulling(Links(q.store.items), 0) && q.refs == w.refs
            && AllClean(q.store.items) && AllParentsSynced(q.store.items, w.refs)
            && SamePrefix(w.store.items, q.store.items) && |q.store.items| == |w.store.items|
            && |PushedFrom(Step(w, Begin), w.store.items, 0).store.items| == |w.store.items|
            && (AllClean(w.store.items) ==> q.store == w.store && q.hub == w.hub && q.tally == Tally(0, 0, 0, 0, 0))
  {
    hide Inv, Links, HubRefOf, PushedFrom, AllClean;
    var items := w.store.items;
    var b := Step(w, Begin);
    StepKeeps(w, Begin);
    SamePrefixReflexive(items);
    assert Aligned(b.store.items, items, 0);
    PushesQuietly(b, items, 0);
    var p := PushedFrom(b, items, 0);
    AlignedKeepsParents(p.store.items, items, w.refs);
    AlignedIsClean(p.store.items, items);
    StepKeeps(p, StartPull);
    hide SamePrefix, AllParentsSynced;
  }

  // ---- What is counted ----------------------------------------------------------

  /** The rows from `i` on that are linked and dirty. */
  function ToPush(items: seq<Row>, i: nat): nat
    decreases |items| - i
  {
    if i >= |items| then 0 else ToPush(items, i + 1) + if items[i].Linked() && items[i].dirty then 1 else 0
  }

  /** The rows from `i` on that the hub lacks. */
  function ToCreate(items: seq<Row>, i: nat): nat
    decreases |items| - i
  {
    if i >= |items| then 0 else ToCreate(items, i + 1) + if items[i].Linked() then 0 else 1
  }

  lemma PushCounts(w: World, locals: seq<Row>, i: nat)
    requires w.phase == Pushing(locals, i) && i < |locals| && HubRefOf(w.refs, locals[i].ref).Some?
    ensures var w' := PushedQuietly(w, locals[i]);
            && w'.phase == Pushing(locals, i + 1) && w'.refs == w.refs
            && w'.tally == w.tally.(pushed := w.tally.pushed + if locals[i].Linked() && locals[i].dirty then 1 else 0,
                                    created := w.tally.created + if locals[i].Linked() then 0 else 1)
  {
    hide HubServe, WriteBack, HubRefOf;
    var a := locals[i];
    if !Skipped(w.refs, a) {
      var (hub, h) := HubServe(w.hub, HubRefOf(w.refs, a.ref).value, a);
      var w2 := Step(Step(w, Send), HubApply);
      assert w2 == w.(hub := hub, phase := Answered(locals, i, h));
    }
  }

  lemma {:induction false} PushesCount(w: World, locals: seq<Row>, i: nat)
    requires w.phase == Pushing(locals, i) && i <= |locals| && AllParentsSynced(locals, w.refs)
    ensures PushedFrom(w, locals, i).tally ==
            w.tally.(pushed := w.tally.pushed + ToPush(locals, i), created := w.tally.created + ToCreate(locals, i))
    ensures PushedFrom(w, locals, i).phase == Pushing(locals, |locals|)
    decreases |locals| - i
  {
    hide PushedQuietly, HubRefOf;
    if i < |locals| {
      assert locals[i] in locals;
      PushCounts(w, locals, i);
      PushesCount(PushedQuietly(w, locals[i]), locals, i + 1);
    }
  }

  lemma {:induction false} PullsCount(w: World, have: set<nat>, k: nat)
    requires w.phase == Pulling(have, k) && k <= |w.refs|
    ensures var w' := PulledFrom(w, |w.refs| - k);
            && w'.phase.Pulling? && w'.phase.k == |w.refs| && w'.refs == w.refs && |w'.store.items| >= |w.store.items|
            && w'.tally == w.tally.(pulledAdded := w.tally.pulledAdded + (|w'.store.items| - |w.store.items|))
    decreases |w.refs| - k
  {
    hide PulledQuietly, PullRows, Listing, HoldsOneOf;
    if k < |w.refs| {
      PullSteps(w, have, k);
      PullRowsAreRead(w.store, have, Listing(w.hub.rows, w.refs[k].1, w.hub.minted), w.refs[k].0);
      var m := PulledQuietly(w);
      PullsCount(m, m.phase.have, k + 1);
    }
  }

  /** Each dirty linked row is counted as pushed, each row the hub lacked as created, each row added
      as pulled, and nothing else is counted. */
  lemma SyncCounts(w: World)
    requires w.phase.Idle? && AllParentsSynced(w.store.items, w.refs)
    ensures var w' := SyncedQuietly(w);
            && |w'.store.items| >= |PushedFrom(Step(w, Begin), w.store.items, 0).store.items|
            && w'.tally == Tally(ToPush(w.store.items, 0), ToCreate(w.store.items, 0),
                                 |w'.store.items| - |PushedFrom(Step(w, Begin), w.store.items, 0).store.items|, 0, 0)
  {
    hide PushedFrom, PulledFrom, ToPush, ToCreate, Links, AllParentsSynced;
    BeginSteps(w);
    PushesCount(Step(w, Begin), w.store.items, 0);
    var p := PushedFrom(Step(w, Begin), w.store.items, 0);
    assert p.refs == w.refs by { PushesKeepRefs(Step(w, Begin), w.store.items, 0); }
    StartPullSteps(p, w.store.items);
    var q := Step(p, StartPull);
    PullsCount(q, Links(p.store.items), 0);
    var r := PulledFrom(q, |w.refs|);
    FinishSteps(r, r.phase.have);
    hide Step;
  }

  lemma {:induction false} PushesKeepRefs(w: World, locals: seq<Row>, i: nat)
    requires w.phase == Pushing(locals, i) && i <= |locals| && AllParentsSynced(locals, w.refs)
    ensures PushedFrom(w, locals, i).refs == w.refs
    decreases |locals| - i
  {
    hide PushedQuietly, HubRefOf;
    if i < |locals| {
      assert locals[i] in locals;
      PushCounts(w, locals, i);
      PushesKeepRefs(PushedQuietly(w, locals[i]), locals, i + 1);
    }
  }

  /** At rest, and every row hangs off a synced reference. */
  ghost predicate ReadyToSync(w: World) {
    Inv(w) && w.phase.Idle? && AllParentsSynced(w.store.items, w.refs)
  }

  /** Every row links a hub row and says what it says, column by column. */
  ghost predicate AllInStep(items: seq<Row>, hub: Hub) {
    forall r | r in items :: r.Linked() && r.Link() in hub.rows && InStep(r.content, hub.rows[r.Link()].body)
  }

  /** The rows from `n` on are read from the hub. */
  ghost predicate ReadPast(items: seq<Row>, n: nat, hub: Hub, refs: seq<(nat, nat)>) {
    forall j | n <= j < |items| :: ReadRow(items[j], hub, refs)
  }

  /** `w'` is `w` settled: every row linked, clean and in step with its hub row, every hub row of a
      synced reference on the device, the rows that were there still what they were and those after
      them read from the hub; each dirty linked row was counted as pushed, each row the hub lacked as
      created and each row added as pulled; and if `w` was settled already then nothing changed and
      nothing was counted. */
  ghost predicate Settles(w: World, w': World) {
    && w'.refs == w.refs
    && Settled(w'.store.items, w'.hub, w.refs) && SamePrefix(w.store.items, w'.store.items)
    && AllInStep(w'.store.items, w'.hub) && ReadPast(w'.store.items, |w.store.items|, w'.hub, w.refs)
    && |w'.store.items| >= |w.store.items|
    && w'.tally == Tally(ToPush(w.store.items, 0), ToCreate(w.store.items, 0), |w'.store.items| - |w.store.items|, 0, 0)
    && (Settled(w.store.items, w.hub, w.refs) ==>
          w'.store == w.store && w'.hub == w.hub && w'.tally == Tally(0, 0, 0, 0, 0))
  }

  /** The pull phase: every hub row of a synced reference is on the device. */
  lemma PullSettles(q: World)
    requires Inv(q) && q.phase == Pulling(Links(q.store.items), 0)
    requires AllClean(q.store.items) && AllParentsSynced(q.store.items, q.refs)
    ensures var w' := Step(PulledFrom(q, |q.refs|), Finish);
            && Inv(w') && w'.phase.Idle? && w'.refs == q.refs && w'.hub == q.hub
            && Settled(w'.store.items, w'.hub, q.refs) && SamePrefix(q.store.items, w'.store.items)
            && AllParentsSynced(w'.store.items, q.refs)
            && PulledOnto(q.store.items, w'.store.items, q.hub, q.refs)
            && (Settled(q.store.items, q.hub, q.refs) ==> w'.store == q.store && w'.tally == q.tally)
  {
    hide Inv, Links, AllParentsSynced, AllClean, SamePrefix, Present, PulledFrom, PulledOnto;
    PullsQuietly(q, Links(q.store.items), 0);
    var r := PulledFrom(q, |q.refs|);
    StepKeeps(r, Finish);
    assert Step(r, Finish) == r.(phase := Idle);
    hide Step;
  }

  /** An undisturbed sync of a device whose references are all synced settles it, and leaves it
      ready to sync again. */
  lemma SyncSettles(w: World)
    requires ReadyToSync(w)
    ensures ReadyToSync(SyncedQuietly(w)) && Settles(w, SyncedQuietly(w))
  {
    hide Inv, Links, Step, PushedFrom, AllParentsSynced, AllClean, SamePrefix, Present, PulledFrom, AllInStep, ReadRow;
    PushSettles(w);
    var q := Step(PushedFrom(Step(w, Begin), w.store.items, 0), StartPull);
    PullSettles(q);
    SamePrefixTransitive(w.store.items, q.store.items, SyncedQuietly(w).store.items);
    CleanIsInStep(SyncedQuietly(w));
    hide ToPush, ToCreate;
    SyncCounts(w);
  }

  lemma CleanIsInStep(w: World)
    requires Inv(w) && AllClean(w.store.items)
    ensures AllInStep(w.store.items, w.hub)
  {
    hide InStep;
  }

  lemma AlignedIsClean(items: seq<Row>, locals: seq<Row>)
    requires Aligned(items, locals, |locals|)
    ensures AllClean(items)
  {
  }

  /** Converges and is idempotent: one sync settles the device, and a second one right after it
      pushes, creates, pulls, defers and loses nothing and leaves both stores as they were. */
  lemma SecondSyncDoesNothing(w: World)
    requires ReadyToSync(w)
    ensures var w1 := SyncedQuietly(w);
            var w2 := SyncedQuietly(w1);
            && Settled(w1.store.items, w1.hub, w.refs) && AllInStep(w1.store.items, w1.hub)
            && w2.store == w1.store && w2.hub == w1.hub && w2.tally == Tally(0, 0, 0, 0, 0)
    ensures var w1 := SyncedQuietly(w);
            forall k, h | 0 <= k < |w.refs| && h in w1.hub.rows && w1.hub.rows[h].ref == w.refs[k].1 :: LinkedOnce(w1.store.items, h)
  {
    hide Inv, SyncedQuietly, Settled, AllParentsSynced, LinkedOnce, AllInStep, ReadPast;
    SyncSettles(w);
    var w1 := SyncedQuietly(w);
    SyncSettles(w1);
    forall k, h | 0 <= k < |w.refs| && h in w1.hub.rows && w1.hub.rows[h].ref == w.refs[k].1
      ensures LinkedOnce(w1.store.items, h)
    {
      PresentIsLinked(w1, w.refs, k, h);
      LinksAreDistinct(w1, h);
    }
  }

  lemma PresentIsLinked(w: World, refs: seq<(nat, nat)>, k: nat, h: nat)
    requires Settled(w.store.items, w.hub, refs) && k < |refs| && h in w.hub.rows && w.hub.rows[h].ref == refs[k].1
    ensures h in Links(w.store.items)
  {
    hide Links;
    assert Present(w.store.items, w.hub, refs[k].1);
  }

  lemma InvLinks(w: World)
    requires Inv(w)
    ensures forall i, j | 0 <= i < j < |w.store.items| && w.store.items[i].Linked() && w.store.items[j].Linked() ::
              w.store.items[i].Link() != w.store.items[j].Link()
  {
  }

  lemma LinkedAt(items: seq<Row>, h: nat) returns (i: nat)
    requires h in Links(items)
    ensures i < |items| && items[i].hubId == Some(Minted(h))
  {
    var r :| r in items && r.Linked() && r.Link() == h;
    i :| 0 <= i < |items| && items[i] == r;
  }

  lemma LinksAreDistinct(w: World, h: nat)
    requires Inv(w) && h in Links(w.store.items)
    ensures LinkedOnce(w.store.items, h)
  {
    var items := w.store.items;
    InvLinks(w);
    hide Inv;
    var i := LinkedAt(items, h);
    hide Links;
    forall j | 0 <= j < |items| && items[j].hubId == Some(Minted(h))
      ensures j == i
    {
      assert items[j].Linked() && items[i].Linked() && items[j].Link() == items[i].Link();
    }
  }
}
