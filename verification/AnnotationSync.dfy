/** The annotation sync as a state machine over its await points. Code between two
    awaits is one event; user edits and other writers on the hub may land between
    any two events. */
module AnnotationSync {
  import opened Options
  import opened AnnotationStore

  datatype HubRow = HubRow(ref: nat, body: HubBody)

  /** The hub's table. Ids are minted from a counter, so an id is never reused. */
  datatype Hub = Hub(rows: map<nat, HubRow>, minted: nat)

  datatype Tally = Tally(pushed: nat, created: nat, pulledAdded: nat, deferred: nat, failed: nat)

  datatype Phase =
    | Idle
    | Pushing(locals: seq<Row>, i: nat)
    | Sent(locals: seq<Row>, i: nat)
    | Answered(locals: seq<Row>, i: nat, hubId: nat)
    | Pulling(have: set<nat>, k: nat)
    | Listed(have: set<nat>, k: nat, rows: seq<(nat, HubBody)>)

  /** `refs` pairs each local reference with its hub id, for the references that have one. */
  datatype World = World(store: Store, hub: Hub, refs: seq<(nat, nat)>, phase: Phase, tally: Tally)

  datatype Event =
    // the user, at any await
    | UserAdd(ref: nat, content: Content)
    | UserUpdate(id: nat, patch: Patch)
    | UserRemove(id: nat)
    | UserUndo
    // the app is closed and opened again: the rows were saved, the rest is gone
    | Restart
    // another writer draws a row on the hub
    | HubDraw(ref: nat, body: HubBody)
    // the sync itself
    | Begin
    | Skip
    | Send
    | HubApply
    | ReplyOk
    | ReplyWithoutId
    | ReplyFail
    | StartPull
    | List
    | ListOk
    | ListFail
    | Finish

  function HubRefOf(refs: seq<(nat, nat)>, local: nat): Option<nat> {
    if refs == [] then None
    else if refs[|refs| - 1].0 == local then Some(refs[|refs| - 1].1)
    else HubRefOf(refs[..|refs| - 1], local)
  }

  /** The parent has no hub id, or the row is linked and untouched since its last push. */
  predicate Skipped(refs: seq<(nat, nat)>, a: Row) {
    HubRefOf(refs, a.ref).None? || (a.Linked() && !a.dirty)
  }

  function Links(items: seq<Row>): set<nat> {
    set r | r in items && r.Linked() :: r.Link()
  }

  /** The ids below `n` whose rows hang off the hub reference `ref`. */
  function Listing(rows: map<nat, HubRow>, ref: nat, n: nat): (r: seq<(nat, HubBody)>)
    ensures forall x | x in r :: x.0 < n && x.0 in rows && rows[x.0] == HubRow(ref, x.1)
    ensures forall h | h < n && h in rows && rows[h].ref == ref :: (h, rows[h].body) in r
    ensures forall i, j | 0 <= i < j < |r| :: r[i].0 != r[j].0
  {
    if n == 0 then []
    else
      var rest := Listing(rows, ref, n - 1);
      if n - 1 in rows && rows[n - 1].ref == ref then rest + [(n - 1, rows[n - 1].body)] else rest
  }

  /** The loop over one listing: add what the device does not have yet. */
  function PullRows(s: Store, have: set<nat>, rows: seq<(nat, HubBody)>, ref: nat): (Store, set<nat>, nat)
    decreases |rows|
  {
    if rows == [] then (s, have, 0)
    else if rows[0].0 in have then PullRows(s, have, rows[1..], ref)
    else
      var (h, b) := rows[0];
      var s' := Add(s, ref, HubToAnnotation(b), Some(Minted(h)), true);
      var (s'', have', n) := PullRows(s', have + {h}, rows[1..], ref);
      (s'', have', n + 1)
  }

  function InsertRow(hub: Hub, ref: nat, b: HubBody): Hub {
    Hub(hub.rows[hub.minted := HubRow(ref, Inserted(b))], hub.minted + 1)
  }

  /** What the hub does with the request for `a`: PATCH the linked row, or insert a new one. */
  function HubServe(hub: Hub, ref: nat, a: Row): (Hub, nat) {
    var body := AnnToHubBody(a.content);
    if a.Linked() then
      var h := a.Link();
      (if h in hub.rows then hub.(rows := hub.rows[h := hub.rows[h].(body := Patched(hub.rows[h].body, body))]) else hub, h)
    else
      (InsertRow(hub, ref, body), hub.minted)
  }

  /** Only a user event or another hub writer; never part of the sync. */
  predicate FromOutside(e: Event) {
    e.UserAdd? || e.UserUpdate? || e.UserRemove? || e.UserUndo? || e.HubDraw?
  }

  /** The user, another writer on the hub, or a restart. */
  function OutsideStep(w: World, e: Event): World {
    match e
    case UserAdd(ref, c) => w.(store := Add(w.store, ref, c, None, false))
    case UserUpdate(id, p) => w.(store := Update(w.store, id, p.(hubId := None, dirty := None)))
    case UserRemove(id) => w.(store := Remove(w.store, id))
    case UserUndo => w.(store := Undo(w.store))
    case HubDraw(ref, b) =>
      w.(hub := InsertRow(w.hub, ref, b))
    case Restart => w.(store := w.store.(past := []), phase := Idle, tally := Tally(0, 0, 0, 0, 0))
    case _ => w
  }

  /** The push loop. An event that is not enabled leaves the world as it is. */
  function PushStep(w: World, e: Event): World {
    match e
    case Begin =>
      if w.phase.Idle? then w.(phase := Pushing(w.store.items, 0), tally := Tally(0, 0, 0, 0, 0)) else w
    case Skip =>
      if w.phase.Pushing? && w.phase.i < |w.phase.locals| && Skipped(w.refs, w.phase.locals[w.phase.i]) then
        var a := w.phase.locals[w.phase.i];
        w.(phase := Pushing(w.phase.locals, w.phase.i + 1),
           tally := if HubRefOf(w.refs, a.ref).None? then w.tally.(deferred := w.tally.deferred + 1) else w.tally)
      else w
    case Send =>
      if w.phase.Pushing? && w.phase.i < |w.phase.locals| && !Skipped(w.refs, w.phase.locals[w.phase.i]) then
        w.(phase := Sent(w.phase.locals, w.phase.i))
      else w
    case HubApply =>
      if w.phase.Sent? && w.phase.i < |w.phase.locals| && !Skipped(w.refs, w.phase.locals[w.phase.i]) then
        var a := w.phase.locals[w.phase.i];
        var (hub, h) := HubServe(w.hub, HubRefOf(w.refs, a.ref).value, a);
        w.(hub := hub, phase := Answered(w.phase.locals, w.phase.i, h))
      else w
    case ReplyOk =>
      if w.phase.Answered? && w.phase.i < |w.phase.locals| then
        var a := w.phase.locals[w.phase.i];
        w.(store := WriteBack(w.store, a, Minted(w.phase.hubId)), phase := Pushing(w.phase.locals, w.phase.i + 1),
           tally := if a.Linked() then w.tally.(pushed := w.tally.pushed + 1) else w.tally.(created := w.tally.created + 1))
      else w
    case ReplyWithoutId =>
      // Only a create reads the reply; without an id nothing is written back or counted.
      if w.phase.Answered? && w.phase.i < |w.phase.locals| && !w.phase.locals[w.phase.i].Linked() then
        w.(phase := Pushing(w.phase.locals, w.phase.i + 1))
      else w
    case ReplyFail =>
      // Before or after the hub applied the request: a lost reply looks the same.
      if (w.phase.Sent? || w.phase.Answered?) && w.phase.i < |w.phase.locals| then
        w.(phase := Pushing(w.phase.locals, w.phase.i + 1), tally := w.tally.(failed := w.tally.failed + 1))
      else w
    case _ => w
  }

  /** The pull loop. */
  function PullStep(w: World, e: Event): World {
    match e
    case StartPull =>
      if w.phase.Pushing? && w.phase.i == |w.phase.locals| then w.(phase := Pulling(Links(w.store.items), 0)) else w
    case List =>
      if w.phase.Pulling? && w.phase.k < |w.refs| then
        w.(phase := Listed(w.phase.have, w.phase.k, Listing(w.hub.rows, w.refs[w.phase.k].1, w.hub.minted)))
      else w
    case ListOk =>
      if w.phase.Listed? && w.phase.k < |w.refs| then
        var (store, have, n) := PullRows(w.store, w.phase.have, w.phase.rows, w.refs[w.phase.k].0);
        w.(store := store, phase := Pulling(have, w.phase.k + 1), tally := w.tally.(pulledAdded := w.tally.pulledAdded + n))
      else w
    case ListFail =>
      if (w.phase.Listed? || w.phase.Pulling?) && w.phase.k < |w.refs| then
        w.(phase := Pulling(w.phase.have, w.phase.k + 1), tally := w.tally.(failed := w.tally.failed + 1))
      else w
    case Finish =>
      if w.phase.Pulling? && w.phase.k == |w.refs| then w.(phase := Idle) else w
    case _ => w
  }

  function Step(w: World, e: Event): World {
    if FromOutside(e) || e.Restart? then OutsideStep(w, e)
    else if e.StartPull? || e.List? || e.ListOk? || e.ListFail? || e.Finish? then PullStep(w, e)
    else PushStep(w, e)
  }

  function Run(w: World, es: seq<Event>): World {
    if es == [] then w else Step(Run(w, es[..|es| - 1]), es[|es| - 1])
  }

  lemma RunSnoc(w: World, es: seq<Event>, e: Event)
    ensures Run(w, es + [e]) == Step(Run(w, es), e)
  {
    assert (es + [e])[..|es|] == es;
  }

  lemma {:induction false} RunConcat(w: World, es: seq<Event>, fs: seq<Event>)
    ensures Run(w, es + fs) == Run(Run(w, es), fs)
  {
    hide Step;
    if fs == [] {
      assert es + fs == es;
    } else {
      var init := fs[..|fs| - 1];
      assert (es + fs)[..|es + fs| - 1] == es + init;
      RunConcat(w, es, init);
    }
  }

  // ---- Single steps -----------------------------------------------------------

  lemma BeginSteps(w: World)
    requires w.phase.Idle?
    ensures Step(w, Begin) == w.(phase := Pushing(w.store.items, 0), tally := Tally(0, 0, 0, 0, 0))
  {
  }

  lemma SendSteps(w: World, locals: seq<Row>, i: nat)
    requires w.phase == Pushing(locals, i) && i < |locals| && !Skipped(w.refs, locals[i])
    ensures Step(w, Send) == w.(phase := Sent(locals, i))
  {
    hide Skipped;
  }

  lemma HubApplySteps(w: World, locals: seq<Row>, i: nat, parent: nat)
    requires w.phase == Sent(locals, i) && i < |locals| && !Skipped(w.refs, locals[i]) && HubRefOf(w.refs, locals[i].ref) == Some(parent)
    ensures var (hub, h) := HubServe(w.hub, parent, locals[i]);
            Step(w, HubApply) == w.(hub := hub, phase := Answered(locals, i, h))
  {
    hide HubServe;
  }

  lemma ReplyOkSteps(w: World, locals: seq<Row>, i: nat, h: nat)
    requires w.phase == Answered(locals, i, h) && i < |locals|
    ensures var w' := Step(w, ReplyOk);
            w' == w.(store := WriteBack(w.store, locals[i], Minted(h)), phase := Pushing(locals, i + 1), tally := w'.tally)
  {
    hide WriteBack;
  }

  lemma StartPullSteps(w: World, locals: seq<Row>)
    requires w.phase == Pushing(locals, |locals|)
    ensures Step(w, StartPull) == w.(phase := Pulling(Links(w.store.items), 0))
  {
    hide Links;
  }

  lemma ListSteps(w: World, have: set<nat>, k: nat)
    requires w.phase == Pulling(have, k) && k < |w.refs|
    ensures Step(w, List) == w.(phase := Listed(have, k, Listing(w.hub.rows, w.refs[k].1, w.hub.minted)))
  {
    hide Listing;
  }

  lemma ListOkSteps(w: World, have: set<nat>, k: nat, rows: seq<(nat, HubBody)>)
    requires w.phase == Listed(have, k, rows) && k < |w.refs|
    ensures var (store, have', n) := PullRows(w.store, have, rows, w.refs[k].0);
            Step(w, ListOk) == w.(store := store, phase := Pulling(have', k + 1), tally := w.tally.(pulledAdded := w.tally.pulledAdded + n))
  {
    hide PullRows;
  }

  lemma FinishSteps(w: World, have: set<nat>)
    requires w.phase == Pulling(have, |w.refs|)
    ensures Step(w, Finish) == w.(phase := Idle)
  {
  }

  lemma UpdateSteps(w: World, id: nat, p: Patch)
    ensures Step(w, UserUpdate(id, p)) == w.(store := Update(w.store, id, p.(hubId := None, dirty := None)))
  {
    hide Update;
  }

  lemma RemoveSteps(w: World, id: nat)
    ensures Step(w, UserRemove(id)) == w.(store := Remove(w.store, id))
  {
    hide Remove;
  }

  lemma UndoSteps(w: World)
    ensures Step(w, UserUndo) == w.(store := Undo(w.store))
  {
    hide Undo;
  }

  // ---- The invariant --------------------------------------------------------

  predicate DistinctIds(rows: seq<Row>) {
    forall i, j | 0 <= i < j < |rows| :: rows[i].id != rows[j].id
  }

  ghost predicate RowsOk(rows: seq<Row>, s: Store, hub: Hub) {
    && (forall r | r in rows :: r.id < s.next)
    && (forall r | r in rows && r.Linked() :: r.Link() in hub.rows)
    && DistinctIds(rows)
    && (forall i, j | 0 <= i < j < |rows| && rows[i].Linked() && rows[j].Linked() :: rows[i].Link() != rows[j].Link())
  }

  ghost predicate HubOk(hub: Hub) {
    forall h | h in hub.rows :: h < hub.minted && Stored(hub.rows[h].body.opt) == hub.rows[h].body.opt
  }

  /** Every linked row defines the text columns its hub row holds. */
  predicate Covered(items: seq<Row>, hub: Hub) {
    forall r | r in items && r.Linked() && r.Link() in hub.rows :: Keeps(r.content, hub.rows[r.Link()].body)
  }

  /** The claim: a linked row that is not dirty says what its hub row says. */
  ghost predicate Sound(items: seq<Row>, hub: Hub) {
    forall r | r in items && r.Linked() && !r.dirty :: r.Link() in hub.rows && InStep(r.content, hub.rows[r.Link()].body)
  }

  ghost predicate SameObjectSameRow(items: seq<Row>, locals: seq<Row>) {
    forall r, a | r in items && a in locals && r.obj == a.obj :: r == a
  }

  /** The rows the sync snapshotted, beside the store as it is now. */
  ghost predicate Tracks(w: World, locals: seq<Row>) {
    && RowsOk(locals, w.store, w.hub)
    && Covered(locals, w.hub)
    && (forall a | a in locals :: a.obj < w.store.next)
    && SameObjectSameRow(w.store.items, locals)
  }

  /** A row of the store beside a snapshot row `a` whose push is still to come: it defines what
      `a` is about to bring to the hub, is dirty if `a` has a hub row, and no other row has that one. */
  predicate Awaits(r: Row, a: Row) {
    && (r.id == a.id ==> a.content.opt.Keys <= r.content.opt.Keys && (a.Linked() ==> r.dirty))
    && (r.Linked() && a.Linked() && r.Link() == a.Link() ==> r.id == a.id)
  }

  predicate Awaited(refs: seq<(nat, nat)>, items: seq<Row>, locals: seq<Row>, i: nat) {
    forall r, j | r in items && i <= j < |locals| && !Skipped(refs, locals[j]) :: Awaits(r, locals[j])
  }

  /** The rows fit the hub and the sync under way: no linked row lacks a column its hub row holds;
      while pushing, the rows still to be pushed are awaited; while pulling, every linked row is
      one the sync knows of. */
  predicate Fits(w: World, items: seq<Row>) {
    && Covered(items, w.hub)
    && match w.phase
       case Idle => true
       case Pushing(locals, i) => Awaited(w.refs, items, locals, i)
       case Sent(locals, i) => Awaited(w.refs, items, locals, i)
       case Answered(locals, i, h) => Awaited(w.refs, items, locals, i) && (i < |locals| && !locals[i].Linked() ==> h !in Links(items))
       case Pulling(have, k) => Links(items) <= have
       case Listed(have, k, rows) => Links(items) <= have
  }

  ghost predicate PhaseOk(w: World) {
    match w.phase
    case Idle => true
    case Pushing(locals, i) => i <= |locals| && Tracks(w, locals)
    case Sent(locals, i) => i < |locals| && !Skipped(w.refs, locals[i]) && Tracks(w, locals)
    case Answered(locals, i, h) =>
      && i < |locals| && !Skipped(w.refs, locals[i]) && Tracks(w, locals)
      && h in w.hub.rows
      && InStep(locals[i].content, w.hub.rows[h].body)
      && Keeps(locals[i].content, w.hub.rows[h].body)
      && (if locals[i].Linked() then h == locals[i].Link() else forall a | a in locals && a.Linked() :: a.Link() != h)
    case Pulling(have, k) => k <= |w.refs|
    case Listed(have, k, rows) => k < |w.refs| && forall x | x in rows :: x.0 in w.hub.rows && w.hub.rows[x.0].body == x.1
  }

  ghost predicate StoreOk(s: Store, hub: Hub) {
    && RowsOk(s.items, s, hub)
    && (forall r | r in s.items :: r.obj < s.next)
    && SameObjectSameRow(s.items, s.items)
    && (forall x | x in s.past :: RowsOk(x, s, hub))
    && Covered(s.items, hub)
    && Sound(s.items, hub)
  }

  ghost predicate Inv(w: World) {
    HubOk(w.hub) && StoreOk(w.store, w.hub) && PhaseOk(w) && Fits(w, w.store.items)
  }

  /** The user's side of the bargain: an edit or an undo leaves rows that fit. An edit that sets
      columns always does; one that clears a column, or an undo, is allowed exactly when it does. */
  predicate Allowed(w: World, e: Event) {
    match e
    case UserUpdate(id, p) => Fits(w, Update(w.store, id, p.(hubId := None, dirty := None)).items)
    case UserUndo => Fits(w, Undo(w.store).items)
    case _ => true
  }

  // ---- One event keeps the invariant ------------------------------------------

  /** `r'` is `r` after a user's edit: a new object, dirty, same link. */
  predicate Edits(r: Row, r': Row, next: nat) {
    r'.id == r.id && r'.hubId == r.hubId && r'.dirty && r'.obj >= next
  }

  predicate Drawn(r': Row, next: nat) {
    r'.id >= next && r'.obj >= next && r'.hubId.None? && r'.dirty
  }

  ghost predicate ComesFrom(items: seq<Row>, r': Row, next: nat) {
    r' in items || Drawn(r', next) || exists r | r in items :: Edits(r, r', next)
  }

  /** What a user's edit may do to the store. */
  ghost predicate Evolves(s: Store, t: Store) {
    && s.next <= t.next
    && (forall r' | r' in t.items :: ComesFrom(s.items, r', s.next) && r'.id < t.next && r'.obj < t.next)
    && DistinctIds(t.items)
    && SameObjectSameRow(t.items, t.items)
    && (forall x | x in t.past :: x == s.items || x in s.past)
  }

  /** Two rows of one list with one id are one row. */
  lemma SameIdSameRow(rows: seq<Row>, s: Store, hub: Hub, a: Row, b: Row)
    requires RowsOk(rows, s, hub) && a in rows && b in rows
    ensures a.id == b.id ==> a == b
    ensures a.Linked() && b.Linked() && a.Link() == b.Link() ==> a == b
  {
    var i :| 0 <= i < |rows| && rows[i] == a;
    var j :| 0 <= j < |rows| && rows[j] == b;
  }

  /** The row of the old store that `r'` has its id and link from. */
  lemma Origin(s: Store, t: Store, r': Row) returns (r: Row)
    requires Evolves(s, t) && r' in t.items && (r'.Linked() || r'.id < s.next)
    ensures r in s.items && r.id == r'.id && r.hubId == r'.hubId
    ensures r == r' || (r'.dirty && r'.obj >= s.next)
  {
    if r' in s.items {
      r := r';
    } else {
      assert ComesFrom(s.items, r', s.next);
      r :| r in s.items && Edits(r, r', s.next);
    }
  }

  lemma EvolvedRowsOk(s: Store, hub: Hub, t: Store)
    requires RowsOk(s.items, s, hub) && Sound(s.items, hub) && Evolves(s, t)
    ensures RowsOk(t.items, t, hub)
    ensures Sound(t.items, hub)
  {
    forall r' | r' in t.items && r'.Linked()
      ensures r'.Link() in hub.rows
      ensures !r'.dirty ==> InStep(r'.content, hub.rows[r'.Link()].body)
    {
      var r := Origin(s, t, r');
    }
    forall i, j | 0 <= i < j < |t.items| && t.items[i].Linked() && t.items[j].Linked()
      ensures t.items[i].Link() != t.items[j].Link()
    {
      var a := Origin(s, t, t.items[i]);
      var b := Origin(s, t, t.items[j]);
      if a.Link() == b.Link() {
        SameIdSameRow(s.items, s, hub, a, b);
      }
    }
  }

  lemma EvolvedTracks(w: World, t: Store, locals: seq<Row>)
    requires Evolves(w.store, t) && Tracks(w, locals)
    ensures Tracks(w.(store := t), locals)
  {
    RowsOkLater(locals, w.store, t, w.hub);
    forall r', a | r' in t.items && a in locals && r'.obj == a.obj
      ensures r' == a
    {
      assert ComesFrom(w.store.items, r', w.store.next);
    }
  }

  lemma EvolveKeeps(w: World, t: Store)
    requires Inv(w) && Evolves(w.store, t) && Fits(w, t.items)
    ensures Inv(w.(store := t))
  {
    EvolvedRowsOk(w.store, w.hub, t);
    EvolvedPast(w, t);
    hide Evolves, RowsOk, Sound, Covered, Tracks, InStep, Keeps, Skipped, Awaited;
    match w.phase
    case Pushing(locals, i) => EvolvedTracks(w, t, locals);
    case Sent(locals, i) => EvolvedTracks(w, t, locals);
    case Answered(locals, i, h) => EvolvedTracks(w, t, locals);
    case _ =>
  }

  /** Rows left alone and rows drawn anew always fit. */
  lemma UntouchedFits(w: World, t: Store)
    requires Inv(w) && forall r' | r' in t.items :: r' in w.store.items || Drawn(r', w.store.next)
    ensures Fits(w, t.items)
  {
    assert Links(t.items) <= Links(w.store.items);
    match w.phase
    case Pushing(locals, i) => UntouchedAwaited(w, t, locals, i);
    case Sent(locals, i) => UntouchedAwaited(w, t, locals, i);
    case Answered(locals, i, h) => UntouchedAwaited(w, t, locals, i);
    case _ =>
  }

  lemma UntouchedAwaited(w: World, t: Store, locals: seq<Row>, i: nat)
    requires Tracks(w, locals) && Awaited(w.refs, w.store.items, locals, i)
    requires forall r' | r' in t.items :: r' in w.store.items || Drawn(r', w.store.next)
    ensures Awaited(w.refs, t.items, locals, i)
  {
    hide Covered, Skipped;
    forall r', j | r' in t.items && i <= j < |locals| && !Skipped(w.refs, locals[j])
      ensures Awaits(r', locals[j])
    {
      assert locals[j] in locals;
    }
  }

  lemma EvolvedPast(w: World, t: Store)
    requires StoreOk(w.store, w.hub) && Evolves(w.store, t)
    ensures (forall r | r in t.items :: r.obj < t.next) && SameObjectSameRow(t.items, t.items)
    ensures forall x | x in t.past :: RowsOk(x, t, w.hub)
  {
    forall x | x in t.past
      ensures RowsOk(x, t, w.hub)
    {
      RowsOkLater(x, w.store, t, w.hub);
    }
  }

  lemma UserAddEvolves(w: World, ref: nat, c: Content)
    requires Inv(w)
    ensures Evolves(w.store, Add(w.store, ref, c, None, false))
  {
    var s, t := w.store, Add(w.store, ref, c, None, false);
    assert StoreOk(s, w.hub);
    hide Inv, Covered, Sound;
    var row := t.items[|s.items|];
    assert t.items == s.items + [row] && Drawn(row, s.next);
    assert forall x | x in t.items :: x in s.items || x == row;
    hide Drawn;
  }

  /** The row an updated row comes from. */
  lemma UpdatedFrom(s: Store, id: nat, p: Patch, r': Row) returns (r: Row)
    requires r' in Update(s, id, p).items
    ensures r in s.items && r' == if r.id == id then PatchRow(r, p, s.next) else r
  {
    var items := Update(s, id, p).items;
    var i :| 0 <= i < |items| && items[i] == r';
    r := s.items[i];
  }

  lemma UpdatedObjects(s: Store, id: nat, p: Patch)
    requires DistinctIds(s.items) && SameObjectSameRow(s.items, s.items) && forall r | r in s.items :: r.obj < s.next
    ensures var items := Update(s, id, p).items; DistinctIds(items) && SameObjectSameRow(items, items)
  {
    var items := Update(s, id, p).items;
    forall i | 0 <= i < |items|
      ensures items[i].id == s.items[i].id
    {
    }
    forall x, y | x in items && y in items && x.obj == y.obj
      ensures x == y
    {
      hide Update;
      var r := UpdatedFrom(s, id, p, x);
      var q := UpdatedFrom(s, id, p, y);
      DistinctRows(s.items, r, q);
    }
  }

  lemma DistinctRows(rows: seq<Row>, a: Row, b: Row)
    requires DistinctIds(rows) && a in rows && b in rows && a.id == b.id
    ensures a == b
  {
    var i :| 0 <= i < |rows| && rows[i] == a;
    var j :| 0 <= j < |rows| && rows[j] == b;
  }

  lemma UserUpdateEvolves(w: World, id: nat, p: Patch)
    requires Inv(w) && p.hubId.None? && p.dirty.None?
    ensures Evolves(w.store, Update(w.store, id, p))
  {
    var s, t := w.store, Update(w.store, id, p);
    assert StoreOk(s, w.hub);
    hide Inv, PhaseOk, Covered, Sound, Fits;
    UpdatedObjects(s, id, p);
    hide SameObjectSameRow, DistinctIds;
    forall r' | r' in t.items
      ensures ComesFrom(s.items, r', s.next) && r'.id < t.next && r'.obj < t.next
    {
      var r := UpdatedFrom(s, id, p, r');
      assert r == r' || Edits(r, r', s.next);
    }
  }

  lemma {:induction false} WithoutDistinct(items: seq<Row>, id: nat)
    requires DistinctIds(items)
    ensures DistinctIds(Without(items, id))
  {
    if items != [] {
      WithoutDistinct(items[1..], id);
      var rest := Without(items[1..], id);
      forall j | 0 <= j < |rest|
        ensures rest[j].id != items[0].id
      {
        assert rest[j] in rest;
        var k :| 0 <= k < |items[1..]| && items[1..][k] == rest[j];
        assert items[k + 1] == rest[j];
      }
    }
  }

  lemma UserRemoveEvolves(w: World, id: nat)
    requires Inv(w)
    ensures Evolves(w.store, Remove(w.store, id))
  {
    WithoutDistinct(w.store.items, id);
  }

  /** The row a row of the written-back store was made from. */
  lemma WrittenFrom(s: Store, a: Row, hubId: HubId, r': Row) returns (r: Row)
    requires DistinctIds(s.items) && r' in WriteBack(s, a, hubId).items
    requires forall x | x in s.items && x.obj == a.obj :: x == a
    ensures r in s.items && r.id == r'.id && r.content == r'.content
    ensures r.id != a.id ==> r' == r
    ensures r.id == a.id ==> r'.hubId == Some(hubId) && r'.obj == s.next && (r'.dirty || r == a)
  {
    var items := WriteBack(s, a, hubId).items;
    var k :| 0 <= k < |items| && items[k] == r';
    r := s.items[k];
    assert r in s.items;
    if r.id == a.id {
      var cur := Find(s.items, a.id).value;
      var j :| 0 <= j < |s.items| && s.items[j] == cur;
      assert r == cur;
      assert (r.content.opt + map[]) - {} == r.content.opt;
    }
  }

  lemma WrittenLinks(s: Store, a: Row, h: nat)
    requires DistinctIds(s.items) && SameObjectSameRow(s.items, [a])
    requires forall i, j | 0 <= i < j < |s.items| && s.items[i].Linked() && s.items[j].Linked() :: s.items[i].Link() != s.items[j].Link()
    requires forall r | r in s.items && r.Linked() && r.Link() == h :: r.id == a.id
    ensures var items := WriteBack(s, a, Minted(h)).items;
            && DistinctIds(items)
            && forall x, y | 0 <= x < y < |items| && items[x].Linked() && items[y].Linked() :: items[x].Link() != items[y].Link()
  {
    assert a in [a];
    var items := WriteBack(s, a, Minted(h)).items;
    forall x | 0 <= x < |items|
      ensures items[x].id == s.items[x].id
      ensures items[x].hubId == if s.items[x].id == a.id then Some(Minted(h)) else s.items[x].hubId
    {
    }
    hide WriteBack;
    forall x, y | 0 <= x < y < |items| && items[x].Linked() && items[y].Linked()
      ensures items[x].Link() != items[y].Link()
    {
      assert s.items[x] in s.items && s.items[y] in s.items;
    }
  }

  lemma WrittenRowsOk(s: Store, hub: Hub, a: Row, h: nat)
    requires RowsOk(s.items, s, hub) && Covered(s.items, hub) && Sound(s.items, hub)
    requires SameObjectSameRow(s.items, [a])
    requires h in hub.rows && InStep(a.content, hub.rows[h].body)
    requires forall r | r in s.items && r.id == a.id :: Keeps(r.content, hub.rows[h].body)
    requires forall r | r in s.items && r.Linked() && r.Link() == h :: r.id == a.id
    ensures var t := WriteBack(s, a, Minted(h));
            RowsOk(t.items, t, hub) && Covered(t.items, hub) && Sound(t.items, hub)
  {
    assert a in [a];
    var t := WriteBack(s, a, Minted(h));
    assert t.next == s.next + 1;
    hide WriteBack, InStep, Keeps;
    WrittenLinks(s, a, h);
    forall r' | r' in t.items
      ensures r'.id < t.next
      ensures r'.Linked() ==> r'.Link() in hub.rows && Keeps(r'.content, hub.rows[r'.Link()].body)
      ensures r'.Linked() && !r'.dirty ==> InStep(r'.content, hub.rows[r'.Link()].body)
    {
      var r := WrittenFrom(s, a, Minted(h), r');
    }
  }

  /** The write-back leaves the snapshot's other rows as they are. */
  lemma WrittenTracks(w: World, locals: seq<Row>, i: nat, h: nat)
    requires i < |locals| && Tracks(w, locals) && DistinctIds(w.store.items)
    ensures Tracks(w.(store := WriteBack(w.store, locals[i], Minted(h))), locals)
  {
    var a := locals[i];
    assert a in locals;
    var t := WriteBack(w.store, a, Minted(h));
    assert t.next == w.store.next + 1;
    RowsOkLater(locals, w.store, t, w.hub);
    hide WriteBack, Covered, RowsOk;
    forall r', b | r' in t.items && b in locals && r'.obj == b.obj
      ensures r' == b
    {
      var r := WrittenFrom(w.store, a, Minted(h), r');
    }
  }

  /** Nor does it disturb the pushes still to come. */
  lemma WrittenAwaited(w: World, locals: seq<Row>, i: nat, h: nat)
    requires i < |locals| && Tracks(w, locals) && DistinctIds(w.store.items) && Awaited(w.refs, w.store.items, locals, i)
    requires if locals[i].Linked() then h == locals[i].Link() else forall b | b in locals && b.Linked() :: b.Link() != h
    ensures Awaited(w.refs, WriteBack(w.store, locals[i], Minted(h)).items, locals, i + 1)
  {
    var a := locals[i];
    assert a in locals;
    hide WriteBack, Covered, Skipped;
    forall r', j | r' in WriteBack(w.store, a, Minted(h)).items && i + 1 <= j < |locals| && !Skipped(w.refs, locals[j])
      ensures Awaits(r', locals[j])
    {
      var r := WrittenFrom(w.store, a, Minted(h), r');
      assert Awaits(r, locals[j]) && locals[j] in locals;
      assert locals[i].id != locals[j].id;
    }
  }

  lemma RowsOkLater(rows: seq<Row>, s: Store, t: Store, hub: Hub)
    requires RowsOk(rows, s, hub) && s.next <= t.next
    ensures RowsOk(rows, t, hub)
  {
  }

  lemma WrittenObjects(w: World, a: Row, h: nat)
    requires StoreOk(w.store, w.hub) && SameObjectSameRow(w.store.items, [a])
    requires var t := WriteBack(w.store, a, Minted(h)); RowsOk(t.items, t, w.hub)
    ensures var t := WriteBack(w.store, a, Minted(h));
            && (forall r | r in t.items :: r.obj < t.next)
            && SameObjectSameRow(t.items, t.items)
            && (forall s | s in t.past :: RowsOk(s, t, w.hub))
  {
    assert a in [a];
    var t := WriteBack(w.store, a, Minted(h));
    assert t.next == w.store.next + 1 && forall s | s in t.past :: s == w.store.items || s in w.store.past;
    hide WriteBack, Covered, Sound;
    forall r' | r' in t.items
      ensures r'.obj < t.next
    {
      var r := WrittenFrom(w.store, a, Minted(h), r');
    }
    forall r', q' | r' in t.items && q' in t.items && r'.obj == q'.obj
      ensures r' == q'
    {
      var r := WrittenFrom(w.store, a, Minted(h), r');
      var q := WrittenFrom(w.store, a, Minted(h), q');
      SameIdSameRow(t.items, t, w.hub, r', q');
    }
  }

  lemma OnlyTheRowItself(w: World)
    requires Inv(w) && w.phase.Answered?
    ensures var Answered(locals, i, h) := w.phase;
            && (forall r | r in w.store.items && r.id == locals[i].id :: Keeps(r.content, w.hub.rows[h].body))
            && (forall r | r in w.store.items && r.Linked() && r.Link() == h :: r.id == locals[i].id)
  {
    var Answered(locals, i, h) := w.phase;
    assert StoreOk(w.store, w.hub) && Awaited(w.refs, w.store.items, locals, i);
    hide StoreOk, HubOk, Tracks, InStep, Skipped, Covered;
    forall r | r in w.store.items
      ensures r.id == locals[i].id ==> Keeps(r.content, w.hub.rows[h].body)
      ensures r.Linked() && r.Link() == h ==> r.id == locals[i].id
    {
      assert Awaits(r, locals[i]);
      if r.Linked() && r.Link() == h { assert r.Link() in Links(w.store.items); }
    }
  }

  /** The write-back of a push keeps the invariant and moves to the next row. */
  lemma WriteBackKeeps(w: World)
    requires Inv(w) && w.phase.Answered?
    ensures Inv(Step(w, ReplyOk))
  {
    var Answered(locals, i, h) := w.phase;
    var a := locals[i];
    assert a in locals && a in [a];
    OnlyTheRowItself(w);
    WrittenRowsOk(w.store, w.hub, a, h);
    WrittenObjects(w, a, h);
    WrittenTracks(w, locals, i, h);
    WrittenAwaited(w, locals, i, h);
    hide WriteBack, Covered, Sound, RowsOk, SameObjectSameRow, Awaited;
  }

  /** A PATCH for `a` disturbs no clean row: rows linked elsewhere see no change, and a row
      linked to the patched hub row is `a`'s successor, which is dirty. */
  lemma PatchKeeps(items: seq<Row>, s: Store, hub: Hub, a: Row)
    requires HubOk(hub) && RowsOk(items, s, hub) && Covered(items, hub) && Sound(items, hub)
    requires a.Linked() && a.Link() in hub.rows && Keeps(a.content, hub.rows[a.Link()].body)
    requires forall r | r in items && r.Linked() && r.Link() == a.Link() ::
               r.dirty && a.content.opt.Keys <= r.content.opt.Keys
    ensures var hub' := HubServe(hub, 0, a).0;
            HubOk(hub') && RowsOk(items, s, hub') && Covered(items, hub') && Sound(items, hub')
  {
    var h := a.Link();
    var hub' := HubServe(hub, 0, a).0;
    PatchKeepsColumns(a.content, hub.rows[h].body);
    assert Stored(hub'.rows[h].body.opt) == hub'.rows[h].body.opt;
  }

  /** The same for the snapshot, whose rows need not be clean. */
  lemma PatchKeepsLocals(locals: seq<Row>, s: Store, hub: Hub, a: Row)
    requires HubOk(hub) && RowsOk(locals, s, hub) && Covered(locals, hub) && a in locals && a.Linked()
    ensures var hub' := HubServe(hub, 0, a).0; RowsOk(locals, s, hub') && Covered(locals, hub')
  {
    var h := a.Link();
    PatchKeepsColumns(a.content, hub.rows[h].body);
    forall b | b in locals && b.Linked() && b.Link() == h
      ensures b == a
    {
      SameIdSameRow(locals, s, hub, a, b);
    }
  }

  /** A new hub row disturbs nothing. */
  lemma InsertKeeps(items: seq<Row>, s: Store, hub: Hub, ref: nat, b: HubBody)
    requires HubOk(hub) && RowsOk(items, s, hub) && Covered(items, hub)
    ensures var hub' := InsertRow(hub, ref, b);
            && HubOk(hub') && RowsOk(items, s, hub') && Covered(items, hub')
            && (Sound(items, hub) ==> Sound(items, hub'))
  {
    assert Stored(Stored(b.opt)) == Stored(b.opt);
  }

  /** The hub holds now what the pushed row says. */
  lemma ServedInStep(hub: Hub, ref: nat, a: Row)
    requires HubOk(hub) && (a.Linked() ==> a.Link() in hub.rows && Keeps(a.content, hub.rows[a.Link()].body))
    ensures var (hub', h) := HubServe(hub, ref, a);
            h in hub'.rows && InStep(a.content, hub'.rows[h].body) && Keeps(a.content, hub'.rows[h].body)
  {
    CreateInStep(a.content);
    if a.Linked() { PatchKeepsColumns(a.content, hub.rows[a.Link()].body); }
  }

  lemma AwaitedByTheHub(w: World)
    requires Inv(w) && w.phase.Sent? && w.phase.locals[w.phase.i].Linked()
    ensures var a := w.phase.locals[w.phase.i];
            forall r | r in w.store.items && r.Linked() && r.Link() == a.Link() :: r.dirty && a.content.opt.Keys <= r.content.opt.Keys
  {
    var Sent(locals, i) := w.phase;
    assert Awaited(w.refs, w.store.items, locals, i);
    hide StoreOk, HubOk, Covered, Skipped;
    forall r | r in w.store.items && r.Linked() && r.Link() == locals[i].Link()
      ensures r.dirty && locals[i].content.opt.Keys <= r.content.opt.Keys
    {
      assert Awaits(r, locals[i]);
    }
  }

  lemma PatchedStoreOk(s: Store, hub: Hub, a: Row)
    requires HubOk(hub) && StoreOk(s, hub)
    requires a.Linked() && a.Link() in hub.rows && Keeps(a.content, hub.rows[a.Link()].body)
    requires forall r | r in s.items && r.Linked() && r.Link() == a.Link() ::
               r.dirty && a.content.opt.Keys <= r.content.opt.Keys
    ensures var hub' := HubServe(hub, 0, a).0; HubOk(hub') && StoreOk(s, hub')
  {
    PatchKeeps(s.items, s, hub, a);
    var hub' := HubServe(hub, 0, a).0;
    assert hub'.rows.Keys == hub.rows.Keys;
    hide Covered, Sound, Keeps, InStep, HubServe;
    forall x | x in s.past
      ensures RowsOk(x, s, hub')
    {
    }
  }

  lemma PatchApplyKeeps(w: World)
    requires Inv(w) && w.phase.Sent? && w.phase.locals[w.phase.i].Linked()
    ensures Inv(Step(w, HubApply))
  {
    var Sent(locals, i) := w.phase;
    var a := locals[i];
    assert a in locals;
    AwaitedByTheHub(w);
    PatchedStoreOk(w.store, w.hub, a);
    PatchKeepsLocals(locals, w.store, w.hub, a);
    ServedInStep(w.hub, 0, a);
    var w' := Step(w, HubApply);
    var (hub', h) := HubServe(w.hub, 0, a);
    assert w' == w.(hub := hub', phase := Answered(locals, i, h)) && h == a.Link();
    StoreIsCovered(w.store, hub');
    hide Step, HubServe, HubOk, StoreOk, Covered, Keeps, InStep, Skipped, Awaited, RowsOk, Links;
  }

  lemma InsertApplyKeeps(w: World)
    requires Inv(w) && w.phase.Sent? && !w.phase.locals[w.phase.i].Linked()
    ensures Inv(Step(w, HubApply))
  {
    var Sent(locals, i) := w.phase;
    var a := locals[i];
    var ref, b := HubRefOf(w.refs, a.ref).value, AnnToHubBody(a.content);
    HubDrawStoreOk(w.store, w.hub, ref, b);
    InsertedIsNew(w);
    HubDrawTracks(w, locals, ref, b);
    InsertedLater(w, locals);
    ServedInStep(w.hub, ref, a);
    var w' := Step(w, HubApply);
    assert w' == w.(hub := InsertRow(w.hub, ref, b), phase := Answered(locals, i, w.hub.minted));
    hide Step, HubOk, StoreOk, Covered, Awaited, Skipped, InStep, Keeps, Links, Tracks, RowsOk, InsertRow, AnnToHubBody, HubRefOf;
    StillTracked(w.(hub := w'.hub), w', locals);
    assert Fits(w', w.store.items) by { StoreIsCovered(w.store, w'.hub); }
  }

  lemma StoreIsCovered(s: Store, hub: Hub)
    requires StoreOk(s, hub)
    ensures Covered(s.items, hub)
  {
  }

  /** No row of the store is linked to the row the hub is about to insert. */
  lemma InsertedIsNew(w: World)
    requires HubOk(w.hub) && StoreOk(w.store, w.hub)
    ensures w.hub.minted !in w.hub.rows && w.hub.minted !in Links(w.store.items)
  {
  }

  lemma InsertedLater(w: World, locals: seq<Row>)
    requires HubOk(w.hub) && Tracks(w, locals)
    ensures forall a | a in locals && a.Linked() :: a.Link() != w.hub.minted
  {
  }

  lemma HubApplyKeeps(w: World)
    requires Inv(w) && w.phase.Sent?
    ensures Inv(Step(w, HubApply))
  {
    if w.phase.locals[w.phase.i].Linked() { PatchApplyKeeps(w); } else { InsertApplyKeeps(w); }
  }

  lemma HubDrawTracks(w: World, locals: seq<Row>, ref: nat, b: HubBody)
    requires HubOk(w.hub) && Tracks(w, locals)
    ensures Tracks(w.(hub := InsertRow(w.hub, ref, b)), locals)
  {
    InsertKeeps(locals, w.store, w.hub, ref, b);
  }

  lemma HubDrawStoreOk(s: Store, hub: Hub, ref: nat, b: HubBody)
    requires HubOk(hub) && StoreOk(s, hub)
    ensures var hub' := InsertRow(hub, ref, b);
            HubOk(hub') && StoreOk(s, hub')
  {
    InsertKeeps(s.items, s, hub, ref, b);
    assert forall h | h in hub.rows :: h in hub.rows[hub.minted := HubRow(ref, Inserted(b))];
  }

  lemma HubDrawKeeps(w: World, ref: nat, b: HubBody)
    requires Inv(w)
    ensures Inv(w.(hub := InsertRow(w.hub, ref, b)))
  {
    var w' := w.(hub := InsertRow(w.hub, ref, b));
    HubDrawStoreOk(w.store, w.hub, ref, b);
    StoreIsCovered(w.store, w'.hub);
    assert forall h | h in w.hub.rows :: h in w'.hub.rows && w'.hub.rows[h] == w.hub.rows[h] by { InsertedIsNew(w); }
    hide HubOk, Covered, Keeps, InStep, Skipped, Awaited, Tracks, Links, StoreOk, InsertRow;
    match w.phase
    case Pushing(locals, i) => HubDrawTracks(w, locals, ref, b);
    case Sent(locals, i) => HubDrawTracks(w, locals, ref, b);
    case Answered(locals, i, h) => HubDrawTracks(w, locals, ref, b);
    case _ =>
  }

  /** A row that is no one's twin joins the store. */
  lemma JoinedRowsOk(s: Store, hub: Hub, t: Store, row: Row)
    requires RowsOk(s.items, s, hub) && t.items == s.items + [row] && t.next == s.next + 1
    requires row.id == s.next && row.Linked() && row.Link() in hub.rows && row.Link() !in Links(s.items)
    ensures RowsOk(t.items, t, hub)
  {
    forall r | r in s.items && r.Linked()
      ensures r.Link() != row.Link()
    {
      assert r.Link() in Links(s.items);
    }
  }

  lemma JoinedLinks(items: seq<Row>, row: Row)
    requires row.Linked()
    ensures Links(items + [row]) == Links(items) + {row.Link()}
  {
    assert row in items + [row];
    assert forall x | x in items :: x in items + [row];
  }

  /** Adding a pulled row the device does not have. */
  lemma AddPulledKeeps(s: Store, hub: Hub, have: set<nat>, ref: nat, h: nat)
    requires HubOk(hub) && StoreOk(s, hub) && h in hub.rows
    requires Links(s.items) <= have && h !in have
    ensures var t := Add(s, ref, HubToAnnotation(hub.rows[h].body), Some(Minted(h)), true);
            StoreOk(t, hub) && Links(t.items) <= have + {h}
  {
    PulledIsReadFrom(hub.rows[h].body);
    PullInStep(Shown(hub.rows[h].body), hub.rows[h].body);
    var t := Add(s, ref, HubToAnnotation(hub.rows[h].body), Some(Minted(h)), true);
    var row := t.items[|s.items|];
    JoinedRowsOk(s, hub, t, row);
    JoinedLinks(s.items, row);
    hide Links, InStep, Keeps, HubOk, RowsOk;
    assert forall x | x in t.items :: x in s.items || x == row;
    forall x | x in t.past
      ensures RowsOk(x, t, hub)
    {
      RowsOkLater(x, s, t, hub);
    }
  }

  lemma {:induction false} PullRowsKeeps(s: Store, hub: Hub, have: set<nat>, rows: seq<(nat, HubBody)>, ref: nat)
    requires HubOk(hub) && StoreOk(s, hub) && Links(s.items) <= have
    requires forall x | x in rows :: x.0 in hub.rows && hub.rows[x.0].body == x.1
    ensures var (t, have', n) := PullRows(s, have, rows, ref);
            StoreOk(t, hub) && Links(t.items) <= have'
    decreases |rows|
  {
    if rows == [] {
    } else if rows[0].0 in have {
      PullRowsKeeps(s, hub, have, rows[1..], ref);
    } else {
      var (h, b) := rows[0];
      assert rows[0] in rows;
      AddPulledKeeps(s, hub, have, ref, h);
      PullRowsKeeps(Add(s, ref, HubToAnnotation(b), Some(Minted(h)), true), hub, have + {h}, rows[1..], ref);
    }
  }

  lemma RestoredFrom(snapshot: seq<Row>, next: nat, r': Row) returns (i: nat)
    requires r' in Restored(snapshot, next)
    ensures i < |snapshot| && r' == snapshot[i].(dirty := true, obj := next + i) && snapshot[i] in snapshot
  {
    i :| 0 <= i < |Restored(snapshot, next)| && Restored(snapshot, next)[i] == r';
  }

  lemma RestoredLinks(snapshot: seq<Row>, s: Store, hub: Hub)
    requires RowsOk(snapshot, s, hub)
    ensures var t := Restored(snapshot, s.next);
            && DistinctIds(t) && SameObjectSameRow(t, t)
            && forall i, j | 0 <= i < j < |t| && t[i].Linked() && t[j].Linked() :: t[i].Link() != t[j].Link()
  {
    var t := Restored(snapshot, s.next);
    forall i, j | 0 <= i < j < |t|
      ensures t[i].id != t[j].id
      ensures t[i].Linked() && t[j].Linked() ==> t[i].Link() != t[j].Link()
    {
      assert snapshot[i].id != snapshot[j].id;
    }
    forall x, y | x in t && y in t && x.obj == y.obj
      ensures x == y
    {
      var i := RestoredFrom(snapshot, s.next, x);
      var j := RestoredFrom(snapshot, s.next, y);
    }
  }

  lemma RestoredOk(snapshot: seq<Row>, s: Store, hub: Hub)
    requires RowsOk(snapshot, s, hub) && Covered(Restored(snapshot, s.next), hub)
    ensures var t := Store(Restored(snapshot, s.next), s.past, s.next + |snapshot|);
            && RowsOk(t.items, t, hub) && (forall r | r in t.items :: r.dirty && r.obj < t.next)
            && SameObjectSameRow(t.items, t.items)
  {
    RestoredLinks(snapshot, s, hub);
    hide Restored, DistinctIds, SameObjectSameRow, Covered;
    forall r | r in Restored(snapshot, s.next)
      ensures r.dirty && r.obj < s.next + |snapshot| && r.id < s.next && (r.Linked() ==> r.Link() in hub.rows)
    {
      var i := RestoredFrom(snapshot, s.next, r);
    }
  }

  lemma UndoKeeps(s: Store, hub: Hub)
    requires StoreOk(s, hub) && Covered(Undo(s).items, hub)
    ensures StoreOk(Undo(s), hub)
  {
    if s.past != [] {
      var snapshot := s.past[|s.past| - 1];
      assert snapshot in s.past;
      RestoredOk(snapshot, s, hub);
      forall x | x in Undo(s).past
        ensures RowsOk(x, Undo(s), hub)
      {
        assert x in s.past;
      }
    }
  }

  /** The restored rows are new objects, so the snapshot of a running sync knows none of them. */
  lemma UndoTracks(w: World, locals: seq<Row>)
    requires Tracks(w, locals)
    ensures Tracks(w.(store := Undo(w.store)), locals)
  {
    RowsOkLater(locals, w.store, Undo(w.store), w.hub);
    hide RowsOk, Covered;
    if w.store.past != [] {
      var snapshot := w.store.past[|w.store.past| - 1];
      hide Restored;
      forall r, a | r in Restored(snapshot, w.store.next) && a in locals
        ensures r.obj != a.obj
      {
        var i := RestoredFrom(snapshot, w.store.next, r);
      }
    }
  }

  lemma UserUndoKeeps(w: World)
    requires Inv(w) && Fits(w, Undo(w.store).items)
    ensures Inv(w.(store := Undo(w.store)))
  {
    UndoKeeps(w.store, w.hub);
    hide StoreOk, HubOk, Undo, Tracks, Covered, Awaited, Skipped, InStep, Keeps, Links;
    match w.phase
    case Pushing(locals, i) => UndoTracks(w, locals);
    case Sent(locals, i) => UndoTracks(w, locals);
    case Answered(locals, i, h) => UndoTracks(w, locals);
    case _ =>
  }

  /** What happens outside the sync keeps the invariant exactly when it is allowed: the bargain
      asks no more of the user than it must. */
  lemma OutsideKeepsExactly(w: World, e: Event)
    requires Inv(w) && FromOutside(e)
    ensures Inv(Step(w, e)) <==> Allowed(w, e)
  {
    hide HubOk, StoreOk, PhaseOk, Add, Update, Remove, Undo;
    match e
    case UserAdd(ref, c) =>
      UserAddEvolves(w, ref, c);
      UntouchedFits(w, Add(w.store, ref, c, None, false)) by { AddedOrOld(w.store, ref, c); }
      hide Fits;
      EvolveKeeps(w, Add(w.store, ref, c, None, false));
    case UserUpdate(id, p) =>
      var q := p.(hubId := None, dirty := None);
      UserUpdateEvolves(w, id, q);
      if Fits(w, Update(w.store, id, q).items) { EvolveKeeps(w, Update(w.store, id, q)); }
    case UserRemove(id) =>
      UserRemoveEvolves(w, id);
      UntouchedFits(w, Remove(w.store, id)) by { RemovedOrOld(w.store, id); }
      hide Fits;
      EvolveKeeps(w, Remove(w.store, id));
    case UserUndo => if Fits(w, Undo(w.store).items) { UserUndoKeeps(w); }
    case HubDraw(ref, b) => HubDrawKeeps(w, ref, b);
  }

  lemma AddedOrOld(s: Store, ref: nat, c: Content)
    ensures forall r | r in Add(s, ref, c, None, false).items :: r in s.items || Drawn(r, s.next)
  {
  }

  lemma RemovedOrOld(s: Store, id: nat)
    ensures forall r | r in Remove(s, id).items :: r in s.items
  {
  }

  lemma SettingGrows(s: Store, id: nat, p: Patch)
    requires p.cleared == {} && p.hubId.None? && p.dirty.None?
    ensures forall r' | r' in Update(s, id, p).items :: exists r :: r in s.items && Grows(r, r')
  {
    forall r' | r' in Update(s, id, p).items
      ensures exists r :: r in s.items && Grows(r, r')
    {
      var r := UpdatedFrom(s, id, p, r');
      assert Grows(r, r');
    }
  }

  /** An edit that sets columns and clears none is always allowed. */
  lemma SettingIsAllowed(w: World, id: nat, p: Patch)
    requires Inv(w) && p.cleared == {}
    ensures Allowed(w, UserUpdate(id, p))
  {
    var q := p.(hubId := None, dirty := None);
    SettingGrows(w.store, id, q);
    hide Inv, Fits, Update;
    GrownFits(w, Update(w.store, id, q).items);
  }

  /** Same row, same link, no column fewer. */
  predicate Grows(r: Row, r': Row) {
    r'.id == r.id && r'.hubId == r.hubId && r.content.opt.Keys <= r'.content.opt.Keys && (r.dirty ==> r'.dirty)
  }

  lemma GrownFits(w: World, items: seq<Row>)
    requires Inv(w) && forall r' | r' in items :: exists r :: r in w.store.items && Grows(r, r')
    ensures Fits(w, items)
  {
    assert Covered(w.store.items, w.hub);
    hide StoreOk, HubOk, Tracks, InStep, Skipped;
    assert Links(items) <= Links(w.store.items);
    match w.phase
    case Pushing(locals, i) => GrownAwaited(w, items, locals, i);
    case Sent(locals, i) => GrownAwaited(w, items, locals, i);
    case Answered(locals, i, h) => GrownAwaited(w, items, locals, i);
    case _ =>
  }

  lemma GrownAwaited(w: World, items: seq<Row>, locals: seq<Row>, i: nat)
    requires Awaited(w.refs, w.store.items, locals, i)
    requires forall r' | r' in items :: exists r :: r in w.store.items && Grows(r, r')
    ensures Awaited(w.refs, items, locals, i)
  {
    hide Skipped;
    forall r', j | r' in items && i <= j < |locals| && !Skipped(w.refs, locals[j])
      ensures Awaits(r', locals[j])
    {
      var r :| r in w.store.items && Grows(r, r');
      assert Awaits(r, locals[j]);
    }
  }

  /** The snapshot of the push phase is the store itself, so it tracks and awaits itself. */
  lemma BeginTracks(w: World)
    requires Inv(w)
    ensures Tracks(w, w.store.items) && Awaited(w.refs, w.store.items, w.store.items, 0)
  {
    hide HubRefOf;
    forall r, j | r in w.store.items && 0 <= j < |w.store.items| && !Skipped(w.refs, w.store.items[j])
      ensures Awaits(r, w.store.items[j])
    {
      SameIdSameRow(w.store.items, w.store, w.hub, r, w.store.items[j]);
    }
  }

  lemma BeginKeeps(w: World)
    requires Inv(w) && w.phase.Idle?
    ensures Inv(Step(w, Begin))
  {
    BeginTracks(w);
    hide StoreOk, HubOk, Tracks, Covered, Awaited;
    var w' := Step(w, Begin);
    assert w' == w.(phase := Pushing(w.store.items, 0), tally := w'.tally);
    hide Step;
    StillTracked(w, w', w.store.items);
  }

  /** On to the next row of the snapshot, with nothing written back. */
  lemma NextKeeps(w: World, w': World, locals: seq<Row>, i: nat)
    requires Inv(w) && w' == w.(phase := Pushing(locals, i + 1), tally := w'.tally) && i < |locals|
    requires w.phase == Pushing(locals, i) || w.phase == Sent(locals, i) || (w.phase.Answered? && w.phase == Answered(locals, i, w.phase.hubId))
    ensures Inv(w')
  {
    hide StoreOk, HubOk, Tracks, Covered, Awaited, Skipped, InStep, Keeps, Links;
    AwaitedNext(w.refs, w.store.items, locals, i);
    StillTracked(w, w', locals);
  }

  lemma PushKeeps(w: World, e: Event)
    requires Inv(w) && (e.Begin? || e.Skip? || e.Send? || e.ReplyWithoutId? || e.ReplyFail? || e.StartPull?)
    ensures Inv(Step(w, e))
  {
    var w' := Step(w, e);
    if e.Begin? && w.phase.Idle? {
      BeginKeeps(w);
    } else if w == w' {
    } else if e.Send? {
      hide StoreOk, HubOk, Tracks, Skipped, Covered, Awaited, HubRefOf, Links;
      StillTracked(w, w', w.phase.locals);
    } else if e.StartPull? {
      hide StoreOk, HubOk, Tracks, Skipped, Covered, Awaited, HubRefOf, Links;
    } else {
      hide Inv, Skipped, HubRefOf;
      NextKeeps(w, w', w'.phase.locals, w'.phase.i - 1);
    }
  }

  lemma AwaitedNext(refs: seq<(nat, nat)>, items: seq<Row>, locals: seq<Row>, i: nat)
    requires Awaited(refs, items, locals, i)
    ensures Awaited(refs, items, locals, i + 1)
  {
  }

  lemma StillTracked(w: World, w': World, locals: seq<Row>)
    requires Tracks(w, locals) && w'.store == w.store && w'.hub == w.hub
    ensures Tracks(w', locals)
  {
  }

  lemma ListKeeps(w: World)
    requires Inv(w) && w.phase.Pulling? && w.phase.k < |w.refs|
    ensures Inv(Step(w, List))
  {
    ListedAreRows(w.hub.rows, w.refs[w.phase.k].1, w.hub.minted);
    hide StoreOk, HubOk, Covered, Links, PullRows, Listing;
    assert Step(w, List) == w.(phase := Listed(w.phase.have, w.phase.k, Listing(w.hub.rows, w.refs[w.phase.k].1, w.hub.minted)));
  }

  lemma PulledKeeps(w: World, have: set<nat>, k: nat, rows: seq<(nat, HubBody)>)
    requires Inv(w) && w.phase == Listed(have, k, rows)
    ensures k < |w.refs|
    ensures var (store, have', n) := PullRows(w.store, have, rows, w.refs[k].0);
            HubOk(w.hub) && StoreOk(store, w.hub) && Links(store.items) <= have'
  {
    hide StoreOk, HubOk, Covered, Links, PullRows;
    PullRowsKeeps(w.store, w.hub, have, rows, w.refs[k].0);
  }

  lemma ListOkKeeps(w: World)
    requires Inv(w) && w.phase.Listed?
    ensures Inv(Step(w, ListOk))
  {
    var Listed(have, k, rows) := w.phase;
    hide Inv, StoreOk, HubOk, Covered, Links, PullRows, Step;
    PulledKeeps(w, have, k, rows);
    ListOkSteps(w, have, k, rows);
    var (store, have', n) := PullRows(w.store, have, rows, w.refs[k].0);
    StoreIsCovered(store, w.hub);
    PullingInv(Step(w, ListOk));
  }

  lemma PullingInv(w: World)
    requires HubOk(w.hub) && StoreOk(w.store, w.hub) && Covered(w.store.items, w.hub)
    requires w.phase.Pulling? && w.phase.k <= |w.refs| && Links(w.store.items) <= w.phase.have
    ensures Inv(w)
  {
    hide StoreOk, HubOk, Covered, Links;
  }

  lemma PullKeeps(w: World, e: Event)
    requires Inv(w) && (e.List? || e.ListOk? || e.ListFail? || e.Finish?)
    ensures Inv(Step(w, e))
  {
    if e.ListOk? && w.phase.Listed? {
      ListOkKeeps(w);
    } else if e.List? && w.phase.Pulling? && w.phase.k < |w.refs| {
      ListKeeps(w);
    } else {
      hide StoreOk, HubOk, Covered, Links, PullRows, Listing;
    }
  }

  lemma ListedAreRows(rows: map<nat, HubRow>, ref: nat, n: nat)
    ensures forall x | x in Listing(rows, ref, n) :: x.0 in rows && rows[x.0].body == x.1
  {
  }

  /** Every event, from the user, the hub or the sync, keeps the invariant. */
  lemma StepKeeps(w: World, e: Event)
    requires Inv(w) && Allowed(w, e)
    ensures Inv(Step(w, e))
  {
    if FromOutside(e) {
      OutsideKeepsExactly(w, e);
    } else if e.Restart? {
    } else if e.HubApply? {
      if w.phase.Sent? { HubApplyKeeps(w); } else { assert Step(w, e) == w; }
    } else if e.ReplyOk? {
      if w.phase.Answered? { WriteBackKeeps(w); } else { assert Step(w, e) == w; }
    } else if e.List? || e.ListOk? || e.ListFail? || e.Finish? {
      PullKeeps(w, e);
    } else {
      PushKeeps(w, e);
    }
  }

  // ---- Whole runs ---------------------------------------------------------------

  /** Every event of the run is one the user's side allows where it happens. */
  predicate AllowedRun(w: World, es: seq<Event>) {
    forall k | 0 <= k < |es| :: Allowed(Run(w, es[..k]), es[k])
  }

  lemma {:induction false} RunKeeps(w: World, es: seq<Event>)
    requires Inv(w) && AllowedRun(w, es)
    ensures Inv(Run(w, es))
  {
    if es != [] {
      var init := es[..|es| - 1];
      forall k | 0 <= k < |init|
        ensures Allowed(Run(w, init[..k]), init[k])
      {
        assert init[..k] == es[..k];
      }
      RunKeeps(w, init);
      StepKeeps(Run(w, init), es[|es| - 1]);
    }
  }

  /** A device that starts with rows never synced, next to any hub. */
  ghost predicate Fresh(w: World) {
    && w.phase.Idle? && w.store.past == []
    && DistinctIds(w.store.items)
    && SameObjectSameRow(w.store.items, w.store.items)
    && (forall r | r in w.store.items :: !r.Linked() && r.id < w.store.next && r.obj < w.store.next)
    && (forall h | h in w.hub.rows :: h < w.hub.minted && Stored(w.hub.rows[h].body.opt) == w.hub.rows[h].body.opt)
  }

  /** Dirty-flag soundness: at every moment of every allowed run, whatever the user did
      while a push, a create or a list was in flight and however often the device was
      restarted with its saved rows, a linked row that is not marked dirty says what its
      hub row says. */
  lemma DirtyFlagSound(w: World, es: seq<Event>, k: nat)
    requires Fresh(w) && AllowedRun(w, es) && k <= |es|
    ensures var now := Run(w, es[..k]); Sound(now.store.items, now.hub)
  {
    hide Step;
    forall j | 0 <= j < k
      ensures Allowed(Run(w, es[..k][..j]), es[..k][j])
    {
      assert es[..k][..j] == es[..j];
    }
    RunKeeps(w, es[..k]);
  }
}
