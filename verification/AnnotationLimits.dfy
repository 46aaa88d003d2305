/** Where the dirty flag stops being the truth: the PATCH merge cannot clear a column, so
    an undo that withdraws one leaves a clean row that differs from its hub row. */
module AnnotationLimits {
  import opened Options
  import opened AnnotationStore
  import opened AnnotationSync

  /** A push of a row nobody touched meanwhile leaves the row clean, and leaves it in step
      with its hub row exactly when it defines every column the hub row held, or a device would
      compute the one that it lacks. */
  lemma PushOutcomeExactly(w: World, locals: seq<Row>, i: nat)
    requires w.phase == Sent(locals, i) && i < |locals| && !Skipped(w.refs, locals[i])
    requires HubOk(w.hub) && locals[i].Linked() && locals[i].Link() in w.hub.rows
    requires Find(w.store.items, locals[i].id) == Some(locals[i])
    ensures var w' := Step(Step(w, HubApply), ReplyOk);
            var r := Find(w'.store.items, locals[i].id);
            && r.Some? && r.value.Linked() && r.value.Link() == locals[i].Link() && !r.value.dirty
            && (InStep(r.value.content, w'.hub.rows[r.value.Link()].body) <==>
                Restates(locals[i].content, w.hub.rows[locals[i].Link()].body))
  {
    var a := locals[i];
    hide Step, Restates, InStep, Keeps, Skipped, WriteBack;
    assert HubRefOf(w.refs, a.ref).Some? by { ParentOfPushed(w.refs, a); }
    hide HubRefOf;
    var parent := HubRefOf(w.refs, a.ref).value;
    HubApplySteps(w, locals, i, parent);
    var h := a.Link();
    var hub := HubServe(w.hub, parent, a).0;
    assert hub.rows[h].body == Patched(w.hub.rows[h].body, AnnToHubBody(a.content));
    var w1 := Step(w, HubApply);
    ReplyOkSteps(w1, locals, i, h);
    PatchInStepExactly(a.content, w.hub.rows[h].body);
    WrittenBack(w.store, a);
  }

  lemma ParentOfPushed(refs: seq<(nat, nat)>, a: Row)
    requires !Skipped(refs, a)
    ensures HubRefOf(refs, a.ref).Some?
  {
  }

  /** Written back to the very row that was pushed. */
  lemma WrittenBack(s: Store, a: Row)
    requires a.Linked() && Find(s.items, a.id) == Some(a)
    ensures var r := Find(WriteBack(s, a, Minted(a.Link())).items, a.id);
            r.Some? && r.value.hubId == a.hubId && !r.value.dirty && r.value.content == a.content
  {
    var p := LinkPatch(Minted(a.Link()), true);
    assert Applied(a.content, p).opt == a.content.opt;
    FindUpdated(s, a, p);
  }

  lemma {:induction false} FindMapped(items: seq<Row>, items': seq<Row>, id: nat, r: Row, r': Row)
    requires |items| == |items'| && Find(items, id) == Some(r) && r'.id == id
    requires forall j | 0 <= j < |items| :: items'[j].id == items[j].id && (items[j] == r ==> items'[j] == r')
    ensures Find(items', id) == Some(r')
  {
    if items[0].id != id {
      FindMapped(items[1..], items'[1..], id, r, r');
    }
  }

  lemma FindUpdated(s: Store, a: Row, p: Patch)
    requires Find(s.items, a.id) == Some(a)
    ensures Find(Update(s, a.id, p).items, a.id) == Some(PatchRow(a, p, s.next))
  {
    FindMapped(s.items, Update(s, a.id, p).items, a.id, a, PatchRow(a, p, s.next));
  }

  const PASS: seq<Event> := [Begin, Send, HubApply, ReplyOk, StartPull, List, ListOk, Finish]

  lemma RunFour(w: World, a: Event, b: Event, c: Event, d: Event)
    ensures Run(w, [a, b, c, d]) == Step(Step(Step(Step(w, a), b), c), d)
  {
    hide Step;
    RunThree(w, a, b, c);
    RunSnoc(w, [a, b, c], d);
    assert [a, b, c] + [d] == [a, b, c, d];
  }

  lemma RunThree(w: World, a: Event, b: Event, c: Event)
    ensures Run(w, [a, b, c]) == Step(Step(Step(w, a), b), c)
  {
    hide Step;
    assert Run(w, []) == w;
    RunSnoc(w, [], a);
    RunSnoc(w, [a], b);
    RunSnoc(w, [a, b], c);
    assert [] + [a] == [a] && [a] + [b] == [a, b] && [a, b] + [c] == [a, b, c];
  }

  lemma PassIsItsSteps(w: World)
    ensures Run(w, PASS) ==
            Step(Step(Step(Step(Step(Step(Step(Step(w, Begin), Send), HubApply), ReplyOk), StartPull), List), ListOk), Finish)
  {
    hide Step, Run;
    RunFour(w, Begin, Send, HubApply, ReplyOk);
    RunFour(Run(w, [Begin, Send, HubApply, ReplyOk]), StartPull, List, ListOk, Finish);
    RunConcat(w, [Begin, Send, HubApply, ReplyOk], [StartPull, List, ListOk, Finish]);
    assert PASS == [Begin, Send, HubApply, ReplyOk] + [StartPull, List, ListOk, Finish];
  }

  /** The hub after serving the only row, as row 0 under reference 7. */
  function OneRowHub(hub: Hub, r: Row): Hub {
    var body := AnnToHubBody(r.content);
    Hub(map[0 := HubRow(7, if r.Linked() && 0 in hub.rows then Patched(hub.rows[0].body, body) else Inserted(body))], 1)
  }

  /** One row under reference 7, linked to hub row 0 or to nothing yet. */
  predicate OneRow(w: World, r: Row) {
    && w.store.items == [r] && w.refs == [(0, 7)] && r.ref == 0 && r.dirty && r.hubId.GetOr(Blank) in {Blank, Minted(0)}
    && (if r.Linked() then w.hub.minted == 1 && w.hub.rows.Keys == {0} && w.hub.rows[0].ref == 7
        else w.hub == Hub(map[], 0))
  }

  lemma OneRowIsServed(w: World, r: Row)
    requires OneRow(w, r)
    ensures !Skipped(w.refs, r) && HubRefOf(w.refs, r.ref) == Some(7)
    ensures HubServe(w.hub, 7, r) == (OneRowHub(w.hub, r), 0)
  {
    hide Patched, Inserted, AnnToHubBody;
    assert HubServe(w.hub, 7, r).0.rows == OneRowHub(w.hub, r).rows;
  }

  /** Up to the hub's answer. */
  lemma OneRowServed(w: World, r: Row)
    requires w.phase.Idle? && OneRow(w, r)
    ensures Step(Step(Step(w, Begin), Send), HubApply) ==
            w.(hub := OneRowHub(w.hub, r), phase := Answered([r], 0, 0), tally := Tally(0, 0, 0, 0, 0))
  {
    hide Step, HubServe, OneRowHub, Skipped;
    OneRowIsServed(w, r);
    BeginSteps(w);
    var w1 := Step(w, Begin);
    SendSteps(w1, [r], 0);
    HubApplySteps(Step(w1, Send), [r], 0, 7);
  }

  lemma OneRowPush(w: World, r: Row)
    requires w.phase.Idle? && OneRow(w, r)
    ensures var w' := Step(Step(Step(Step(w, Begin), Send), HubApply), ReplyOk);
            && w'.phase == Pushing([r], 1) && w'.refs == w.refs
            && w'.hub == OneRowHub(w.hub, r) && w'.store == WriteBack(w.store, r, Minted(0))
  {
    hide Step, WriteBack, OneRowHub;
    OneRowServed(w, r);
    ReplyOkSteps(Step(Step(Step(w, Begin), Send), HubApply), [r], 0, 0);
  }

  lemma OneRowPull(w: World, r: Row)
    requires w.phase == Pushing([r], 1) && w.refs == [(0, 7)]
    requires |w.store.items| == 1 && w.store.items[0].hubId == Some(Minted(0)) && w.hub.minted == 1
    ensures var w' := Step(Step(Step(Step(w, StartPull), List), ListOk), Finish);
            w'.phase.Idle? && w'.refs == w.refs && w'.hub == w.hub && w'.store == w.store
  {
    hide Step, Listing, PullRows;
    StartPullSteps(w, [r]);
    var w1 := Step(w, StartPull);
    ListSteps(w1, Links(w.store.items), 0);
    var w2 := Step(w1, List);
    assert w.store.items[0] in w.store.items && w.store.items[0].Link() == 0;
    NothingToPull(w2.store, w2.phase.have, w2.phase.rows, 0);
    ListOkSteps(w2, w2.phase.have, 0, w2.phase.rows);
    FinishSteps(Step(w2, ListOk), w2.phase.have);
  }

  /** One undisturbed sync of a device with one row. */
  lemma OneRowPass(w: World, r: Row)
    requires w.phase.Idle? && OneRow(w, r)
    ensures var w' := Run(w, PASS);
            && w'.phase.Idle? && w'.refs == w.refs && w'.hub == OneRowHub(w.hub, r)
            && w'.store == Store([PatchRow(r, LinkPatch(Minted(0), true), w.store.next)],
                                 PushPast(w.store.past, [r]), w.store.next + 1)
  {
    hide Step, Run;
    PassIsItsSteps(w);
    OneRowPush(w, r);
    var w4 := Step(Step(Step(Step(w, Begin), Send), HubApply), ReplyOk);
    assert Find([r], r.id) == Some(r);
    assert w4.store.items == [PatchRow(r, LinkPatch(Minted(0), true), w.store.next)];
    hide PatchRow, WriteBack;
    assert w4.store.items[0].hubId == Some(Minted(0)) by { LinkPatchLinks(r, w.store.next); }
    OneRowPull(w4, r);
  }

  lemma LinkPatchLinks(r: Row, obj: nat)
    ensures PatchRow(r, LinkPatch(Minted(0), true), obj).hubId == Some(Minted(0))
  {
  }

  lemma {:induction false} NothingToPull(s: Store, have: set<nat>, rows: seq<(nat, HubBody)>, ref: nat)
    requires forall x | x in rows :: x.0 in have
    ensures PullRows(s, have, rows, ref) == (s, have, 0)
    decreases |rows|
  {
    if rows != [] {
      assert rows[0] in rows;
      NothingToPull(s, have, rows[1..], ref);
    }
  }

  // The run: an annotation drawn without a comment, synced, commented, synced again and
  // undone twice. `ROW` is as drawn, `NOTED` is with the comment.

  const BARE := Content(Highlight, 0, Position(0, ""), [], map[SortIndex := Literal("k")])
  const NOTE := Patch(None, None, None, None, map[Comment := Literal("x")], {}, None, None)
  const ROW := Row(0, 0, BARE, None, true, 0)
  const START := World(Store([ROW], [], 1), Hub(map[], 0), [(0, 7)], Idle, Tally(0, 0, 0, 0, 0))

  predicate At(w: World, store: Store, hub: Hub) {
    w.phase.Idle? && w.refs == [(0, 7)] && w.store == store && w.hub == hub
  }

  const LINKED := Row(0, 0, BARE, Some(Minted(0)), false, 1)
  const NOTED := Row(0, 0, BARE.(opt := BARE.opt[Comment := Literal("x")]), Some(Minted(0)), true, 2)
  const HUB_BARE := Hub(map[0 := HubRow(7, AnnToHubBody(BARE))], 1)
  const HUB_NOTED := Hub(map[0 := HubRow(7, AnnToHubBody(NOTED.content))], 1)

  lemma FirstPass()
    ensures At(Run(START, PASS), Store([LINKED], [[ROW]], 2), HUB_BARE)
  {
    hide Run;
    OneRowPass(START, ROW);
    assert (BARE.opt + map[]) - {} == BARE.opt && Stored(BARE.opt) == BARE.opt;
  }

  lemma CommentIsStored()
    ensures (BARE.opt + NOTE.set_) - {} == NOTED.content.opt
    ensures Stored(BARE.opt + NOTED.content.opt) == NOTED.content.opt && Stored(NOTED.content.opt) == NOTED.content.opt
    ensures (NOTED.content.opt + map[]) - {} == NOTED.content.opt && (BARE.opt + map[]) - {} == BARE.opt
    ensures Stored(BARE.opt) == BARE.opt && !Restates(BARE, AnnToHubBody(NOTED.content)) && !Keeps(BARE, AnnToHubBody(NOTED.content))
  {
    assert Comment in NOTED.content.opt && Comment !in BARE.opt;
  }

  lemma Commented(w: World)
    requires At(w, Store([LINKED], [[ROW]], 2), HUB_BARE)
    ensures At(Step(w, UserUpdate(0, NOTE)), Store([NOTED], [[ROW], [LINKED]], 3), HUB_BARE)
  {
    hide Step, Stored;
    CommentIsStored();
    UpdateSteps(w, 0, NOTE);
  }

  lemma NotedIsServed()
    ensures OneRowHub(HUB_BARE, NOTED) == HUB_NOTED
  {
    CommentIsStored();
  }

  lemma NotedIsRecorded()
    ensures PushPast([[ROW], [LINKED]], [NOTED]) == [[ROW], [LINKED], [NOTED]]
  {
  }

  lemma CommentPass(w: World)
    requires At(w, Store([LINKED], [[ROW]], 2), HUB_BARE)
    ensures var w' := Run(Step(w, UserUpdate(0, NOTE)), PASS);
            w'.store.past == [[ROW], [LINKED], [NOTED]] && w'.store.next == 4 && At(w', w'.store, HUB_NOTED)
  {
    hide Step, Run, Stored, OneRowHub, PushPast, PatchRow;
    Commented(w);
    OneRowPass(Step(w, UserUpdate(0, NOTE)), NOTED);
    NotedIsServed();
    NotedIsRecorded();
  }

  lemma Popped(s: Store, below: seq<seq<Row>>, r: Row)
    requires s.past == below + [[r]]
    ensures Undo(s) == Store([r.(dirty := true, obj := s.next)], below, s.next + 1)
  {
    assert s.past[..|s.past| - 1] == below && s.past[|s.past| - 1] == [r];
  }

  lemma UndoTwice(w: World)
    requires w.store.past == [[ROW], [LINKED], [NOTED]] && w.store.next == 4 && At(w, w.store, HUB_NOTED)
    ensures var w5 := Step(Step(w, UserUndo), UserUndo);
            At(w5, Store([LINKED.(dirty := true, obj := 5)], [[ROW]], 6), HUB_NOTED)
    ensures !Allowed(Step(w, UserUndo), UserUndo)
  {
    hide Step;
    CommentIsStored();
    UndoSteps(w);
    var w4 := Step(w, UserUndo);
    var back := LINKED.(dirty := true, obj := 5);
    Popped(w.store, [[ROW], [LINKED]], NOTED);
    UndoSteps(w4);
    Popped(w4.store, [[ROW]], LINKED);
    hide Undo;
    assert Step(w4, UserUndo).store == Store([back], [[ROW]], 6);
    assert back in [back] && !Covered([back], HUB_NOTED) by { hide Stored; }
    hide Covered;
  }

  lemma UndoTwicePass(w: World)
    requires w.store.past == [[ROW], [LINKED], [NOTED]] && w.store.next == 4 && At(w, w.store, HUB_NOTED)
    ensures var w' := Run(Step(Step(w, UserUndo), UserUndo), PASS);
            && w'.phase.Idle? && |w'.store.items| == 1
            && w'.store.items[0].Linked() && !w'.store.items[0].dirty && !Sound(w'.store.items, w'.hub)
  {
    hide Step, Run, Stored, InStep, Keeps, Restates;
    UndoTwice(w);
    CommentIsStored();
    var w5 := Step(Step(w, UserUndo), UserUndo);
    OneRowPass(w5, w5.store.items[0]);
    var w' := Run(w5, PASS);
    PatchInStepExactly(BARE, AnnToHubBody(NOTED.content));
    assert w'.store.items[0] in w'.store.items && w'.store.items[0].content == BARE;
  }

  /** The second undo restores the row without its comment; the sync after it leaves the row
      clean and linked while the hub row still has the comment. The user's side is at fault
      only at that undo, and the device could have told: the restored row lacks a column. */
  lemma UndoCanWithdrawAColumn()
    ensures Fresh(START)
    ensures var before := PASS + [UserUpdate(0, NOTE)] + PASS + [UserUndo];
            && !Allowed(Run(START, before), UserUndo)
            && var now := Run(START, before + [UserUndo] + PASS);
               && now.phase.Idle? && |now.store.items| == 1
               && now.store.items[0].Linked() && !now.store.items[0].dirty && !Sound(now.store.items, now.hub)
  {
    hide Step, Run, Allowed, Sound;
    FirstPass();
    var w1 := Run(START, PASS);
    CommentPass(w1);
    var w3 := Run(Step(w1, UserUpdate(0, NOTE)), PASS);
    UndoTwice(w3);
    UndoTwicePass(w3);
    var e1, e3 := PASS + [UserUpdate(0, NOTE)], PASS + [UserUpdate(0, NOTE)] + PASS;
    RunSnoc(START, PASS, UserUpdate(0, NOTE));
    RunConcat(START, e1, PASS);
    RunSnoc(START, e3, UserUndo);
    RunSnoc(START, e3 + [UserUndo], UserUndo);
    RunConcat(START, e3 + [UserUndo] + [UserUndo], PASS);
  }

  // An undo while a listing is in flight: the row was removed before the sync, so the pull
  // counts its hub row as missing, and the undo brings the row back before the pull adds it.

  const REMOVED := Store([], [[ROW], [LINKED]], 2)
  const BACK := LINKED.(dirty := true, obj := 2)
  const TWIN := Row(3, 0, BARE, Some(Minted(0)), false, 3)

  /** While pulling, an undo that lacks no column keeps the invariant exactly when the sync
      knows every hub row that the restored rows are linked to. */
  lemma UndoWhilePullingExactly(w: World)
    requires Inv(w) && (w.phase.Pulling? || w.phase.Listed?) && Covered(Undo(w.store).items, w.hub)
    ensures Inv(Step(w, UserUndo)) <==> Links(Undo(w.store).items) <= w.phase.have
  {
    OutsideKeepsExactly(w, UserUndo);
    hide Inv, Undo, Links, Covered;
  }

  const TO_LISTING: seq<Event> := [UserRemove(0), Begin, StartPull, List]
  const TO_TWINS: seq<Event> := [UserUndo, ListOk, Finish]
  const TO_EDIT: seq<Event> := [UserUpdate(0, NOTE), Begin, Send, HubApply]

  lemma Removed()
    ensures Remove(Store([LINKED], [[ROW]], 2), 0) == REMOVED
  {
    var items := [LINKED];
    assert items[1..] == [] && Without(items, 0) == Without(items[1..], 0) == [];
    assert PushPast([[ROW]], items) == [[ROW], items];
  }

  lemma Undone()
    ensures Undo(REMOVED) == Store([BACK], [[ROW]], 3)
    ensures !(Links(Undo(REMOVED).items) <= {})
  {
    var past := [[ROW], [LINKED]];
    assert past[|past| - 1] == [LINKED] && past[..|past| - 1] == [[ROW]];
    assert Restored([LINKED], 2) == [BACK];
    assert BACK in [BACK] && 0 in Links([BACK]);
  }

  /** The listing holds a row that is on the device again. */
  lemma PulledTwin()
    ensures var s := PullRows(Store([BACK], [[ROW]], 3), {}, [(0, AnnToHubBody(BARE))], 0).0;
            s.items == [BACK, TWIN] && s.next == 4
  {
    var rows := [(0, AnnToHubBody(BARE))];
    assert rows[1..] == [];
    assert PullRows(Store([BACK], [[ROW]], 3), {}, rows, 0).0 == Add(Store([BACK], [[ROW]], 3), 0, BARE, Some(Minted(0)), true);
  }

  lemma ListingOfOne()
    ensures Listing(HUB_BARE.rows, 7, 1) == [(0, AnnToHubBody(BARE))]
  {
    assert Listing(HUB_BARE.rows, 7, 0) == [];
  }

  lemma RemoveThenList(w: World)
    requires At(w, Store([LINKED], [[ROW]], 2), HUB_BARE)
    ensures var w' := Run(w, TO_LISTING);
            && w'.phase == Listed({}, 0, [(0, AnnToHubBody(BARE))])
            && w'.store == REMOVED && w'.hub == HUB_BARE && w'.refs == [(0, 7)]
  {
    hide Step, Run, AnnToHubBody, Without, PushPast;
    RunFour(w, UserRemove(0), Begin, StartPull, List);
    RemoveSteps(w, 0);
    var w1 := Step(w, UserRemove(0));
    Removed();
    assert w1.store == REMOVED;
    hide Remove;
    BeginSteps(w1);
    StartPullSteps(Step(w1, Begin), []);
    assert Links([]) == {};
    hide Links;
    ListSteps(Step(Step(w1, Begin), StartPull), {}, 0);
    ListingOfOne();
    hide Listing;
  }

  lemma UndoAfterList(w: World)
    requires w.phase == Listed({}, 0, [(0, AnnToHubBody(BARE))]) && w.refs == [(0, 7)]
    requires w.store == REMOVED && w.hub == HUB_BARE
    ensures !Allowed(w, UserUndo)
    ensures var w' := Run(w, TO_TWINS); At(w', w'.store, HUB_BARE) && w'.store.items == [BACK, TWIN] && w'.store.next == 4
  {
    hide Step, Run;
    RunThree(w, UserUndo, ListOk, Finish);
    UndoSteps(w);
    Undone();
    PulledTwin();
    hide Undo, PullRows, AnnToHubBody, Links;
    var w1 := Step(w, UserUndo);
    ListOkSteps(w1, {}, 0, w.phase.rows);
    var w2 := Step(w1, ListOk);
    FinishSteps(w2, w2.phase.have);
    hide Covered;
  }

  /** Two rows then share one hub row, and pushing an edit of one belies the other's clean flag. */
  lemma EditATwin(w: World)
    requires At(w, w.store, HUB_BARE) && w.store.items == [BACK, TWIN] && w.store.next == 4
    ensures var now := Run(w, TO_EDIT); TWIN in now.store.items && now.hub == HUB_NOTED && !Sound(now.store.items, now.hub)
  {
    hide Step, Run, InStep, Stored, Sound;
    RunFour(w, UserUpdate(0, NOTE), Begin, Send, HubApply);
    UpdateSteps(w, 0, NOTE);
    CommentIsStored();
    var w1 := Step(w, UserUpdate(0, NOTE));
    var edited := NOTED.(obj := 4);
    assert w1.store.items == [edited, TWIN];
    hide Update;
    ServedEdit(w1, edited);
    TwinDiffers();
    assert [edited, TWIN][1] == TWIN;
    NotSound([edited, TWIN], HUB_NOTED);
  }

  lemma NotSound(items: seq<Row>, hub: Hub)
    requires TWIN in items && hub == HUB_NOTED && !InStep(TWIN.content, HUB_NOTED.rows[TWIN.Link()].body)
    ensures !Sound(items, hub)
  {
  }

  lemma ServedEdit(w: World, edited: Row)
    requires At(w, w.store, HUB_BARE) && w.store.items == [edited, TWIN] && edited == NOTED.(obj := 4)
    ensures var now := Step(Step(Step(w, Begin), Send), HubApply); now.store == w.store && now.hub == HUB_NOTED
  {
    hide Step, Stored;
    CommentIsStored();
    var locals := [edited, TWIN];
    BeginSteps(w);
    var w1 := Step(w, Begin);
    SendSteps(w1, locals, 0);
    HubApplySteps(Step(w1, Send), locals, 0, 7);
    assert HubServe(HUB_BARE, 7, edited).0.rows == HUB_NOTED.rows;
  }

  lemma TwinDiffers()
    ensures TWIN.Linked() && !TWIN.dirty && !InStep(TWIN.content, HUB_NOTED.rows[TWIN.Link()].body)
  {
    assert TextOf(NOTED.content.opt, Comment).Some? && TextOf(BARE.opt, Comment).None?;
  }

  /** From a fresh device, a run in which the user removes a row and undoes that while the sync
      waits for a listing: up to the undo all is allowed; after it two rows are linked to one
      hub row, and the push of an edit leaves a clean linked row that differs from its hub row. */
  lemma UndoInPullBreaksTheFlag()
    ensures Fresh(START)
    ensures var before := PASS + TO_LISTING;
            && AllowedRun(START, before) && !Allowed(Run(START, before), UserUndo)
            && Run(START, before + TO_TWINS).store.items == [BACK, TWIN]
            && var now := Run(START, before + TO_TWINS + TO_EDIT);
               TWIN in now.store.items && TWIN.Linked() && !TWIN.dirty && !Sound(now.store.items, now.hub)
  {
    hide Step, Run, Fits, Sound;
    FirstPass();
    var before := PASS + TO_LISTING;
    RunConcat(START, PASS, TO_LISTING);
    RunConcat(START, before, TO_TWINS);
    RunConcat(START, before + TO_TWINS, TO_EDIT);
    RemoveThenList(Run(START, PASS));
    UndoAfterList(Run(START, before));
    EditATwin(Run(START, before + TO_TWINS));
    NoEditsSoFar();
  }

  lemma NoEditsSoFar()
    ensures AllowedRun(START, PASS + TO_LISTING)
  {
    hide Run, Step, Fits;
    var before := PASS + TO_LISTING;
    forall k | 0 <= k < |before|
      ensures Allowed(Run(START, before[..k]), before[k])
    {
      assert before[k] == if k < 8 then PASS[k] else TO_LISTING[k - 8];
      assert !before[k].UserUpdate? && !before[k].UserUndo?;
    }
  }
}
