/** The store and the sync in the form they run: a store object whose fields each
    operation replaces, and `syncAnnotations` as two loops over snapshots with the world
    moving at every await. Each step is tied to the machine of `AnnotationSync`. */
module AnnotationDevice {
  import opened Options
  import opened AnnotationStore
  import opened AnnotationSync
  import opened AnnotationQuiet

  /** How one request to the hub ends. */
  datatype Answer = Replied | RepliedWithoutId | RequestLost | ReplyLost

  /** What happens around one await: events that land before the hub serves the request,
      events that land before the answer is handled, and the answer. */
  datatype Turn = Turn(before: seq<Event>, after: seq<Event>, answer: Answer)

  predicate Outside(es: seq<Event>) {
    forall e | e in es :: FromOutside(e)
  }

  type Schedule = ts: seq<Turn> | forall t | t in ts :: Outside(t.before) && Outside(t.after)

  function Plus(x: Tally, y: Tally): Tally {
    Tally(x.pushed + y.pushed, x.created + y.created, x.pulledAdded + y.pulledAdded,
          x.deferred + y.deferred, x.failed + y.failed)
  }

  lemma PlusZero(x: Tally)
    ensures Plus(Tally(0, 0, 0, 0, 0), x) == x
  {
  }

  /** The schedule's turn at the n-th await; past its end nothing interferes. */
  function TurnAt(turns: Schedule, n: nat): (t: Turn)
    ensures Outside(t.before) && Outside(t.after)
  {
    if n < |turns| then turns[n] else Turn([], [], Replied)
  }

  class Device {
    var items: seq<Row>
    var past: seq<seq<Row>>
    var next: nat
    var hub: Hub
    const refs: seq<(nat, nat)>
    ghost var phase: Phase
    ghost var tally: Tally
    ghost var trace: seq<Event>
    ghost const origin: World

    /** The device is where the run of all its events so far leads. */
    ghost predicate Valid()
      reads this
    {
      Run(origin, trace) == View()
    }

    /** Whatever schedules the device has been through, if the user's side kept its bargain
        then every linked row not marked dirty says what its hub row says. */
    lemma SoundNow()
      requires Valid() && Fresh(origin) && AllowedRun(origin, trace)
      ensures Sound(items, hub)
    {
      assert trace[..|trace|] == trace;
      DirtyFlagSound(origin, trace, |trace|);
    }

    ghost function View(): World
      reads this
    {
      World(Store(items, past, next), hub, refs, phase, tally)
    }

    constructor (items: seq<Row>, next: nat, hub: Hub, refs: seq<(nat, nat)>)
      ensures View() == World(Store(items, [], next), hub, refs, Idle, Tally(0, 0, 0, 0, 0))
      ensures Valid() && trace == []
    {
      this.items, this.past, this.next, this.hub, this.refs := items, [], next, hub, refs;
      phase, tally, trace := Idle, Tally(0, 0, 0, 0, 0), [];
      origin := World(Store(items, [], next), hub, refs, Idle, Tally(0, 0, 0, 0, 0));
    }

    method Add(ref: nat, c: Content, hubId: Option<HubId>, pulled: bool) returns (id: nat)
      modifies this`items, this`past, this`next
      ensures View().store == AnnotationStore.Add(old(View()).store, ref, c, hubId, pulled)
      ensures id == old(next)
    {
      hide WithSortIndex, PushPast, Run;
      id := next;
      var row := Row(id, ref, WithSortIndex(c), hubId, !pulled, next);
      past := PushPast(past, items);
      items := items + [row];
      next := next + 1;
    }

    method Update(id: nat, p: Patch)
      modifies this`items, this`past, this`next
      ensures View().store == AnnotationStore.Update(old(View()).store, id, p)
    {
      hide PatchRow, PushPast;
      var prev, obj := items, next;
      items := seq(|prev|, i requires 0 <= i < |prev| => if prev[i].id == id then PatchRow(prev[i], p, obj) else prev[i]);
      past := PushPast(past, prev);
      next := next + 1;
    }

    method Remove(id: nat)
      modifies this`items, this`past
      ensures View().store == AnnotationStore.Remove(old(View()).store, id)
    {
      past := PushPast(past, items);
      items := Without(items, id);
    }

    method Undo()
      modifies this`items, this`past, this`next
      ensures View().store == AnnotationStore.Undo(old(View()).store)
    {
      if past == [] { return; }
      var snapshot := past[|past| - 1];
      items := Restored(snapshot, next);
      past := past[..|past| - 1];
      next := next + |snapshot|;
    }

    /** Appends an event that the fields already reflect. */
    ghost method Log(e: Event, before: World)
      requires Run(origin, trace) == before && Step(before, e) == View()
      modifies this`trace
      ensures Valid() && trace == old(trace) + [e]
    {
      hide Step;
      RunSnoc(origin, trace, e);
      hide Run;
      trace := trace + [e];
    }

    /** One event from outside the sync. */
    method Land(e: Event)
      requires Valid() && FromOutside(e)
      modifies this
      ensures Valid() && trace == old(trace) + [e] && phase == old(phase) && tally == old(tally)
    {
      ghost var before := View();
      match e {
        case UserAdd(ref, c) => var id := Add(ref, c, None, false);
        case UserUpdate(id, p) => Update(id, p.(hubId := None, dirty := None));
        case UserRemove(id) => Remove(id);
        case UserUndo => Undo();
        case HubDraw(ref, b) => hub := InsertRow(hub, ref, b);
      }
      Log(e, before);
    }

    /** Everything that lands in one gap. */
    method Interleave(es: seq<Event>)
      requires Valid() && Outside(es)
      modifies this
      ensures Valid() && trace == old(trace) + es
      ensures phase == old(phase) && tally == old(tally)
      ensures es == [] ==> View() == old(View())
    {
      hide Run;
      var i := 0;
      while i < |es|
        invariant 0 <= i <= |es|
        invariant Valid() && trace == old(trace) + es[..i]
        invariant phase == old(phase) && tally == old(tally)
        invariant i == 0 ==> View() == old(View())
      {
        Land(es[i]);
        assert es[..i + 1] == es[..i] + [es[i]];
        i := i + 1;
      }
      assert es[..i] == es;
    }

    /** The app is closed and opened again with the rows it saved. */
    method Restart()
      requires Valid()
      modifies this
      ensures Valid() && trace == old(trace) + [Event.Restart] && View() == Step(old(View()), Event.Restart)
      ensures items == old(items) && past == [] && hub == old(hub) && phase.Idle?
    {
      ghost var before := View();
      past := [];
      phase, tally := Idle, Tally(0, 0, 0, 0, 0);
      Log(Event.Restart, before);
    }

    /** A step of the sync that changes only where the sync is. */
    ghost method Mark(e: Event)
      requires Valid()
      requires Step(View(), e).store == View().store && Step(View(), e).hub == View().hub
      modifies this`phase, this`tally, this`trace
      ensures Valid() && trace == old(trace) + [e] && View() == Step(old(View()), e)
    {
      var before := View();
      phase, tally := Step(before, e).phase, Step(before, e).tally;
      Log(e, before);
    }

    /** The hub serves the request for `a`. */
    method Serve(ghost locals: seq<Row>, ghost i: nat, parent: nat, a: Row) returns (h: nat)
      requires Valid() && phase == Sent(locals, i) && i < |locals| && locals[i] == a
      requires !Skipped(refs, a) && HubRefOf(refs, a.ref) == Some(parent)
      modifies this
      ensures Valid() && trace == old(trace) + [HubApply] && View() == Step(old(View()), HubApply)
      ensures phase == Answered(locals, i, h) && tally == old(tally)
    {
      ghost var before := View();
      var served := HubServe(hub, parent, a);
      hub, h := served.0, served.1;
      phase := Answered(locals, i, h);
      Log(HubApply, before);
    }

    /** The write-back of a push: `dirty` is cleared only if the row is the object that was pushed. */
    method Link(ghost locals: seq<Row>, ghost i: nat, a: Row, h: nat) returns (outcome: Tally)
      requires Valid() && phase == Answered(locals, i, h) && i < |locals| && locals[i] == a
      modifies this
      ensures Valid() && trace == old(trace) + [ReplyOk] && View() == Step(old(View()), ReplyOk)
      ensures phase == Pushing(locals, i + 1) && tally == Plus(old(tally), outcome)
    {
      hide Run, Find, AnnotationStore.Update, LinkPatch;
      ghost var before := View();
      var cur := Find(items, a.id);
      Update(a.id, LinkPatch(Minted(h), cur.Some? && cur.value.obj == a.obj));
      outcome := if a.Linked() then Tally(1, 0, 0, 0, 0) else Tally(0, 1, 0, 0, 0);
      phase, tally := Pushing(locals, i + 1), Plus(tally, outcome);
      Log(ReplyOk, before);
    }

    /** The request failed, before the hub served it or after. */
    method Fail(ghost locals: seq<Row>, ghost i: nat) returns (outcome: Tally)
      requires Valid() && (phase == Sent(locals, i) || (phase.Answered? && phase == Answered(locals, i, phase.hubId))) && i < |locals|
      modifies this`phase, this`tally, this`trace
      ensures Valid() && trace == old(trace) + [ReplyFail] && phase == Pushing(locals, i + 1) && tally == Plus(old(tally), outcome)
    {
      hide Run;
      outcome := Tally(0, 0, 0, 0, 1);
      Mark(ReplyFail);
    }

    /** The answer to a request the hub has served. */
    method Settle(ghost locals: seq<Row>, ghost i: nat, a: Row, h: nat, answer: Answer) returns (outcome: Tally)
      requires Valid() && phase == Answered(locals, i, h) && i < |locals| && locals[i] == a
      modifies this
      ensures Valid() && phase == Pushing(locals, i + 1) && old(trace) <= trace && tally == Plus(old(tally), outcome)
      ensures answer.Replied? ==> View() == Step(old(View()), ReplyOk)
    {
      hide Run, WriteBack;
      if answer.ReplyLost? {
        outcome := Fail(locals, i);
      } else if answer.RepliedWithoutId? && !a.Linked() {
        outcome := Tally(0, 0, 0, 0, 0);
        Mark(ReplyWithoutId);
      } else {
        outcome := Link(locals, i, a, h);
      }
    }

    /** One request for `a`: send it, let the hub serve it, deal with the answer. */
    method Exchange(ghost locals: seq<Row>, ghost i: nat, parent: nat, a: Row, turn: Turn) returns (outcome: Tally)
      requires Valid() && phase == Pushing(locals, i) && i < |locals| && locals[i] == a
      requires !Skipped(refs, a) && HubRefOf(refs, a.ref) == Some(parent)
      requires Outside(turn.before) && Outside(turn.after)
      modifies this
      ensures Valid() && phase == Pushing(locals, i + 1) && old(trace) <= trace
      ensures tally == Plus(old(tally), outcome)
      ensures turn == Turn([], [], Replied) ==> View() == Step(Step(Step(old(View()), Send), HubApply), ReplyOk)
    {
      hide Run, HubServe, WriteBack, HubRefOf, Skipped, Plus;
      Mark(Send);
      hide Step;
      Interleave(turn.before);
      if turn.answer.RequestLost? {
        outcome := Fail(locals, i);
        return;
      }
      var h := Serve(locals, i, parent, a);
      Interleave(turn.after);
      outcome := Settle(locals, i, a, h, turn.answer);
    }

    /** One iteration of the push loop. */
    method PushRow(ghost locals: seq<Row>, ghost i: nat, a: Row, turn: Turn) returns (outcome: Tally)
      requires Valid() && phase == Pushing(locals, i) && i < |locals| && locals[i] == a
      requires Outside(turn.before) && Outside(turn.after)
      modifies this
      ensures Valid() && phase == Pushing(locals, i + 1) && old(trace) <= trace
      ensures tally == Plus(old(tally), outcome)
      ensures turn == Turn([], [], Replied) ==> View() == PushedQuietly(old(View()), a)
    {
      hide Run, HubServe, WriteBack, HubRefOf;
      outcome := Tally(0, 0, 0, 0, 0);
      var parent := HubRefOf(refs, a.ref);
      if parent.None? {
        outcome := outcome.(deferred := 1);
        Mark(Skip);
      } else if a.Linked() && !a.dirty {
        Mark(Skip);
      } else {
        outcome := Exchange(locals, i, parent.value, a, turn);
      }
    }

    /** A listing has arrived: add what the device lacks. */
    method AddMissing(have: set<nat>, ghost k: nat, rows: seq<(nat, HubBody)>, localRef: nat)
      returns (have': set<nat>, outcome: Tally)
      requires Valid() && phase == Listed(have, k, rows) && k < |refs| && refs[k].0 == localRef
      modifies this
      ensures Valid() && trace == old(trace) + [ListOk] && View() == Step(old(View()), ListOk)
      ensures phase == Pulling(have', k + 1) && tally == Plus(old(tally), outcome)
    {
      ghost var before := View();
      hide Run;
      var added;
      have', added := AddRows(have, rows, localRef);
      outcome := Tally(0, 0, added, 0, 0);
      phase, tally := Pulling(have', k + 1), Plus(tally, outcome);
      Log(ListOk, before);
    }

    /** The loop over one listing. */
    method AddRows(have: set<nat>, rows: seq<(nat, HubBody)>, localRef: nat) returns (have': set<nat>, added: nat)
      modifies this`items, this`past, this`next
      ensures (View().store, have', added) == PullRows(old(View()).store, have, rows, localRef)
    {
      hide AnnotationStore.Add, Run;
      ghost var (s, hv, n) := PullRows(View().store, have, rows, localRef);
      have', added := have, 0;
      assert rows[0..] == rows;
      for m := 0 to |rows|
        invariant PullRows(View().store, have', rows[m..], localRef) == (s, hv, n - added)
      {
        assert rows[m..][0] == rows[m] && rows[m..][1..] == rows[m + 1..];
        if rows[m].0 !in have' {
          var id := Add(localRef, HubToAnnotation(rows[m].1), Some(Minted(rows[m].0)), true);
          have' := have' + {rows[m].0};
          added := added + 1;
        }
      }
    }

    /** The request for a listing failed. */
    ghost method MarkListFail(have: set<nat>, k: nat)
      requires Valid() && (phase == Pulling(have, k) || (phase.Listed? && phase == Listed(have, k, phase.rows))) && k < |refs|
      modifies this`phase, this`tally, this`trace
      ensures Valid() && trace == old(trace) + [ListFail]
      ensures phase == Pulling(have, k + 1) && tally == Plus(old(tally), Tally(0, 0, 0, 0, 1))
    {
      hide Run;
      Mark(ListFail);
    }

    ghost method MarkList(have: set<nat>, k: nat)
      requires Valid() && phase == Pulling(have, k) && k < |refs|
      modifies this`phase, this`tally, this`trace
      ensures Valid() && trace == old(trace) + [List] && View() == Step(old(View()), List)
      ensures phase == Listed(have, k, Listing(hub.rows, refs[k].1, hub.minted)) && tally == old(tally)
    {
      hide Run;
      Mark(List);
    }

    /** One iteration of the pull loop. */
    method PullRef(have: set<nat>, k: nat, turn: Turn) returns (have': set<nat>, outcome: Tally)
      requires Valid() && phase == Pulling(have, k) && k < |refs|
      requires Outside(turn.before) && Outside(turn.after)
      modifies this
      ensures Valid() && phase == Pulling(have', k + 1) && old(trace) <= trace
      ensures tally == Plus(old(tally), outcome)
      ensures turn == Turn([], [], Replied) ==> View() == PulledQuietly(old(View()))
    {
      hide Run, Step, Listing;
      outcome := Tally(0, 0, 0, 0, 0);
      have' := have;
      Interleave(turn.before);
      if turn.answer.RequestLost? {
        outcome := outcome.(failed := 1);
        MarkListFail(have, k);
        return;
      }
      var rows := Listing(hub.rows, refs[k].1, hub.minted);
      MarkList(have, k);
      Interleave(turn.after);
      if turn.answer.ReplyLost? {
        outcome := outcome.(failed := 1);
        MarkListFail(have, k);
        return;
      }
      have', outcome := AddMissing(have, k, rows, refs[k].0);
    }

    /** The push loop. */
    method PushAll(locals: seq<Row>, turns: Schedule) returns (result: Tally, awaits: nat)
      requires Valid() && phase == Pushing(locals, 0)
      modifies this
      ensures Valid() && phase == Pushing(locals, |locals|) && old(trace) <= trace && tally == Plus(old(tally), result)
      ensures turns == [] ==> View() == PushedFrom(old(View()), locals, 0)
    {
      hide Run, HubRefOf, PushedQuietly;
      result, awaits := Tally(0, 0, 0, 0, 0), 0;
      for i := 0 to |locals|
        invariant Valid() && phase == Pushing(locals, i) && old(trace) <= trace && tally == Plus(old(tally), result)
        invariant turns == [] ==> PushedFrom(View(), locals, i) == PushedFrom(old(View()), locals, 0)
      {
        var outcome := PushRow(locals, i, locals[i], TurnAt(turns, awaits));
        result, awaits := Plus(result, outcome), awaits + 1;
      }
    }

    /** The pull loop. */
    method PullAll(turns: Schedule, n: nat) returns (result: Tally)
      requires Valid() && phase == Pulling(Links(items), 0)
      modifies this
      ensures Valid() && phase.Pulling? && phase.k == |refs| && old(trace) <= trace && tally == Plus(old(tally), result)
      ensures turns == [] ==> View() == PulledFrom(old(View()), |refs|)
    {
      hide Run, PulledQuietly;
      var have, awaits := Links(items), n;
      result := Tally(0, 0, 0, 0, 0);
      for k := 0 to |refs|
        invariant Valid() && phase == Pulling(have, k) && old(trace) <= trace && tally == Plus(old(tally), result)
        invariant turns == [] ==> PulledFrom(View(), |refs| - k) == PulledFrom(old(View()), |refs|)
      {
        var have', outcome := PullRef(have, k, TurnAt(turns, awaits));
        have, result, awaits := have', Plus(result, outcome), awaits + 1;
      }
    }

    ghost method MarkBegin()
      requires Valid() && phase.Idle?
      modifies this`phase, this`tally, this`trace
      ensures Valid() && old(trace) <= trace && View() == Step(old(View()), Begin)
      ensures phase == Pushing(items, 0) && tally == Tally(0, 0, 0, 0, 0)
    {
      hide Run;
      Mark(Begin);
    }

    ghost method MarkStartPull()
      requires Valid() && phase.Pushing? && phase.i == |phase.locals|
      modifies this`phase, this`tally, this`trace
      ensures Valid() && old(trace) <= trace && View() == Step(old(View()), StartPull)
      ensures phase == Pulling(Links(items), 0) && tally == old(tally)
    {
      hide Run, Links;
      Mark(StartPull);
    }

    ghost method MarkFinish()
      requires Valid() && phase.Pulling? && phase.k == |refs|
      modifies this`phase, this`tally, this`trace
      ensures Valid() && old(trace) <= trace && View() == Step(old(View()), Finish)
      ensures phase.Idle? && tally == old(tally)
    {
      hide Run;
      Mark(Finish);
    }

    /** Push every local row under its parent, then pull what the device lacks. Whatever the
        schedule does at the awaits, the call is a stretch of the device's run; undisturbed it
        is the sync of `SecondSyncDoesNothing`: it leaves every row linked and clean and every
        hub row of a synced reference on the device, and, called again, it changes and counts
        nothing. */
    method SyncAnnotations(turns: Schedule) returns (result: Tally)
      requires Valid() && phase.Idle?
      modifies this
      ensures Valid() && phase.Idle? && old(trace) <= trace && result == tally
      ensures turns == [] ==> View() == SyncedQuietly(old(View()))
      ensures turns == [] && ReadyToSync(old(View())) ==> ReadyToSync(View()) && Settles(old(View()), View())
    {
      hide Run, Step, Plus, Settles, ReadyToSync, Links, PushedFrom, PulledFrom;
      if turns == [] && ReadyToSync(View()) { SyncSettles(View()); }
      var locals := items;
      MarkBegin();
      var pushed, awaits := PushAll(locals, turns);
      MarkStartPull();
      var pulled := PullAll(turns, awaits);
      MarkFinish();
      PlusZero(pushed);
      PlusZero(pulled);
      result := Plus(pushed, pulled);
    }
  }
}
