/** The managers of the two companion servers, `kimi web` and `rerun`: operations queued behind one
    another, one child process at a time. */
module ServerQueue {
  import opened Options

  /** `kimi web` is shared and counts its users; `rerun` serves one recording at a time. */
  datatype Manager = Kimi | Rerun(accepts: string -> bool)

  datatype Op = Start(recording: string) | Stop

  datatype Outcome = Url(url: string) | Stopped | Refused

  /** Where a queued operation is: behind its predecessor, looking for the binary and a port,
      waiting for its child's banner, or settled. */
  datatype Stage = Waiting | Locating | Booting(child: nat) | Settled(outcome: Outcome)

  datatype Child = Child(killed: bool, exited: bool)

  predicate Live(c: Child) {
    !c.killed && !c.exited
  }

  datatype Serving = Serving(recording: string, url: string)

  /** The manager's variables, every operation ever queued and every child ever spawned. `tail` is
      the operation whose promise the next one will wait for, `behind` the one that each operation
      was chained to when it was queued; `begun` counts the operations that have left the queue. */
  datatype World = World(
    ops: seq<Op>, stages: seq<Stage>, behind: seq<Option<nat>>, tail: Option<nat>, begun: nat,
    children: seq<Child>, proc: Option<nat>, current: Option<Serving>, users: nat)

  const EMPTY := World([], [], [], None, 0, [], None, None, 0)

  datatype Event =
    | Enqueue(op: Op)
    | Begin(k: nat)
    | Located(k: nat, found: bool)
    | Banner(k: nat, url: string)
    | Fail(k: nat)
    | Exit(c: nat)

  /** The promise the operation was chained to has settled, well or badly, or there was none. */
  predicate Released(w: World, k: nat)
    requires k < |w.behind|
  {
    w.behind[k].Some? ==> w.behind[k].value < |w.stages| && w.stages[w.behind[k].value].Settled?
  }

  predicate Possible(w: World, e: Event)
    requires |w.stages| == |w.ops| == |w.behind|
  {
    match e
    case Enqueue(_) => true
    case Begin(k) => k < |w.ops| && w.stages[k].Waiting? && Released(w, k)
    case Located(k, _) => k < |w.ops| && w.stages[k].Locating?
    case Banner(k, _) => k < |w.ops| && w.stages[k].Booting?
    case Fail(k) => k < |w.ops| && w.stages[k].Booting?
    case Exit(c) => c < |w.children| && !w.children[c].exited
  }

  function KillChild(w: World, c: nat): World {
    if c < |w.children| then w.(children := w.children[c := w.children[c].(killed := true)]) else w
  }

  /** Kill the current child, if any, and forget it. */
  function KillServer(w: World): World {
    (if w.proc.Some? then KillChild(w, w.proc.value) else w).(proc := None, current := None)
  }

  function ResetIfCurrent(w: World, c: nat): World {
    if w.proc == Some(c) then w.(proc := None, current := None) else w
  }

  function SetStage(w: World, k: nat, s: Stage): World
    requires k < |w.stages|
  {
    w.(stages := w.stages[k := s])
  }

  function BeginOp(m: Manager, w: World, k: nat): World
    requires k < |w.ops| == |w.stages|
  {
    var b := w.(begun := w.begun + 1);
    match w.ops[k]
    case Stop =>
      if m.Kimi? then
        var users := if w.users > 0 then w.users - 1 else 0;
        SetStage(if users > 0 then b.(users := users) else KillServer(b.(users := users)), k, Settled(Stopped))
      else SetStage(KillServer(b), k, Settled(Stopped))
    case Start(recording) =>
      if m.Kimi? then
        SetStage(b.(users := w.users + 1), k, if w.proc.Some? && w.current.Some? then Settled(Url(w.current.value.url)) else Locating)
      else if !m.accepts(recording) then SetStage(b, k, Settled(Refused))
      else if w.proc.Some? && w.current.Some? && w.current.value.recording == recording then
        SetStage(b, k, Settled(Url(w.current.value.url)))
      else SetStage(if w.proc.Some? then KillServer(b) else b, k, Locating)
  }

  /** A start that has a child gives up on it. */
  function FailStart(w: World, k: nat): World
    requires k < |w.stages| && w.stages[k].Booting?
  {
    var c := w.stages[k].child;
    SetStage(KillChild(ResetIfCurrent(w, c), c), k, Settled(Refused))
  }

  /** The start that waits for a child's banner. */
  function BooterOf(stages: seq<Stage>, c: nat): Option<nat> {
    if stages == [] then None
    else if stages[|stages| - 1] == Booting(c) then Some(|stages| - 1)
    else BooterOf(stages[..|stages| - 1], c)
  }

  function Step(m: Manager, w: World, e: Event): World
    requires |w.stages| == |w.ops| == |w.behind| && Possible(w, e)
  {
    match e
    case Enqueue(op) => w.(ops := w.ops + [op], stages := w.stages + [Waiting], behind := w.behind + [w.tail], tail := Some(|w.ops|))
    case Begin(k) => BeginOp(m, w, k)
    case Located(k, found) =>
      if found then SetStage(w.(children := w.children + [Child(false, false)], proc := Some(|w.children|)), k, Booting(|w.children|))
      else SetStage(w, k, Settled(Refused))
    case Banner(k, url) =>
      var recording := if w.ops[k].Start? then w.ops[k].recording else "";
      SetStage(w.(current := Some(Serving(recording, url))), k, Settled(Url(url)))
    case Fail(k) => FailStart(w, k)
    case Exit(c) =>
      var gone := ResetIfCurrent(w.(children := w.children[c := w.children[c].(exited := true)]), c);
      var booter := BooterOf(w.stages, c);
      if booter.Some? && booter.value < |w.stages| && w.stages[booter.value].Booting? then FailStart(gone, booter.value) else gone
  }

  // ---- The invariant --------------------------------------------------------------------------

  function Before(k: nat): Option<nat> {
    if k == 0 then None else Some(k - 1)
  }

  /** The chain of promises: each operation behind the one queued just before it. */
  predicate Chained(w: World) {
    && |w.behind| == |w.ops| && w.tail == Before(|w.ops|)
    && (forall k | 0 <= k < |w.behind| :: w.behind[k] == Before(k))
  }

  /** Operations begin in the order they were queued, each after the one before it has settled. */
  predicate InOrder(w: World) {
    && Chained(w)
    && |w.stages| == |w.ops| && w.begun <= |w.ops|
    && (forall k | 0 <= k < |w.stages| :: w.stages[k].Waiting? <==> k >= w.begun)
    && (forall k | 0 <= k < w.begun - 1 :: w.stages[k].Settled?)
  }

  /** The child neither killed nor exited, if there is one, is the current one. */
  predicate OneChild(w: World) {
    && (w.proc.Some? ==> w.proc.value < |w.children|)
    && forall c | 0 <= c < |w.children| :: Live(w.children[c]) <==> w.proc == Some(c)
  }

  /** The operation that has begun and not settled. */
  predicate Busy(w: World)
    requires InOrder(w)
  {
    w.begun > 0 && !w.stages[w.begun - 1].Settled?
  }

  predicate StageFits(w: World)
    requires InOrder(w)
  {
    && (Busy(w) ==>
          && w.ops[w.begun - 1].Start? && w.current == None
          && w.proc == (if w.stages[w.begun - 1].Booting? then Some(w.stages[w.begun - 1].child) else None))
    && (!Busy(w) ==> (w.proc.Some? <==> w.current.Some?))
  }

  /** Starts minus stops, never below zero. */
  function Demand(ops: seq<Op>): nat {
    if ops == [] then 0
    else
      var before := Demand(ops[..|ops| - 1]);
      if ops[|ops| - 1].Start? then before + 1 else if before > 0 then before - 1 else 0
  }

  predicate Counted(m: Manager, w: World)
    requires InOrder(w)
  {
    m.Kimi? ==>
      && w.users == Demand(w.ops[..w.begun])
      && (w.users == 0 ==> w.proc == None)
      && (Busy(w) ==> w.users > 0)
  }

  predicate Served(m: Manager, w: World)
    requires InOrder(w)
  {
    m.Rerun? ==>
      && (w.current.Some? ==> m.accepts(w.current.value.recording))
      && (Busy(w) && w.ops[w.begun - 1].Start? ==> m.accepts(w.ops[w.begun - 1].recording))
  }

  predicate Inv(m: Manager, w: World) {
    InOrder(w) && OneChild(w) && StageFits(w) && Counted(m, w) && Served(m, w)
  }

  lemma {:induction false} BooterIsBooting(stages: seq<Stage>, c: nat)
    ensures match BooterOf(stages, c)
            case Some(k) => k < |stages| && stages[k] == Booting(c)
            case None => forall k | 0 <= k < |stages| :: stages[k] != Booting(c)
  {
    if stages != [] { BooterIsBooting(stages[..|stages| - 1], c); }
  }

  lemma DemandGrows(w: World)
    requires w.begun < |w.ops|
    ensures Demand(w.ops[..w.begun + 1]) ==
            if w.ops[w.begun].Start? then Demand(w.ops[..w.begun]) + 1
            else if Demand(w.ops[..w.begun]) > 0 then Demand(w.ops[..w.begun]) - 1 else 0
  {
    assert w.ops[..w.begun + 1][..w.begun] == w.ops[..w.begun];
  }

  lemma KillKeepsOneChild(w: World)
    requires OneChild(w)
    ensures OneChild(KillServer(w)) && KillServer(w).proc == None && KillServer(w).current == None
  {
  }

  /** An operation that may begin is the next one, and nothing else is under way. */
  lemma NextToBegin(w: World, k: nat)
    requires InOrder(w) && Possible(w, Begin(k))
    ensures k == w.begun && !Busy(w)
  {
  }

  /** What an operation that leaves the queue does to the queue, and to the children. */
  lemma BeginShape(m: Manager, w: World, k: nat)
    requires k < |w.ops| == |w.stages|
    ensures var n := BeginOp(m, w, k);
            && n.ops == w.ops && n.begun == w.begun + 1 && n.behind == w.behind && n.tail == w.tail
            && |n.stages| == |w.stages| && (forall j | 0 <= j < |w.stages| && j != k :: n.stages[j] == w.stages[j])
            && !n.stages[k].Waiting? && !n.stages[k].Booting?
    ensures var n := BeginOp(m, w, k);
            || (n.proc == w.proc && n.current == w.current && n.children == w.children)
            || (n.proc == None && n.current == None && n.children == KillServer(w).children)
  {
  }

  lemma BeginInOrder(m: Manager, w: World, k: nat)
    requires InOrder(w) && Possible(w, Begin(k))
    ensures k == w.begun && !Busy(w) && InOrder(BeginOp(m, w, k))
  {
    NextToBegin(w, k);
    BeginShape(m, w, k);
    hide BeginOp, KillServer;
  }

  lemma BeginOneChild(m: Manager, w: World, k: nat)
    requires OneChild(w) && k < |w.ops| == |w.stages|
    ensures OneChild(BeginOp(m, w, k))
  {
    BeginShape(m, w, k);
    KillKeepsOneChild(w);
    hide BeginOp, KillServer, Live;
  }

  lemma BeginFits(m: Manager, w: World, k: nat)
    requires Inv(m, w) && Possible(w, Begin(k)) && InOrder(BeginOp(m, w, k)) && k == w.begun && !Busy(w)
    ensures var n := BeginOp(m, w, k); StageFits(n) && Counted(m, n) && Served(m, n)
  {
    BeginStageFits(m, w, k);
    BeginCounted(m, w, k);
    BeginServed(m, w, k);
    hide BeginOp, InOrder, StageFits, Counted, Served, Inv;
  }

  lemma BeginStageFits(m: Manager, w: World, k: nat)
    requires InOrder(w) && StageFits(w) && Possible(w, Begin(k)) && InOrder(BeginOp(m, w, k)) && k == w.begun && !Busy(w)
    ensures StageFits(BeginOp(m, w, k))
  {
    hide Chained, Released;
  }

  lemma BeginCounted(m: Manager, w: World, k: nat)
    requires InOrder(w) && Counted(m, w) && Possible(w, Begin(k)) && InOrder(BeginOp(m, w, k)) && k == w.begun && !Busy(w)
    ensures Counted(m, BeginOp(m, w, k))
  {
    DemandGrows(w);
    hide Demand, Chained, Released;
  }

  lemma BeginServed(m: Manager, w: World, k: nat)
    requires InOrder(w) && Served(m, w) && Possible(w, Begin(k)) && InOrder(BeginOp(m, w, k)) && k == w.begun && !Busy(w)
    ensures Served(m, BeginOp(m, w, k))
  {
    hide Chained, Released;
  }

  lemma BeginKeeps(m: Manager, w: World, k: nat)
    requires Inv(m, w) && Possible(w, Begin(k))
    ensures Inv(m, BeginOp(m, w, k))
  {
    BeginInOrder(m, w, k);
    BeginOneChild(m, w, k);
    BeginFits(m, w, k);
    hide InOrder, OneChild, StageFits, Counted, Served, BeginOp;
  }

  lemma FailKeeps(m: Manager, w: World, k: nat)
    requires Inv(m, w) && k < |w.stages| && w.stages[k].Booting?
    ensures Inv(m, FailStart(w, k))
  {
    hide Demand;
    assert k == w.begun - 1;
  }

  lemma ExitKeeps(m: Manager, w: World, c: nat)
    requires Inv(m, w) && Possible(w, Exit(c))
    ensures Inv(m, Step(m, w, Exit(c)))
  {
    hide Demand;
    BooterIsBooting(w.stages, c);
    hide BooterOf;
    var booter := BooterOf(w.stages, c);
    if booter.Some? { assert booter.value == w.begun - 1 && w.proc == Some(c); }
  }

  lemma EnqueueKeeps(m: Manager, w: World, op: Op)
    requires Inv(m, w)
    ensures Inv(m, Step(m, w, Enqueue(op)))
  {
    hide Demand, Live;
    assert (w.ops + [op])[..w.begun] == w.ops[..w.begun];
  }

  lemma LocatedKeeps(m: Manager, w: World, k: nat, found: bool)
    requires Inv(m, w) && Possible(w, Located(k, found))
    ensures Inv(m, Step(m, w, Located(k, found)))
  {
    hide Demand;
    assert k == w.begun - 1;
  }

  lemma BannerKeeps(m: Manager, w: World, k: nat, url: string)
    requires Inv(m, w) && Possible(w, Banner(k, url))
    ensures Inv(m, Step(m, w, Banner(k, url)))
  {
    hide Demand, Live;
    assert k == w.begun - 1;
  }

  lemma StepKeeps(m: Manager, w: World, e: Event)
    requires Inv(m, w) && Possible(w, e)
    ensures Inv(m, Step(m, w, e))
  {
    match e
    case Enqueue(op) => EnqueueKeeps(m, w, op);
    case Begin(k) => BeginKeeps(m, w, k);
    case Located(k, found) => LocatedKeeps(m, w, k, found);
    case Banner(k, url) => BannerKeeps(m, w, k, url);
    case Fail(k) => FailKeeps(m, w, k);
    case Exit(c) => ExitKeeps(m, w, c);
  }

  // ---- Whole runs --------------------------------------------------------------------------------

  ghost predicate Runs(m: Manager, w: World, events: seq<Event>)
    requires Inv(m, w)
    decreases |events|
  {
    events == [] || (Possible(w, events[0]) && (StepKeeps(m, w, events[0]); Runs(m, Step(m, w, events[0]), events[1..])))
  }

  ghost function Run(m: Manager, w: World, events: seq<Event>): (r: World)
    requires Inv(m, w) && Runs(m, w, events)
    ensures Inv(m, r)
    decreases |events|
  {
    if events == [] then w
    else
      StepKeeps(m, w, events[0]);
      Run(m, Step(m, w, events[0]), events[1..])
  }

  /** The laws at every moment of every run: no two operations overlap; no two children are alive,
      and a living child is the manager's own; `kimi web` counts its users, and without users it
      has no child; with nothing under way a child and an address come together. */
  lemma AtEveryMoment(m: Manager, events: seq<Event>)
    requires Inv(m, EMPTY) && Runs(m, EMPTY, events)
    ensures var w := Run(m, EMPTY, events);
            && (forall j, k | 0 <= j < |w.stages| && 0 <= k < |w.stages| && Unsettled(w.stages[j]) && Unsettled(w.stages[k]) :: j == k)
            && (forall c, d | 0 <= c < |w.children| && 0 <= d < |w.children| && Live(w.children[c]) && Live(w.children[d]) :: c == d && w.proc == Some(c))
            && (m.Kimi? ==> w.users == Demand(w.ops[..w.begun]) && (w.users == 0 ==> forall c | 0 <= c < |w.children| :: !Live(w.children[c])))
            && ((forall k | 0 <= k < |w.stages| :: !Unsettled(w.stages[k])) ==> (w.proc.Some? <==> w.current.Some?))
  {
    hide Demand;
  }

  predicate Unsettled(s: Stage) {
    s.Locating? || s.Booting?
  }

  /** What a settling start reports is true: the address it hands out is that of the living child,
      and for `rerun` that child serves the recording that was asked for. */
  lemma SettledWithTheTruth(m: Manager, w: World, e: Event, k: nat)
    requires Inv(m, w) && Possible(w, e) && k < |w.stages| && !w.stages[k].Settled?
    ensures var n := Step(m, w, e);
            k < |n.stages| &&
            (n.stages[k].Settled? && n.stages[k].outcome.Url? ==>
              && n.current.Some? && n.current.value.url == n.stages[k].outcome.url
              && n.proc.Some? && n.proc.value < |n.children| && Live(n.children[n.proc.value])
              && (m.Rerun? ==> n.ops[k] == Start(n.current.value.recording)))
  {
    hide Demand, Counted, Chained;
    if e.Exit? { BooterIsBooting(w.stages, e.c); }
    hide BooterOf;
    if e.Begin? {
      BeginsWithTheTruth(m, w, e.k);
      hide BeginOp;
    }
  }

  lemma BeginsWithTheTruth(m: Manager, w: World, k: nat)
    requires Inv(m, w) && Possible(w, Begin(k))
    ensures var n := BeginOp(m, w, k);
            && k < |n.stages| == |w.stages| && n.ops == w.ops
            && (forall j | 0 <= j < |w.stages| && j != k :: n.stages[j] == w.stages[j])
            && (n.stages[k].Settled? && n.stages[k].outcome.Url? ==>
              && n.current == w.current && n.proc == w.proc && n.children == w.children
              && w.current.Some? && w.current.value.url == n.stages[k].outcome.url && w.proc.Some?
              && (m.Rerun? ==> w.ops[k] == Start(w.current.value.recording)))
  {
    hide Demand, Counted, Chained, OneChild, Live;
    NextToBegin(w, k);
  }

  /** The queue, the children, the server and the outcomes of the other operations are as they were. */
  predicate OnlySettles(w: World, n: World, k: nat)
    requires k < |w.stages|
  {
    && n == w.(stages := n.stages, begun := n.begun, users := n.users)
    && |n.stages| == |w.stages| && n.stages == w.stages[k := n.stages[k]]
  }

  /** No child is alive and no address is kept; the children already dead are as they were. */
  predicate NothingServes(w: World, n: World) {
    && n.proc == None && n.current == None && |n.children| == |w.children|
    && forall c | 0 <= c < |w.children| :: !Live(n.children[c]) && (!Live(w.children[c]) ==> n.children[c] == w.children[c])
  }

  /** A stop settles at once. A stop of `rerun`, and one that takes the last user of `kimi web`,
      leaves no child alive and no address; with users left `kimi web` serves on untouched. */
  predicate StopsRight(m: Manager, w: World, k: nat, n: World)
    requires k < |w.stages| && k < |w.ops|
  {
    && |n.stages| == |w.stages| && n.stages[k] == Settled(Stopped)
    && (m.Kimi? ==> n.users == Demand(w.ops[..k + 1]))
    && if m.Rerun? || Demand(w.ops[..k + 1]) == 0 then NothingServes(w, n) else OnlySettles(w, n, k)
  }

  /** Whatever the queue holds, a stop that begins does this. */
  lemma StopEndsTheServer(m: Manager, w: World, k: nat)
    requires Inv(m, w) && Possible(w, Begin(k)) && w.ops[k].Stop?
    ensures StopsRight(m, w, k, Step(m, w, Begin(k)))
  {
    NextToBegin(w, k);
    DemandGrows(w);
    hide Demand, Chained, Released, Served;
  }

  /** The server under way may be shared with a start of the recording. */
  predicate Shares(m: Manager, w: World, recording: string) {
    w.current.Some? && (m.Rerun? ==> m.accepts(recording) && w.current.value.recording == recording)
  }

  /** A start that finds a server it may share settles at once with its address and touches
      nothing; `rerun` refuses a file it does not accept and touches nothing; any other start goes
      looking for the binary with no child alive and no address. Each start is one more user. */
  predicate StartsRight(m: Manager, w: World, k: nat, n: World)
    requires k < |w.stages| && k < |w.ops| && w.ops[k].Start?
  {
    var recording := w.ops[k].recording;
    && |n.stages| == |w.stages| && n.users == (if m.Kimi? then w.users + 1 else w.users)
    && if Shares(m, w, recording) then n.stages[k] == Settled(Url(w.current.value.url)) && OnlySettles(w, n, k) && w.proc.Some?
       else if m.Rerun? && !m.accepts(recording) then n.stages[k] == Settled(Refused) && OnlySettles(w, n, k)
       else n.stages[k] == Locating && NothingServes(w, n)
  }

  /** Whatever the queue holds, a start that begins does this. */
  lemma StartFindsTheServer(m: Manager, w: World, k: nat)
    requires Inv(m, w) && Possible(w, Begin(k)) && w.ops[k].Start?
    ensures StartsRight(m, w, k, Step(m, w, Begin(k)))
  {
    NextToBegin(w, k);
    hide Demand, Chained, Released, Served, Counted;
  }

  /** The one child alive afterwards is new. */
  predicate OneMore(w: World, n: World) {
    |n.children| == |w.children| + 1 && n.children[..|w.children|] == w.children && Live(n.children[|w.children|]) && n.proc == Some(|w.children|)
  }

  /** A start that finds its binary spawns one child, and hands out the address in that child's
      banner; without the binary it is refused and nothing is spawned. */
  lemma StartSpawns(m: Manager, w: World, k: nat, url: string)
    requires Inv(m, w) && k < |w.stages| && w.stages[k].Locating?
    ensures var n := Step(m, w, Located(k, true));
            && OneMore(w, n) && Inv(m, n) && Possible(n, Banner(k, url))
            && var r := Step(m, n, Banner(k, url));
            && r.children == n.children && r.proc == n.proc && r.users == w.users && r.stages == w.stages[k := Settled(Url(url))]
            && r.current == Some(Serving(w.ops[k].recording, url))
    ensures Step(m, w, Located(k, false)) == w.(stages := w.stages[k := Settled(Refused)])
  {
    LocatedKeeps(m, w, k, true);
    hide Demand, Chained, Served, Counted;
    assert k == w.begun - 1 && w.ops[k].Start?;
  }

  /** A start whose child fails, or exits before its banner, is refused with no child alive and no
      address. */
  lemma FailedStartIsRefused(m: Manager, w: World, e: Event, k: nat)
    requires Inv(m, w) && Possible(w, e) && k < |w.stages| && w.stages[k].Booting?
    requires e == Fail(k) || e == Exit(w.stages[k].child)
    ensures var n := Step(m, w, e);
            && NothingServes(w, n) && n.stages == w.stages[k := Settled(Refused)] && n.users == w.users
  {
    assert k == w.begun - 1 && w.proc == Some(w.stages[k].child);
    if e.Exit? { BooterIsBooting(w.stages, e.c); }
    hide Demand, Chained, Served, Counted, BooterOf;
  }

  /** The server's exit forgets it; the exit of any other child changes nothing but that child. */
  lemma ExitForgets(m: Manager, w: World, c: nat)
    requires Inv(m, w) && Possible(w, Exit(c)) && forall k | 0 <= k < |w.stages| :: w.stages[k] != Booting(c)
    ensures var n := Step(m, w, Exit(c));
            && n == w.(children := n.children, proc := n.proc, current := n.current)
            && n.children == w.children[c := w.children[c].(exited := true)]
            && if Live(w.children[c]) then n.proc == None && n.current == None else n.proc == w.proc && n.current == w.current
  {
    BooterIsBooting(w.stages, c);
    hide Demand, Chained, Served, Counted, BooterOf;
  }

  /** An operation settles once: its outcome never changes. */
  lemma {:induction false} SettlesOnce(m: Manager, w: World, events: seq<Event>, k: nat)
    requires Inv(m, w) && Runs(m, w, events) && k < |w.stages| && w.stages[k].Settled?
    ensures var r := Run(m, w, events); k < |r.stages| && r.stages[k] == w.stages[k]
    decreases |events|
  {
    hide OneChild, StageFits, Counted, Served, Step, Possible;
    if events != [] {
      StepKeeps(m, w, events[0]);
      StaysSettled(m, w, events[0], k);
      SettlesOnce(m, Step(m, w, events[0]), events[1..], k);
    }
  }

  lemma StaysSettled(m: Manager, w: World, e: Event, k: nat)
    requires Inv(m, w) && Possible(w, e) && k < |w.stages| && w.stages[k].Settled?
    ensures k < |Step(m, w, e).stages| && Step(m, w, e).stages[k] == w.stages[k]
  {
    hide Demand, Chained, OneChild, StageFits, Counted, Served;
    match e
    case Begin(j) => BeginShape(m, w, j); hide BeginOp;
    case Exit(c) => BooterIsBooting(w.stages, c); hide BooterOf;
    case _ =>
  }

  /** A dead child stays dead. */
  lemma {:induction false} TheDeadStayDead(m: Manager, w: World, events: seq<Event>, c: nat)
    requires Inv(m, w) && Runs(m, w, events) && c < |w.children| && !Live(w.children[c])
    ensures var r := Run(m, w, events); c < |r.children| && !Live(r.children[c])
    decreases |events|
  {
    hide OneChild, StageFits, Counted, Served, Step, Possible, Live;
    if events != [] {
      StepKeeps(m, w, events[0]);
      StaysDead(m, w, events[0], c);
      TheDeadStayDead(m, Step(m, w, events[0]), events[1..], c);
    }
  }

  lemma StaysDead(m: Manager, w: World, e: Event, c: nat)
    requires Inv(m, w) && Possible(w, e) && c < |w.children| && !Live(w.children[c])
    ensures c < |Step(m, w, e).children| && !Live(Step(m, w, e).children[c])
  {
    hide Demand, Chained, StageFits, Counted, Served;
    match e
    case Begin(j) => BeginShape(m, w, j); hide BeginOp;
    case Exit(x) => BooterIsBooting(w.stages, x); hide BooterOf;
    case _ =>
  }

  /** A start of another recording: no child from before it is alive from then on, whatever
      happens, so the new server never stands beside the old one. */
  lemma ReplacedForGood(m: Manager, w: World, k: nat, events: seq<Event>, c: nat)
    requires Inv(m, w) && Possible(w, Begin(k)) && m.Rerun? && w.ops[k].Start? && m.accepts(w.ops[k].recording)
    requires w.current.Some? ==> w.current.value.recording != w.ops[k].recording
    requires Inv(m, Step(m, w, Begin(k))) && Runs(m, Step(m, w, Begin(k)), events) && c < |w.children|
    ensures var r := Run(m, Step(m, w, Begin(k)), events); c < |r.children| && !Live(r.children[c])
  {
    NextToBegin(w, k);
    var n := Step(m, w, Begin(k));
    assert c < |n.children| && !Live(n.children[c]) by {
      hide Demand, Counted;
      KillKeepsOneChild(w);
    }
    TheDeadStayDead(m, n, events, c);
  }

  // ---- The managers' variables, changed in place ----------------------------------------------------

  class Server {
    const manager: Manager
    var ops: seq<Op>
    var stages: seq<Stage>
    var behind: seq<Option<nat>>
    var tail: Option<nat>
    var begun: nat
    var children: seq<Child>
    var proc: Option<nat>
    var current: Option<Serving>
    var users: nat

    function Value(): World
      reads this
    {
      World(ops, stages, behind, tail, begun, children, proc, current, users)
    }

    constructor (manager: Manager)
      ensures this.manager == manager && Value() == EMPTY && Inv(manager, Value())
    {
      this.manager := manager;
      ops, stages, behind, tail, begun := [], [], [], None, 0;
      children, proc, current, users := [], None, None, 0;
    }

    method Kill(c: nat)
      requires c < |children|
      modifies this`children
      ensures Value() == KillChild(old(Value()), c)
    {
      children := children[c := children[c].(killed := true)];
    }

    method Reset(c: nat)
      modifies this`proc, this`current
      ensures Value() == ResetIfCurrent(old(Value()), c)
    {
      if proc == Some(c) {
        proc := None;
        current := None;
      }
    }

    method Settle(k: nat, outcome: Outcome)
      requires k < |stages|
      modifies this`stages
      ensures Value() == SetStage(old(Value()), k, Settled(outcome))
    {
      stages := stages[k := Settled(outcome)];
    }

    /** Chain the operation to the tail, which it becomes. */
    method Queue(op: Op)
      requires Inv(manager, Value())
      modifies this
      ensures Value() == Step(manager, old(Value()), Enqueue(op)) && Inv(manager, Value())
    {
      StepKeeps(manager, Value(), Enqueue(op));
      ops := ops + [op];
      stages := stages + [Waiting];
      behind := behind + [tail];
      tail := Some(|ops| - 1);
    }

    method Run(k: nat)
      requires Inv(manager, Value()) && Possible(Value(), Begin(k))
      modifies this
      ensures Value() == Step(manager, old(Value()), Begin(k)) && Inv(manager, Value())
      ensures var was := old(Value());
              if was.ops[k].Stop? then StopsRight(manager, was, k, Value()) else StartsRight(manager, was, k, Value())
    {
      StepKeeps(manager, Value(), Begin(k));
      if ops[k].Stop? { StopEndsTheServer(manager, Value(), k); } else { StartFindsTheServer(manager, Value(), k); }
      hide Inv, Demand, StopsRight, StartsRight;
      begun := begun + 1;
      match ops[k] {
        case Stop => RunStop(k);
        case Start(recording) => if manager.Kimi? { StartKimi(k); } else { StartRerun(k, recording); }
      }
    }

    method RunStop(k: nat)
      requires k < |stages| && (proc.Some? ==> proc.value < |children|)
      modifies this
      ensures var was := old(Value());
              var users := if was.users > 0 then was.users - 1 else 0;
              Value() == SetStage(
                if manager.Kimi? && users > 0 then was.(users := users)
                else KillServer(if manager.Kimi? then was.(users := users) else was), k, Settled(Stopped))
    {
      if manager.Kimi? {
        users := if users > 0 then users - 1 else 0;
        if users > 0 {
          Settle(k, Stopped);
          return;
        }
      }
      if proc.Some? { Kill(proc.value); }
      proc := None;
      current := None;
      Settle(k, Stopped);
    }

    method StartKimi(k: nat)
      requires k < |stages|
      modifies this
      ensures var was := old(Value());
              Value() == SetStage(was.(users := was.users + 1), k,
                           if was.proc.Some? && was.current.Some? then Settled(Url(was.current.value.url)) else Locating)
    {
      users := users + 1;
      if proc.Some? && current.Some? {
        Settle(k, Url(current.value.url));
      } else {
        stages := stages[k := Locating];
      }
    }

    method StartRerun(k: nat, recording: string)
      requires manager.Rerun? && k < |stages| && (proc.Some? ==> proc.value < |children|)
      modifies this
      ensures var was := old(Value());
              Value() ==
                if !manager.accepts(recording) then SetStage(was, k, Settled(Refused))
                else if was.proc.Some? && was.current.Some? && was.current.value.recording == recording then
                  SetStage(was, k, Settled(Url(was.current.value.url)))
                else SetStage(if was.proc.Some? then KillServer(was) else was, k, Locating)
    {
      if !manager.accepts(recording) {
        Settle(k, Refused);
      } else if proc.Some? && current.Some? && current.value.recording == recording {
        Settle(k, Url(current.value.url));
      } else {
        if proc.Some? {
          Kill(proc.value);
          proc := None;
          current := None;
        }
        stages := stages[k := Locating];
      }
    }

    /** The binary and the ports are known, or there is none: spawn or throw. */
    method Spawn(k: nat, found: bool)
      requires Inv(manager, Value()) && Possible(Value(), Located(k, found))
      modifies this
      ensures Value() == Step(manager, old(Value()), Located(k, found)) && Inv(manager, Value())
    {
      StepKeeps(manager, Value(), Located(k, found));
      if !found {
        Settle(k, Refused);
        return;
      }
      var child := |children|;
      children := children + [Child(false, false)];
      proc := Some(child);
      stages := stages[k := Booting(child)];
    }

    method BannerPrinted(k: nat, url: string)
      requires Inv(manager, Value()) && Possible(Value(), Banner(k, url))
      modifies this
      ensures Value() == Step(manager, old(Value()), Banner(k, url)) && Inv(manager, Value())
    {
      StepKeeps(manager, Value(), Banner(k, url));
      current := Some(Serving(if ops[k].Start? then ops[k].recording else "", url));
      Settle(k, Url(url));
    }

    method GiveUp(k: nat)
      requires k < |stages| && stages[k].Booting? && stages[k].child < |children|
      modifies this
      ensures Value() == FailStart(old(Value()), k)
    {
      var c := stages[k].child;
      Reset(c);
      Kill(c);
      Settle(k, Refused);
    }

    /** The deadline passed, or the child could not be started. */
    method StartFailed(k: nat)
      requires Inv(manager, Value()) && Possible(Value(), Fail(k))
      modifies this
      ensures Value() == Step(manager, old(Value()), Fail(k)) && Inv(manager, Value())
    {
      StepKeeps(manager, Value(), Fail(k));
      assert k == begun - 1;
      GiveUp(k);
    }

    /** A child is gone: forget it if it is the current one, and fail the start that waits for it. */
    method ChildExited(c: nat)
      requires Inv(manager, Value()) && Possible(Value(), Exit(c))
      modifies this
      ensures Value() == Step(manager, old(Value()), Exit(c)) && Inv(manager, Value())
    {
      StepKeeps(manager, Value(), Exit(c));
      BooterIsBooting(stages, c);
      hide BooterOf, Demand;
      children := children[c := children[c].(exited := true)];
      Reset(c);
      var booter := BooterOf(stages, c);
      if booter.Some? { GiveUp(booter.value); }
    }
  }
}
