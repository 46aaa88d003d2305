/** The desktop's hub relay: starting, superseding and stopping it while registrations are under way. */
module HubRelay {
  import opened Options

  datatype Context = Context(baseUrl: string, teamId: string, profileId: string)

  function Key(c: Context): string {
    c.baseUrl + "|" + c.teamId + "|" + c.profileId
  }

  /** The joined key tells contexts apart as long as no address and no team id holds the separator. */
  lemma KeyTellsApart(c: Context, d: Context)
    requires '|' !in c.baseUrl && '|' !in d.baseUrl && '|' !in c.teamId && '|' !in d.teamId
    ensures Key(c) == Key(d) <==> c == d
  {
    if Key(c) == Key(d) {
      var x, y := c.teamId + "|" + c.profileId, d.teamId + "|" + d.profileId;
      assert Key(c) == c.baseUrl + "|" + x && Key(d) == d.baseUrl + "|" + y;
      hide Key;
      BeforeTheBar(c.baseUrl, x, d.baseUrl, y, Key(c));
      BeforeTheBar(c.teamId, c.profileId, d.teamId, d.profileId, x);
    }
  }

  lemma BeforeTheBar(a: string, x: string, b: string, y: string, s: string)
    requires '|' !in a && '|' !in b && s == a + "|" + x && s == b + "|" + y
    ensures a == b && x == y
  {
    assert s[|a|] == '|' && s[|b|] == '|';
    assert forall i | 0 <= i < |a| :: s[i] == a[i] && a[i] != '|';
    assert forall i | 0 <= i < |b| :: s[i] == b[i] && b[i] != '|';
    assert a == s[..|a|] && b == s[..|b|] && x == s[|a| + 1..] && y == s[|b| + 1..];
  }

  /** Where a start waits: for the keychain, for the hub's answer, for the answer's body. */
  datatype Phase = Token | Reply(token: string) | Body(token: string) | Over

  datatype Start = Start(ctx: Context, gen: nat, phase: Phase)

  /** Where a relay's poll loop waits. */
  datatype Loop = Polling | Reading | Dispatching | Responding | Sleeping | Ended

  datatype Relay = Relay(
    ctx: Context, hostId: string, token: string, gen: nat, aborted: bool, beating: bool, loop: Loop, backoff: nat)

  /** The module's variables, with every start and relay there has been; `polls` logs, for each
      request to the tunnel, the relay that sent it. `server` is whether the loopback server is up. */
  datatype Bridge = Bridge(
    enabled: bool, remote: bool, context: Option<Context>, server: bool, opening: nat, closing: nat,
    relay: Option<nat>, gen: nat, starts: seq<Start>, relays: seq<Relay>, polls: seq<nat>)

  const IDLE := Bridge(false, false, None, false, 0, 0, None, 0, [], [], [])

  // ---- Stop, start, reconcile ----------------------------------------------------------------

  function Stop(b: Bridge): Bridge
    requires b.relay.Some? ==> b.relay.value < |b.relays|
  {
    var s := b.(gen := b.gen + 1, relay := None);
    if b.relay.Some? then
      var r := b.relays[b.relay.value];
      s.(relays := b.relays[b.relay.value := r.(beating := false, aborted := true)])
    else s
  }

  function Begin(b: Bridge, ctx: Context): Bridge {
    b.(gen := b.gen + 1, starts := b.starts + [Start(ctx, b.gen + 1, Token)])
  }

  function Want(b: Bridge): Option<Context> {
    if b.enabled && b.remote then b.context else None
  }

  function Sync(b: Bridge): Bridge
    requires b.relay.Some? ==> b.relay.value < |b.relays|
  {
    var want := Want(b);
    if want.Some? && b.relay.Some? && Key(b.relays[b.relay.value].ctx) == Key(want.value) then b
    else if want.Some? then Begin(Stop(b), want.value)
    else Stop(b)
  }

  /** A registered start becomes the relay, and its loop sends the first poll. */
  function Install(b: Bridge, i: nat, hostId: string): Bridge
    requires i < |b.starts| && b.starts[i].phase.Body?
  {
    var s := b.starts[i];
    b.(starts := b.starts[i := s.(phase := Over)],
       relays := b.relays + [Relay(s.ctx, hostId, s.phase.token, s.gen, false, true, Polling, 1000)],
       relay := Some(|b.relays|), polls := b.polls + [|b.relays|])
  }

  // ---- The steps -------------------------------------------------------------------------------

  datatype Control =
    | SetEnabled(next: bool)
    | ServerUp(discoveryWritten: bool)
    | ServerFailed
    | ServerClosed(ok: bool)
    | SetRemote(on: bool)
    | SetContext(ctx: Option<Context>)
    | Dispose

  /** The answers a start waits for: the bearer, the hub's status, the registered id. */
  datatype StartNews = TokenRead(token: Option<string>) | Registered(ok: bool) | BodyRead(id: Option<string>)

  datatype Polled = Nothing | Answer | Failed

  datatype LoopNews = PollReturned(polled: Polled) | EnvelopeRead(reqId: Option<string>) | Dispatched | Responded | Awake

  datatype Event = User(c: Control) | OfStart(i: nat, s: StartNews) | OfLoop(j: nat, l: LoopNews)

  predicate ControlPossible(b: Bridge, c: Control) {
    && (c.ServerUp? || c.ServerFailed? ==> b.opening > 0)
    && (c.ServerClosed? ==> b.closing > 0)
  }

  predicate StartPossible(b: Bridge, i: nat, n: StartNews) {
    && i < |b.starts|
    && match n
       case TokenRead(_) => b.starts[i].phase.Token?
       case Registered(_) => b.starts[i].phase.Reply?
       case BodyRead(_) => b.starts[i].phase.Body?
  }

  predicate LoopPossible(b: Bridge, j: nat, n: LoopNews) {
    && j < |b.relays|
    && b.relays[j].loop ==
       match n
       case PollReturned(_) => Polling
       case EnvelopeRead(_) => Reading
       case Dispatched => Dispatching
       case Responded => Responding
       case Awake => Sleeping
  }

  /** What can happen: a wait ends only if something waits there. */
  predicate Possible(b: Bridge, e: Event) {
    match e
    case User(c) => ControlPossible(b, c)
    case OfStart(i, n) => StartPossible(b, i, n)
    case OfLoop(j, n) => LoopPossible(b, j, n)
  }

  function SetLoop(b: Bridge, j: nat, loop: Loop, backoff: nat): Bridge
    requires j < |b.relays|
  {
    b.(relays := b.relays[j := b.relays[j].(loop := loop, backoff := backoff)])
  }

  /** The top of the loop: poll again unless aborted. */
  function Next(b: Bridge, j: nat, backoff: nat): Bridge
    requires j < |b.relays|
  {
    if b.relays[j].aborted then SetLoop(b, j, Ended, backoff)
    else SetLoop(b, j, Polling, backoff).(polls := b.polls + [j])
  }

  function SetPhase(b: Bridge, i: nat, phase: Phase): Bridge
    requires i < |b.starts|
  {
    b.(starts := b.starts[i := b.starts[i].(phase := phase)])
  }

  function StepStart(b: Bridge, i: nat, n: StartNews): Bridge
    requires StartPossible(b, i, n)
  {
    var s := b.starts[i];
    match n
    case TokenRead(token) =>
      SetPhase(b, i, if s.gen != b.gen || token.GetOr("") == "" then Over else Reply(token.value))
    case Registered(ok) => SetPhase(b, i, if ok then Body(s.phase.token) else Over)
    case BodyRead(id) => if id.GetOr("") == "" || s.gen != b.gen then SetPhase(b, i, Over) else Install(b, i, id.value)
  }

  function Min(a: nat, b: nat): nat {
    if a < b then a else b
  }

  function StepLoop(b: Bridge, j: nat, n: LoopNews): Bridge
    requires LoopPossible(b, j, n)
  {
    var r := b.relays[j];
    match n
    case PollReturned(polled) =>
      if r.aborted then SetLoop(b, j, Ended, r.backoff)
      else if polled == Nothing then Next(b, j, 1000)
      else SetLoop(b, j, if polled == Answer then Reading else Sleeping, r.backoff)
    case EnvelopeRead(reqId) =>
      if reqId.None? then SetLoop(b, j, if r.aborted then Ended else Sleeping, r.backoff)
      else if reqId.value == "" then Next(b, j, 1000)
      else SetLoop(b, j, Dispatching, 1000)
    case Dispatched => SetLoop(b, j, Responding, r.backoff)
    case Responded => Next(b, j, r.backoff)
    case Awake => Next(b, j, Min(r.backoff * 2, 15000))
  }

  function StepControl(b: Bridge, c: Control): Bridge
    requires ControlPossible(b, c) && (b.relay.Some? ==> b.relay.value < |b.relays|)
  {
    match c
    case SetEnabled(next) =>
      if next then b.(enabled := true, opening := if b.server then b.opening else b.opening + 1)
      else Stop(b.(enabled := false, server := false, closing := if b.server then b.closing + 1 else b.closing))
    case ServerUp(written) =>
      var up := b.(opening := b.opening - 1, server := true);
      if written then Sync(up) else up.(enabled := true)
    case ServerFailed => b.(opening := b.opening - 1, enabled := b.server)
    case ServerClosed(ok) => b.(closing := b.closing - 1, enabled := if ok then b.enabled else b.server)
    case SetRemote(on) => Sync(b.(remote := on))
    case SetContext(ctx) => Sync(b.(context := ctx))
    case Dispose => Stop(b.(enabled := false, server := false))
  }

  function Step(b: Bridge, e: Event): Bridge
    requires Possible(b, e) && (b.relay.Some? ==> b.relay.value < |b.relays|)
  {
    match e
    case User(c) => StepControl(b, c)
    case OfStart(i, n) => StepStart(b, i, n)
    case OfLoop(j, n) => StepLoop(b, j, n)
  }

  // ---- The invariant ------------------------------------------------------------------------------

  /** The start that has not been superseded, still under way. */
  predicate Newest(b: Bridge, s: Start) {
    s.phase != Over && s.gen == b.gen
  }

  /** A context the user has consented to relay for. */
  predicate Fits(b: Bridge, ctx: Context) {
    b.remote && b.context.Some? && Key(b.context.value) == Key(ctx)
  }

  predicate RelayOk(b: Bridge) {
    b.relay.Some? ==>
      && b.relay.value < |b.relays|
      && b.relays[b.relay.value].gen == b.gen
      && Fits(b, b.relays[b.relay.value].ctx)
  }

  /** Heartbeat and loop belong to the installed relay alone. */
  predicate OneAlive(b: Bridge) {
    forall j | 0 <= j < |b.relays| ::
      && b.relays[j].gen <= b.gen && 1000 <= b.relays[j].backoff <= 15000
      && (b.relays[j].beating <==> b.relay == Some(j)) && (b.relays[j].aborted <==> b.relay != Some(j))
  }

  predicate StartsOk(b: Bridge) {
    && (forall i, k | 0 <= i < k < |b.starts| :: b.starts[i].gen < b.starts[k].gen)
    && forall i | 0 <= i < |b.starts| ::
         b.starts[i].gen <= b.gen && (Newest(b, b.starts[i]) ==> b.relay == None && Fits(b, b.starts[i].ctx))
  }

  predicate Inv(b: Bridge) {
    RelayOk(b) && OneAlive(b) && StartsOk(b)
  }

  lemma StopKeeps(b: Bridge, before: Bridge)
    requires Inv(before) && b == before.(enabled := b.enabled, remote := b.remote, context := b.context, server := b.server, closing := b.closing, opening := b.opening)
    ensures Inv(Stop(b)) && Stop(b).gen == b.gen + 1 && Stop(b).relay == None && |Stop(b).relays| == |b.relays|
    ensures Stop(b) == b.(gen := b.gen + 1, relay := None, relays := Stop(b).relays)
  {
    hide Key;
  }

  lemma BeginKeeps(b: Bridge)
    requires Inv(b) && b.relay == None && Want(b).Some? && b.gen > 0 && forall i | 0 <= i < |b.starts| :: b.starts[i].gen < b.gen
    ensures Inv(Begin(b, Want(b).value))
  {
    hide Key;
  }

  lemma SyncKeeps(b: Bridge, before: Bridge)
    requires Inv(before) && b == before.(enabled := b.enabled, remote := b.remote, context := b.context, server := b.server, closing := b.closing, opening := b.opening)
    ensures Inv(Sync(b)) && Sync(b).gen >= b.gen
  {
    StopKeeps(b, before);
    var stopped := Stop(b);
    hide Key, Stop, OneAlive;
    if Want(b).Some? {
      if b.relay.Some? && Key(b.relays[b.relay.value].ctx) == Key(Want(b).value) {
        assert OneAlive(b) by { SameRelays(b, before); }
      } else {
        BeginKeeps(stopped);
      }
    }
  }

  lemma SameRelays(b: Bridge, before: Bridge)
    requires OneAlive(before) && b.relays == before.relays && b.relay == before.relay && b.gen == before.gen
    ensures OneAlive(b)
  {
  }

  lemma SetPhaseKeeps(b: Bridge, i: nat, phase: Phase)
    requires Inv(b) && i < |b.starts| && b.starts[i].phase != Over
    ensures Inv(SetPhase(b, i, phase))
  {
    hide Key, OneAlive;
    assert OneAlive(SetPhase(b, i, phase)) by { SameRelays(SetPhase(b, i, phase), b); }
  }

  /** Only the newest start installs, so nothing it installs over is still alive. */
  lemma InstallKeeps(b: Bridge, i: nat, hostId: string)
    requires Inv(b) && i < |b.starts| && b.starts[i].phase.Body? && b.starts[i].gen == b.gen
    ensures Inv(Install(b, i, hostId))
  {
    hide Key;
    assert Newest(b, b.starts[i]);
  }

  lemma SetLoopKeeps(b: Bridge, j: nat, loop: Loop, backoff: nat)
    requires Inv(b) && j < |b.relays| && 1000 <= backoff <= 15000
    ensures Inv(SetLoop(b, j, loop, backoff)) && Inv(Next(b, j, backoff))
  {
    hide Key;
  }

  lemma StepKeeps(b: Bridge, e: Event)
    requires Inv(b) && Possible(b, e)
    ensures Inv(Step(b, e)) && Step(b, e).gen >= b.gen
  {
    hide Key, Fits, OneAlive, StartsOk;
    match e
    case User(c) => ControlKeeps(b, c);
    case OfStart(i, n) =>
      SetPhaseKeeps(b, i, Over);
      match n {
        case TokenRead(token) => SetPhaseKeeps(b, i, Reply(token.GetOr("")));
        case Registered(_) => SetPhaseKeeps(b, i, Body(b.starts[i].phase.token));
        case BodyRead(id) => if b.starts[i].gen == b.gen { InstallKeeps(b, i, id.GetOr("")); }
      }
    case OfLoop(j, n) => LoopKeeps(b, j, n);
  }

  lemma LoopKeeps(b: Bridge, j: nat, n: LoopNews)
    requires Inv(b) && LoopPossible(b, j, n)
    ensures Inv(StepLoop(b, j, n)) && StepLoop(b, j, n).gen == b.gen
  {
    var r := b.relays[j];
    assert 1000 <= r.backoff <= 15000;
    hide Inv, SetLoop;
    forall loop, backoff: nat | 1000 <= backoff <= 15000
      ensures Inv(SetLoop(b, j, loop, backoff)) && Inv(Next(b, j, backoff))
    {
      SetLoopKeeps(b, j, loop, backoff);
    }
    assert StepLoop(b, j, n).gen == b.gen by { LoopLeavesGen(b, j, n); }
  }

  lemma LoopLeavesGen(b: Bridge, j: nat, n: LoopNews)
    requires LoopPossible(b, j, n)
    ensures StepLoop(b, j, n).gen == b.gen
  {
  }

  /** Neither the toggle nor the loopback server is part of the relay's invariant. */
  lemma FlagsKeep(b: Bridge, before: Bridge)
    requires Inv(before) && b == before.(enabled := b.enabled, server := b.server, opening := b.opening, closing := b.closing)
    ensures Inv(b)
  {
    hide Key;
  }

  lemma ControlKeeps(b: Bridge, c: Control)
    requires Inv(b) && ControlPossible(b, c)
    ensures Inv(StepControl(b, c)) && StepControl(b, c).gen >= b.gen
  {
    hide Key, Sync, Stop, OneAlive, StartsOk, Fits;
    match c
    case SetEnabled(next) =>
      if next {
        FlagsKeep(StepControl(b, c), b);
      } else {
        StopKeeps(b.(enabled := false, server := false, closing := if b.server then b.closing + 1 else b.closing), b);
      }
    case ServerUp(written) =>
      SyncKeeps(b.(opening := b.opening - 1, server := true), b);
      if !written { FlagsKeep(StepControl(b, c), b); }
    case ServerFailed => FlagsKeep(StepControl(b, c), b);
    case ServerClosed(_) => FlagsKeep(StepControl(b, c), b);
    case SetRemote(on) => SyncKeeps(b.(remote := on), b);
    case SetContext(ctx) => SyncKeeps(b.(context := ctx), b);
    case Dispose => StopKeeps(b.(enabled := false, server := false), b);
  }

  // ---- Whole runs -----------------------------------------------------------------------------------

  ghost predicate Runs(b: Bridge, events: seq<Event>)
    requires Inv(b)
    decreases |events|
  {
    events == [] || (Possible(b, events[0]) && (StepKeeps(b, events[0]); Runs(Step(b, events[0]), events[1..])))
  }

  ghost function Run(b: Bridge, events: seq<Event>): (r: Bridge)
    requires Inv(b) && Runs(b, events)
    ensures Inv(r) && r.gen >= b.gen
    decreases |events|
  {
    if events == [] then b
    else
      StepKeeps(b, events[0]);
      Run(Step(b, events[0]), events[1..])
  }

  /** At most one relay is alive, it beats and is not aborted, it comes from the newest
      generation, and it relays for the context and under the consent of the moment. */
  lemma OneRelayAlive(events: seq<Event>)
    requires Inv(IDLE) && Runs(IDLE, events)
    ensures var b := Run(IDLE, events);
            && (forall j, k | 0 <= j < |b.relays| && 0 <= k < |b.relays| && !b.relays[j].aborted && b.relays[k].beating :: j == k)
            && (forall j | 0 <= j < |b.relays| && !b.relays[j].aborted :: b.relay == Some(j) && b.relays[j].gen == b.gen && Fits(b, b.relays[j].ctx))
  {
    var b := Run(IDLE, events);
    assert RelayOk(b) && OneAlive(b);
  }

  /** What one step can add: a relay of the newest generation, and a poll by the installed relay. */
  lemma StepAdds(b: Bridge, e: Event)
    requires Inv(b) && Possible(b, e)
    ensures var n := Step(b, e);
            && |n.relays| >= |b.relays| && |n.polls| >= |b.polls|
            && n.polls[..|b.polls|] == b.polls
            && (forall j | 0 <= j < |b.relays| :: n.relays[j].gen == b.relays[j].gen)
            && (forall j | |b.relays| <= j < |n.relays| :: n.relays[j].gen == b.gen == n.gen)
            && (forall k | |b.polls| <= k < |n.polls| :: n.relay == Some(n.polls[k]))
  {
    hide Key, Fits;
    if e.User? { ControlAddsNothing(b, e.c); } else if e.OfLoop? { LoopAddsAPoll(b, e.j, e.l); }
  }

  /** No relay more, no poll more. */
  predicate AddsNothing(b: Bridge, n: Bridge) {
    n.polls == b.polls && |n.relays| == |b.relays| && forall j | 0 <= j < |b.relays| :: n.relays[j].gen == b.relays[j].gen
  }

  lemma SyncAddsNothing(b: Bridge)
    requires b.relay.Some? ==> b.relay.value < |b.relays|
    ensures AddsNothing(b, Stop(b)) && AddsNothing(b, Sync(b))
  {
    hide Key;
    assert AddsNothing(b, Stop(b));
    hide Stop;
  }

  lemma ControlAddsNothing(b: Bridge, c: Control)
    requires Inv(b) && ControlPossible(b, c)
    ensures AddsNothing(b, StepControl(b, c))
  {
    assert RelayOk(b);
    hide Inv, Key, Stop, Sync;
    match c
    case SetEnabled(next) =>
      if !next { SyncAddsNothing(b.(enabled := false, server := false, closing := if b.server then b.closing + 1 else b.closing)); }
    case ServerUp(_) => SyncAddsNothing(b.(opening := b.opening - 1, server := true));
    case ServerFailed =>
    case ServerClosed(_) =>
    case SetRemote(on) => SyncAddsNothing(b.(remote := on));
    case SetContext(ctx) => SyncAddsNothing(b.(context := ctx));
    case Dispose => SyncAddsNothing(b.(enabled := false, server := false));
  }

  /** No relay more, and a poll at most, by the installed relay. */
  predicate AddsAPoll(b: Bridge, r: Bridge, j: nat) {
    && r.gen == b.gen && r.relay == b.relay && |r.relays| == |b.relays|
    && (forall k | 0 <= k < |b.relays| :: r.relays[k].gen == b.relays[k].gen)
    && (r.polls == b.polls || (r.polls == b.polls + [j] && r.relay == Some(j)))
  }

  lemma NextAddsAPoll(b: Bridge, j: nat, loop: Loop, backoff: nat)
    requires Inv(b) && j < |b.relays|
    ensures AddsAPoll(b, SetLoop(b, j, loop, backoff), j) && AddsAPoll(b, Next(b, j, backoff), j)
  {
    hide Key, Fits, StartsOk;
    assert b.relays[j].aborted <==> b.relay != Some(j);
    hide OneAlive;
  }

  lemma LoopAddsAPoll(b: Bridge, j: nat, n: LoopNews)
    requires Inv(b) && LoopPossible(b, j, n)
    ensures AddsAPoll(b, StepLoop(b, j, n), j)
  {
    hide Inv, SetLoop, Next, AddsAPoll;
    forall loop, backoff: nat
      ensures AddsAPoll(b, SetLoop(b, j, loop, backoff), j)
    {
      NextAddsAPoll(b, j, loop, backoff);
    }
    forall backoff: nat
      ensures AddsAPoll(b, Next(b, j, backoff), j)
    {
      NextAddsAPoll(b, j, Ended, backoff);
    }
  }

  /** A start that has been superseded never becomes a relay, whatever happens later: every
      relay installed from now on is of this generation or a newer one. */
  lemma {:induction false} SupersededNeverInstalls(b: Bridge, events: seq<Event>)
    requires Inv(b) && Runs(b, events)
    ensures var r := Run(b, events);
            && |r.relays| >= |b.relays|
            && (forall j | 0 <= j < |b.relays| :: r.relays[j].gen == b.relays[j].gen)
            && (forall j | |b.relays| <= j < |r.relays| :: r.relays[j].gen >= b.gen)
    decreases |events|
  {
    hide OneAlive, StartsOk, Fits, Step, Possible;
    if events != [] {
      StepKeeps(b, events[0]);
      StepAdds(b, events[0]);
      SupersededNeverInstalls(Step(b, events[0]), events[1..]);
    }
  }

  /** Who was installed when each poll was sent. */
  ghost predicate PolledByInstalled(b: Bridge, events: seq<Event>)
    requires Inv(b) && Runs(b, events)
    decreases |events|
  {
    events == [] ||
    (StepKeeps(b, events[0]);
     var n := Step(b, events[0]);
     (forall k | |b.polls| <= k < |n.polls| :: n.relay == Some(n.polls[k])) && PolledByInstalled(n, events[1..]))
  }

  /** A relay that was stopped sends no further poll: every poll is the installed relay's own. */
  lemma {:induction false} StoppedRelaysAreSilent(b: Bridge, events: seq<Event>)
    requires Inv(b) && Runs(b, events)
    ensures PolledByInstalled(b, events)
    decreases |events|
  {
    hide OneAlive, StartsOk, Fits, Step, Possible;
    if events != [] {
      StepKeeps(b, events[0]);
      StepAdds(b, events[0]);
      StoppedRelaysAreSilent(Step(b, events[0]), events[1..]);
    }
  }

  // ---- The local consent --------------------------------------------------------------------------

  /** A relay is up or a start that may become one is under way. */
  predicate Driving(b: Bridge) {
    b.relay.Some? || exists i | 0 <= i < |b.starts| :: Newest(b, b.starts[i])
  }

  predicate Consented(b: Bridge) {
    Driving(b) ==> b.enabled
  }

  /** The roll-back of a failed toggle, which clears the flag without a reconcile. */
  predicate RollsBack(b: Bridge, e: Event) {
    e.User? && (e.c.ServerFailed? || e.c == ServerClosed(false)) && !b.server
  }

  lemma StopEndsDriving(b: Bridge)
    requires b.relay.Some? ==> b.relay.value < |b.relays|
    requires forall i | 0 <= i < |b.starts| :: b.starts[i].gen <= b.gen
    ensures !Driving(Stop(b)) && Stop(b).enabled == b.enabled
  {
  }

  lemma SyncConsents(b: Bridge)
    requires b.relay.Some? ==> b.relay.value < |b.relays|
    requires forall i | 0 <= i < |b.starts| :: b.starts[i].gen <= b.gen
    ensures Consented(Sync(b))
  {
    hide Key, Stop;
    StopEndsDriving(b);
  }

  lemma SettledStaysConsented(b: Bridge, e: Event)
    requires Inv(b) && Possible(b, e) && Consented(b) && !e.User?
    ensures Consented(Step(b, e))
  {
    hide Fits, OneAlive, Key;
    var n := Step(b, e);
    if e.OfLoop? { LoopLeavesTheRest(b, e.j, e.l); } else {
      assert e.s.BodyRead? || e.s.TokenRead? || e.s.Registered?;
      assert n.gen == b.gen && n.enabled == b.enabled && |n.starts| == |b.starts|;
      forall k | 0 <= k < |n.starts| && Newest(n, n.starts[k])
        ensures Newest(b, b.starts[k])
      {
        assert k != e.i ==> n.starts[k] == b.starts[k];
      }
      assert n.relay != b.relay ==> Newest(b, b.starts[e.i]);
    }
  }

  lemma LoopLeavesTheRest(b: Bridge, j: nat, n: LoopNews)
    requires LoopPossible(b, j, n)
    ensures var r := StepLoop(b, j, n); r.relay == b.relay && r.starts == b.starts && r.gen == b.gen && r.enabled == b.enabled
  {
  }

  /** While the toggle is off nothing relays, and this survives a step exactly unless a failed
      toggle is rolled back with a relay or a start on its way. */
  lemma ConsentKeptExactly(b: Bridge, e: Event)
    requires Inv(b) && Possible(b, e) && Consented(b)
    ensures Consented(Step(b, e)) <==> !(RollsBack(b, e) && Driving(b))
  {
    if e.User? {
      hide Key, Fits, OneAlive, Sync, Stop;
      var c := e.c;
      match c
      case SetEnabled(next) =>
        StopEndsDriving(b.(enabled := false, server := false, closing := if b.server then b.closing + 1 else b.closing));
      case ServerUp(_) => SyncConsents(b.(opening := b.opening - 1, server := true));
      case ServerFailed =>
      case ServerClosed(_) =>
      case SetRemote(on) => SyncConsents(b.(remote := on));
      case SetContext(ctx) => SyncConsents(b.(context := ctx));
      case Dispose => StopEndsDriving(b.(enabled := false, server := false));
    } else {
      SettledStaysConsented(b, e);
    }
  }

  // ---- What brings a relay up ----------------------------------------------------------------------

  predicate Same(c: Context, d: Context) {
    Key(c) == Key(d)
  }

  /** The installed relay is alive and relays for the context. */
  predicate RelaysFor(b: Bridge, ctx: Context) {
    && b.relay.Some? && b.relay.value < |b.relays| && Same(b.relays[b.relay.value].ctx, ctx)
    && b.relays[b.relay.value].beating && !b.relays[b.relay.value].aborted
  }

  /** The newest start, still under way, registers for the context. */
  predicate StartsFor(b: Bridge, ctx: Context) {
    exists i | 0 <= i < |b.starts| :: Newest(b, b.starts[i]) && Same(b.starts[i].ctx, ctx)
  }

  /** The server came up, or the user switched remote driving or the hub context. */
  predicate Reconciles(e: Event) {
    e.User? && (e.c == ServerUp(true) || e.c.SetRemote? || e.c.SetContext?)
  }

  lemma StopSilences(b: Bridge)
    requires OneAlive(b) && (b.relay.Some? ==> b.relay.value < |b.relays|)
    ensures forall j | 0 <= j < |Stop(b).relays| :: Stop(b).relays[j].aborted && !Stop(b).relays[j].beating
  {
  }

  lemma SyncDrives(b: Bridge)
    requires OneAlive(b) && (b.relay.Some? ==> b.relay.value < |b.relays|)
    requires forall i | 0 <= i < |b.starts| :: b.starts[i].gen <= b.gen
    ensures var n := Sync(b);
            && n == b.(gen := n.gen, relay := n.relay, starts := n.starts, relays := n.relays)
            && (if b.enabled && b.remote && b.context.Some?
                then if RelaysFor(b, b.context.value) then n == b else StartsFor(n, b.context.value)
                else !Driving(n))
  {
    hide Key;
    assert b.relay.Some? ==> b.relays[b.relay.value].beating && !b.relays[b.relay.value].aborted;
    StopEndsDriving(b);
    hide Stop, OneAlive, Driving;
    assert Stop(b) == b.(gen := Stop(b).gen, relay := None, relays := Stop(b).relays) by { StopLeavesTheRest(b); }
    if Want(b).Some? && !RelaysFor(b, b.context.value) {
      var n := Sync(b);
      assert n.starts[|n.starts| - 1] == Start(b.context.value, n.gen, Token);
      assert Newest(n, n.starts[|n.starts| - 1]);
    }
  }

  lemma StopLeavesTheRest(b: Bridge)
    requires b.relay.Some? ==> b.relay.value < |b.relays|
    ensures Stop(b) == b.(gen := Stop(b).gen, relay := None, relays := Stop(b).relays)
  {
  }

  /** From `b` to `n` the switches are set as `e` says, and what the user wants then is what happens:
      with the bridge on, remote driving on and a hub context, the relay that already relays for this
      context stays as it is, and otherwise the newest start registers for it; with any of the three
      missing neither a relay nor a start that could become one is left. */
  predicate DrivesAsWanted(b: Bridge, e: Event, n: Bridge)
    requires Reconciles(e)
  {
    && n.enabled == b.enabled
    && n.server == (b.server || e.c.ServerUp?)
    && n.remote == (if e.c.SetRemote? then e.c.on else b.remote)
    && n.context == (if e.c.SetContext? then e.c.ctx else b.context)
    && if n.enabled && n.remote && n.context.Some?
       then if RelaysFor(b, n.context.value) then n.relay == b.relay && n.relays == b.relays && n.starts == b.starts
            else StartsFor(n, n.context.value)
       else !Driving(n)
  }

  /** When the server is up or a switch is turned, the relay follows what the user wants. */
  lemma WantedIsDriven(b: Bridge, e: Event)
    requires Inv(b) && Possible(b, e) && Reconciles(e)
    ensures DrivesAsWanted(b, e, Step(b, e))
  {
    var m := match e.c
      case ServerUp(_) => b.(opening := b.opening - 1, server := true)
      case SetRemote(on) => b.(remote := on)
      case SetContext(ctx) => b.(context := ctx)
      case _ => b;
    assert Step(b, e) == Sync(m);
    assert OneAlive(m) by { SameRelays(m, b); }
    hide OneAlive, Key, Sync, Driving;
    SyncDrives(m);
    hide StartsFor;
  }

  /** Switching the bridge off, or quitting, leaves no relay alive and no start that could become one. */
  lemma OffIsSilent(b: Bridge, c: Control)
    requires Inv(b) && (c == SetEnabled(false) || c == Dispose)
    ensures var n := StepControl(b, c);
            && !n.enabled && !n.server && !Driving(n)
            && (forall j | 0 <= j < |n.relays| :: n.relays[j].aborted && !n.relays[j].beating)
  {
    var m := b.(enabled := false, server := false, closing := if c.SetEnabled? && b.server then b.closing + 1 else b.closing);
    assert StepControl(b, c) == Stop(m);
    SameRelays(m, b);
    StopSilences(m);
    StopEndsDriving(m);
  }

  /** A toggle that fails leaves the switch where the server is, and one that succeeds where the user
      put it; nothing else of the bridge moves. */
  lemma FailedToggleFollowsTheServer(b: Bridge, c: Control)
    requires Inv(b) && ControlPossible(b, c) && (c.ServerFailed? || c.ServerClosed? || c == ServerUp(false) || c == SetEnabled(true))
    ensures var n := StepControl(b, c);
            && n == b.(enabled := n.enabled, server := n.server, opening := n.opening, closing := n.closing)
            && n.server == (b.server || c.ServerUp?)
            && n.enabled == (if c.SetEnabled? then true else if c == ServerClosed(true) then b.enabled else n.server)
            && n.opening == (if c.SetEnabled? && !b.server then b.opening + 1 else if c.ServerUp? || c.ServerFailed? then b.opening - 1 else b.opening)
            && n.closing == (if c.ServerClosed? then b.closing - 1 else b.closing)
  {
    hide Inv;
  }

  /** The newest start, answered with a bearer, a good status and an id, becomes the relay of its
      context, with that bearer and that id, beating and at its first poll. */
  lemma AnsweredStartInstalls(b: Bridge, i: nat, token: string, id: string)
    requires Inv(b) && i < |b.starts| && b.starts[i].phase.Token? && b.starts[i].gen == b.gen && token != "" && id != ""
    ensures var b1 := Step(b, OfStart(i, TokenRead(Some(token))));
            && StartPossible(b1, i, Registered(true))
            && var b2 := StepStart(b1, i, Registered(true));
            && StartPossible(b2, i, BodyRead(Some(id)))
            && var n := StepStart(b2, i, BodyRead(Some(id)));
            && n == b.(starts := b.starts[i := b.starts[i].(phase := Over)], relay := Some(|b.relays|),
                       relays := b.relays + [Relay(b.starts[i].ctx, id, token, b.gen, false, true, Polling, 1000)],
                       polls := b.polls + [|b.relays|])
  {
    hide OneAlive, StartsOk, Fits;
    var b1 := Step(b, OfStart(i, TokenRead(Some(token))));
    var b2 := StepStart(b1, i, Registered(true));
    assert b2.starts == b.starts[i := b.starts[i].(phase := Body(token))];
  }

  /** A start that is superseded while it waits for the bearer or the registered id, or gets no
      bearer, a bad status or no id, ends and leaves the relay and everything else as it was. */
  lemma FailedStartEnds(b: Bridge, i: nat, n: StartNews)
    requires Inv(b) && StartPossible(b, i, n)
    requires match n
             case TokenRead(token) => token.GetOr("") == "" || b.starts[i].gen < b.gen
             case Registered(ok) => !ok
             case BodyRead(id) => id.GetOr("") == "" || b.starts[i].gen < b.gen
    ensures Step(b, OfStart(i, n)) == b.(starts := b.starts[i := b.starts[i].(phase := Over)])
  {
  }

  // ---- The poll loop -----------------------------------------------------------------------------------

  predicate Waits(b: Bridge, j: nat) {
    j < |b.relays| && b.relays[j].loop.Polling? && !b.relays[j].aborted
  }

  /** A poll that fails: the loop sleeps for its backoff, doubles it up to 15 s and polls again. */
  lemma FailedRound(b: Bridge, j: nat)
    requires Waits(b, j)
    ensures var m := StepLoop(b, j, PollReturned(Failed));
            && m == b.(relays := b.relays[j := b.relays[j].(loop := Sleeping)]) && LoopPossible(m, j, Awake)
            && StepLoop(m, j, Awake) ==
               b.(relays := b.relays[j := b.relays[j].(backoff := Min(b.relays[j].backoff * 2, 15000))], polls := b.polls + [j])
  {
  }

  /** A poll answered with an envelope: it is dispatched and answered, and the loop polls again with
      the backoff reset. */
  lemma AnsweredRound(b: Bridge, j: nat, reqId: string)
    requires Waits(b, j) && reqId != ""
    ensures var b1 := StepLoop(b, j, PollReturned(Answer));
            && LoopPossible(b1, j, EnvelopeRead(Some(reqId)))
            && var b2 := StepLoop(b1, j, EnvelopeRead(Some(reqId)));
            && LoopPossible(b2, j, Dispatched)
            && var b3 := StepLoop(b2, j, Dispatched);
            && LoopPossible(b3, j, Responded)
            && StepLoop(b3, j, Responded) == PolledAgain(b, j)
  {
    var r := b.relays[j];
    var b1 := StepLoop(b, j, PollReturned(Answer));
    var b2 := StepLoop(b1, j, EnvelopeRead(Some(reqId)));
    assert b2 == b.(relays := b.relays[j := r.(loop := Dispatching, backoff := 1000)]);
    var b3 := StepLoop(b2, j, Dispatched);
    assert b3 == b.(relays := b.relays[j := r.(loop := Responding, backoff := 1000)]);
  }

  /** The next poll is under way, with the backoff reset. */
  function PolledAgain(b: Bridge, j: nat): Bridge
    requires j < |b.relays|
  {
    b.(relays := b.relays[j := b.relays[j].(backoff := 1000)], polls := b.polls + [j])
  }

  /** No news, or an envelope nobody could answer: the loop polls again at once. */
  lemma EmptyRound(b: Bridge, j: nat)
    requires Waits(b, j)
    ensures StepLoop(b, j, PollReturned(Nothing)) == PolledAgain(b, j)
    ensures var m := StepLoop(b, j, PollReturned(Answer));
            LoopPossible(m, j, EnvelopeRead(Some(""))) && StepLoop(m, j, EnvelopeRead(Some(""))) == PolledAgain(b, j)
  {
  }

  function Doubled(n: nat, k: nat): (r: nat)
    ensures r >= n
    decreases k
  {
    if k == 0 then n else Doubled(2 * n, k - 1)
  }

  /** `k` failed polls in a row. */
  ghost function Failing(b: Bridge, j: nat, k: nat): (r: Bridge)
    requires Waits(b, j)
    ensures Waits(r, j)
    decreases k
  {
    if k == 0 then b
    else
      FailedRound(b, j);
      Failing(StepLoop(StepLoop(b, j, PollReturned(Failed)), j, Awake), j, k - 1)
  }

  /** After `k` failed polls in a row the next wait is 2^k times the first, at most 15 s, and `k` more
      polls have been sent; no other relay has moved. */
  lemma {:induction false} BackoffDoubles(b: Bridge, j: nat, k: nat)
    requires Waits(b, j) && b.relays[j].backoff <= 15000
    ensures var r := Failing(b, j, k);
            && |r.relays| == |b.relays| && r.relays[j].backoff == Min(Doubled(b.relays[j].backoff, k), 15000)
            && |r.polls| == |b.polls| + k
            && (forall i | 0 <= i < |b.relays| && i != j :: r.relays[i] == b.relays[i])
    decreases k
  {
    hide StepLoop;
    if k > 0 {
      FailedRound(b, j);
      BackoffDoubles(StepLoop(StepLoop(b, j, PollReturned(Failed)), j, Awake), j, k - 1);
    }
  }

  /** A bad start: the context arrives while the loopback server is still starting, the relay
      is installed, and then the server fails to start. */
  function BadStart(ctx: Context): seq<Event> {
    [User(SetRemote(true)), User(SetEnabled(true)), User(SetContext(Some(ctx))),
     OfStart(0, TokenRead(Some("t"))), OfStart(0, Registered(true)), OfStart(0, BodyRead(Some("h"))), User(ServerFailed)]
  }

  function Scene(ctx: Context, starts: seq<Start>, up: bool, on: bool): Bridge {
    Bridge(on, true, Some(ctx), false, if on then 1 else 0, 0, if up then Some(0) else None, 3, starts,
           if up then [Relay(ctx, "h", "t", 3, false, true, Polling, 1000)] else [], if up then [0] else [])
  }

  function Scenes(ctx: Context): seq<Bridge> {
    var first := IDLE.(remote := true, gen := 1);
    [IDLE, first, first.(enabled := true, opening := 1),
     Scene(ctx, [Start(ctx, 3, Token)], false, true), Scene(ctx, [Start(ctx, 3, Reply("t"))], false, true),
     Scene(ctx, [Start(ctx, 3, Body("t"))], false, true), Scene(ctx, [Start(ctx, 3, Over)], true, true),
     Scene(ctx, [Start(ctx, 3, Over)], true, false)]
  }

  lemma EarlyScenes(ctx: Context, i: nat)
    requires i < 3
    ensures Inv(Scenes(ctx)[i]) && Possible(Scenes(ctx)[i], BadStart(ctx)[i]) && Step(Scenes(ctx)[i], BadStart(ctx)[i]) == Scenes(ctx)[i + 1]
  {
    hide Key;
  }

  lemma LateScenes(ctx: Context, i: nat)
    requires 3 <= i < 7
    ensures Inv(Scenes(ctx)[i]) && Possible(Scenes(ctx)[i], BadStart(ctx)[i]) && Step(Scenes(ctx)[i], BadStart(ctx)[i]) == Scenes(ctx)[i + 1]
  {
    hide Key;
  }

  /** The failing family is reachable. */
  lemma FailedStartLeavesTheRelay(ctx: Context)
    ensures Inv(IDLE) && Runs(IDLE, BadStart(ctx))
    ensures var b := Run(IDLE, BadStart(ctx)); b.relay == Some(0) && !b.enabled && !b.server
  {
    hide OneAlive, StartsOk, Fits, Possible, Step;
    forall i | 0 <= i < 7
      ensures Inv(Scenes(ctx)[i]) && Possible(Scenes(ctx)[i], BadStart(ctx)[i]) && Step(Scenes(ctx)[i], BadStart(ctx)[i]) == Scenes(ctx)[i + 1]
    {
      if i < 3 { EarlyScenes(ctx, i); } else { LateScenes(ctx, i); }
    }
    Chain(Scenes(ctx), BadStart(ctx));
  }

  /** A run spelled out state by state. */
  lemma {:induction false} Chain(states: seq<Bridge>, events: seq<Event>)
    requires |states| == |events| + 1 && Inv(states[0])
    requires forall i | 0 <= i < |events| :: Inv(states[i]) && Possible(states[i], events[i]) && Step(states[i], events[i]) == states[i + 1]
    ensures Runs(states[0], events) && Run(states[0], events) == states[|events|]
    decreases |events|
  {
    hide OneAlive, StartsOk, Fits, Possible, Step;
    if events != [] {
      StepKeeps(states[0], events[0]);
      Chain(states[1..], events[1..]);
    }
  }

  // ---- The module's variables, changed step by step ------------------------------------------------

  class BridgeHost {
    var enabled: bool
    var remoteEnabled: bool
    var hubContext: Option<Context>
    var server: bool
    var opening: nat
    var closing: nat
    var hubRelay: Option<nat>
    var hubRelayGen: nat
    var starts: seq<Start>
    var relays: seq<Relay>
    var polls: seq<nat>

    function Value(): Bridge
      reads this
    {
      Bridge(enabled, remoteEnabled, hubContext, server, opening, closing, hubRelay, hubRelayGen, starts, relays, polls)
    }

    constructor ()
      ensures Value() == IDLE && Inv(Value())
    {
      enabled, remoteEnabled, hubContext, server, opening, closing := false, false, None, false, 0, 0;
      hubRelay, hubRelayGen, starts, relays, polls := None, 0, [], [], [];
    }

    predicate RelayThere()
      reads this
    {
      hubRelay.Some? ==> hubRelay.value < |relays|
    }

    method StopHubRelay()
      requires RelayThere()
      modifies this
      ensures Value() == Stop(old(Value()))
    {
      hubRelayGen := hubRelayGen + 1;
      var r := hubRelay;
      hubRelay := None;
      if r.None? { return; }
      relays := relays[r.value := relays[r.value].(beating := false)];
      relays := relays[r.value := relays[r.value].(aborted := true)];
    }

    /** Up to the keychain read. */
    method StartHubRelay(ctx: Context)
      modifies this
      ensures Value() == Begin(old(Value()), ctx)
    {
      hubRelayGen := hubRelayGen + 1;
      starts := starts + [Start(ctx, hubRelayGen, Token)];
    }

    method SyncHubRelay()
      requires RelayThere()
      modifies this
      ensures Value() == Sync(old(Value()))
    {
      hide Key;
      var want := if enabled && remoteEnabled && hubContext.Some? then hubContext else None;
      if want.Some? && hubRelay.Some? && Key(relays[hubRelay.value].ctx) == Key(want.value) { return; }
      StopHubRelay();
      if want.Some? { StartHubRelay(want.value); }
    }

    /** A start goes on after one of its awaits. */
    method ResumeStart(i: nat, news: StartNews)
      requires StartPossible(Value(), i, news)
      modifies this
      ensures Value() == StepStart(old(Value()), i, news)
    {
      var s := starts[i];
      match news {
        case TokenRead(token) =>
          if s.gen != hubRelayGen || token.None? || token.value == "" {
            starts := starts[i := s.(phase := Over)];
            return;
          }
          starts := starts[i := s.(phase := Reply(token.value))];
        case Registered(ok) =>
          starts := starts[i := s.(phase := if ok then Body(s.phase.token) else Over)];
        case BodyRead(id) =>
          starts := starts[i := s.(phase := Over)];
          if id.None? || id.value == "" || s.gen != hubRelayGen { return; }
          var relay := |relays|;
          relays := relays + [Relay(s.ctx, id.value, s.phase.token, s.gen, false, true, Polling, 1000)];
          hubRelay := Some(relay);
          polls := polls + [relay];
      }
    }

    /** The head of the poll loop. */
    method LoopHead(j: nat, backoff: nat)
      requires j < |relays|
      modifies this
      ensures Value() == Next(old(Value()), j, backoff)
    {
      relays := relays[j := relays[j].(backoff := backoff)];
      if relays[j].aborted {
        relays := relays[j := relays[j].(loop := Ended)];
      } else {
        relays := relays[j := relays[j].(loop := Polling)];
        polls := polls + [j];
      }
    }

    method ResumeLoop(j: nat, news: LoopNews)
      requires LoopPossible(Value(), j, news)
      modifies this
      ensures Value() == StepLoop(old(Value()), j, news)
    {
      var r := relays[j];
      match news {
        case PollReturned(polled) =>
          if r.aborted {
            relays := relays[j := r.(loop := Ended)];
          } else if polled == Nothing {
            LoopHead(j, 1000);
          } else {
            relays := relays[j := r.(loop := if polled == Answer then Reading else Sleeping)];
          }
        case EnvelopeRead(reqId) =>
          if reqId.None? {
            relays := relays[j := r.(loop := if r.aborted then Ended else Sleeping)];
          } else if reqId.value == "" {
            LoopHead(j, 1000);
          } else {
            relays := relays[j := r.(loop := Dispatching, backoff := 1000)];
          }
        case Dispatched => relays := relays[j := r.(loop := Responding)];
        case Responded => LoopHead(j, r.backoff);
        case Awake => LoopHead(j, Min(r.backoff * 2, 15000));
      }
    }

    /** The toggles, the pushed context, and the ends of the server's start and close. */
    method Apply(c: Control)
      requires ControlPossible(Value(), c) && RelayThere()
      modifies this
      ensures Value() == StepControl(old(Value()), c)
    {
      hide Sync, Stop;
      match c {
        case SetEnabled(next) =>
          enabled := next;
          if next {
            if !server { opening := opening + 1; }
          } else {
            if server { closing := closing + 1; }
            server := false;
            StopHubRelay();
          }
        case ServerUp(written) =>
          opening := opening - 1;
          server := true;
          if written { SyncHubRelay(); } else { enabled := server; }
        case ServerFailed =>
          opening := opening - 1;
          enabled := server;
        case ServerClosed(ok) =>
          closing := closing - 1;
          if !ok { enabled := server; }
        case SetRemote(on) =>
          remoteEnabled := on;
          SyncHubRelay();
        case SetContext(ctx) =>
          hubContext := ctx;
          SyncHubRelay();
        case Dispose =>
          enabled := false;
          server := false;
          StopHubRelay();
      }
    }

    /** Any event, at any time: the invariant is kept, and the relay follows what the user wants. */
    method Take(e: Event)
      requires Inv(Value()) && Possible(Value(), e)
      modifies this
      ensures Value() == Step(old(Value()), e) && Inv(Value())
      ensures Reconciles(e) ==> DrivesAsWanted(old(Value()), e, Value())
    {
      hide OneAlive, StartsOk, Fits, DrivesAsWanted;
      StepKeeps(Value(), e);
      if Reconciles(e) { WantedIsDriven(Value(), e); }
      match e {
        case User(c) => Apply(c);
        case OfStart(i, n) => ResumeStart(i, n);
        case OfLoop(j, n) => ResumeLoop(j, n);
      }
    }
  }
}
