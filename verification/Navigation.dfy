/** Navigations on an agent's order: decided at once, charged only when the renderer has answered
    or the wait has run out, with any number of orders in flight. */
module Navigation {
  import opened RateLimit

  /** How an order stands: pushed and unanswered, charged for, or answered without effect. */
  datatype Status = InFlight | Charged | Free

  /** `overlap` is how many other orders of the agent were in flight when this one was pushed. */
  datatype Order = Order(key: string, now: int, status: Status, overlap: nat)

  /** The renderer's answer, or the end of the wait. */
  datatype Depth = Entity | Surface | Unresolved | Timeout

  /** The stores, the table of unanswered orders by number, every order pushed, and the clock. */
  datatype Host = Host(history: History, pending: set<nat>, orders: seq<Order>, clock: int)

  datatype Event = Open(r: Request) | Answer(id: nat, depth: Depth)

  predicate Possible(h: Host, e: Event) {
    e.Open? ==> e.r.now >= h.clock
  }

  function DecisionOn(h: Host, r: Request): Decision {
    if !r.ready then Unavailable
    else Decide(r.screening, Recent(HistoryOf(h.history, KeyOf(r.agent)), r.now), r.now, OPEN_RATE_LIMIT)
  }

  function InFlightCount(orders: seq<Order>, key: string): nat {
    if orders == [] then 0
    else InFlightCount(orders[..|orders| - 1], key) + if orders[|orders| - 1].key == key && orders[|orders| - 1].status == InFlight then 1 else 0
  }

  /** The store re-read at charging time, so that other charges stay. */
  function Charge(history: History, key: string, now: int): History {
    history[key := Recent(HistoryOf(history, key), now) + [now]]
  }

  function Step(h: Host, e: Event): Host
    requires Possible(h, e)
  {
    match e
    case Open(r) =>
      var moved := h.(clock := r.now);
      if DecisionOn(h, r) != Allowed then moved
      else
        moved.(orders := h.orders + [Order(KeyOf(r.agent), r.now, InFlight, InFlightCount(h.orders, KeyOf(r.agent)))],
               pending := h.pending + {|h.orders|})
    case Answer(id, depth) =>
      if id !in h.pending || id >= |h.orders| then h
      else
        var o := h.orders[id];
        var taken := h.(pending := h.pending - {id});
        if depth == Unresolved then taken.(orders := h.orders[id := o.(status := Free)])
        else taken.(orders := h.orders[id := o.(status := Charged)], history := Charge(h.history, o.key, o.now))
  }

  // ---- What the store holds ------------------------------------------------------------------

  function ChargedCount(orders: seq<Order>, key: string, now: int): nat {
    if orders == [] then 0
    else
      var o := orders[|orders| - 1];
      ChargedCount(orders[..|orders| - 1], key, now) + if o.key == key && o.status == Charged && now - o.now < WINDOW_MS then 1 else 0
  }

  /** Charged or still able to be charged. */
  function TakenCount(orders: seq<Order>, key: string, now: int): nat {
    if orders == [] then 0
    else
      var o := orders[|orders| - 1];
      TakenCount(orders[..|orders| - 1], key, now) + if o.key == key && o.status != Free && now - o.now < WINDOW_MS then 1 else 0
  }

  /** No charge is lost: from now on the store counts, in each window, all charged orders. */
  ghost predicate StoreCounts(h: Host) {
    forall key, n | n >= h.clock :: |Recent(HistoryOf(h.history, key), n)| == ChargedCount(h.orders, key, n)
  }

  /** When it was pushed, an order shared its window with two charged orders at most, beside
      those in flight; answers since then can only have made them fewer. */
  predicate PushedFairly(orders: seq<Order>, j: nat)
    requires j < |orders|
  {
    TakenCount(orders[..j], orders[j].key, orders[j].now) <= OPEN_RATE_LIMIT - 1 + orders[j].overlap
  }

  /** The table holds the orders in flight. */
  predicate TableOk(h: Host) {
    && (forall id | 0 <= id < |h.orders| :: id in h.pending <==> h.orders[id].status == InFlight)
    && (forall id | id in h.pending :: id < |h.orders|)
  }

  predicate OrdersOk(h: Host) {
    forall id | 0 <= id < |h.orders| :: h.orders[id].now <= h.clock && PushedFairly(h.orders, id)
  }

  ghost predicate Inv(h: Host) {
    TableOk(h) && OrdersOk(h) && StoreCounts(h)
  }

  lemma {:induction false} TakenIsChargedOrFlying(orders: seq<Order>, key: string, now: int)
    ensures TakenCount(orders, key, now) <= ChargedCount(orders, key, now) + InFlightCount(orders, key)
  {
    if orders != [] { TakenIsChargedOrFlying(orders[..|orders| - 1], key, now); }
  }

  /** An answer turns one order in flight into a charge in each window it lies in, or frees it. */
  lemma {:induction false} AnswerCounts(orders: seq<Order>, id: nat, s: Status, key: string, now: int)
    requires id < |orders| && orders[id].status == InFlight && s != InFlight
    ensures var after := orders[id := orders[id].(status := s)];
            && ChargedCount(after, key, now) ==
                 ChargedCount(orders, key, now) + (if s == Charged && orders[id].key == key && now - orders[id].now < WINDOW_MS then 1 else 0)
            && TakenCount(after, key, now) <= TakenCount(orders, key, now)
  {
    var after := orders[id := orders[id].(status := s)];
    var init := orders[..|orders| - 1];
    if id < |init| {
      AnswerCounts(init, id, s, key, now);
      assert after[..|orders| - 1] == init[id := init[id].(status := s)];
    } else {
      assert after[..|orders| - 1] == init;
    }
  }

  /** Charging an order adds it to each window it lies in and takes nothing out of any window
      that ends after it. */
  lemma ChargeCounts(history: History, orders: seq<Order>, id: nat, key: string, n: int)
    requires id < |orders| && orders[id].status == InFlight && n >= orders[id].now
    requires |Recent(HistoryOf(history, key), n)| == ChargedCount(orders, key, n)
    ensures var o := orders[id];
            |Recent(HistoryOf(Charge(history, o.key, o.now), key), n)| == ChargedCount(orders[id := o.(status := Charged)], key, n)
  {
    var o := orders[id];
    hide Recent, ChargedCount, TakenCount;
    AnswerCounts(orders, id, Charged, key, n);
    if key == o.key {
      var was := HistoryOf(history, key);
      PruneEarlier(was, o.now, n);
      RecentSnoc(Recent(was, o.now), o.now, n);
    } else {
      assert HistoryOf(Charge(history, o.key, o.now), key) == HistoryOf(history, key);
    }
  }

  lemma FairAfterAnswer(orders: seq<Order>, id: nat, s: Status, j: nat)
    requires id < |orders| && orders[id].status == InFlight && s != InFlight && j < |orders| && PushedFairly(orders, j)
    ensures PushedFairly(orders[id := orders[id].(status := s)], j)
  {
    var after := orders[id := orders[id].(status := s)];
    hide TakenCount;
    if id < j {
      AnswerCounts(orders[..j], id, s, orders[j].key, orders[j].now);
      assert after[..j] == orders[..j][id := orders[..j][id].(status := s)];
    } else {
      assert after[..j] == orders[..j];
    }
  }

  lemma NewOrderIsFair(h: Host, key: string, now: int)
    requires Inv(h) && now >= h.clock && |Recent(Recent(HistoryOf(h.history, key), now), now)| < OPEN_RATE_LIMIT
    ensures TakenCount(h.orders, key, now) <= OPEN_RATE_LIMIT - 1 + InFlightCount(h.orders, key)
  {
    hide Recent, ChargedCount, TakenCount, InFlightCount, PushedFairly;
    PruneEarlier(HistoryOf(h.history, key), now, now);
    TakenIsChargedOrFlying(h.orders, key, now);
  }

  lemma FairAfterOpen(orders: seq<Order>, o: Order, i: nat)
    requires i <= |orders| && (i < |orders| ==> PushedFairly(orders, i))
    requires TakenCount(orders, o.key, o.now) <= OPEN_RATE_LIMIT - 1 + o.overlap
    ensures PushedFairly(orders + [o], i)
  {
    hide TakenCount;
    var n := orders + [o];
    if i < |orders| { assert n[..i] == orders[..i]; } else { assert n[..i] == orders; }
  }

  /** An order just pushed is not charged for. */
  lemma ChargedAfterOpen(orders: seq<Order>, o: Order, key: string, n: int)
    requires o.status == InFlight
    ensures ChargedCount(orders + [o], key, n) == ChargedCount(orders, key, n)
  {
    assert (orders + [o])[..|orders|] == orders;
  }

  lemma OrdersAfterOpen(h: Host, n: Host, o: Order)
    requires OrdersOk(h) && n.orders == h.orders + [o] && n.clock == o.now >= h.clock
    requires TakenCount(h.orders, o.key, o.now) <= OPEN_RATE_LIMIT - 1 + o.overlap
    ensures OrdersOk(n)
  {
    hide TakenCount, PushedFairly;
    forall i | 0 <= i < |n.orders|
      ensures n.orders[i].now <= n.clock && PushedFairly(n.orders, i)
    {
      if i < |h.orders| { assert PushedFairly(h.orders, i); }
      FairAfterOpen(h.orders, o, i);
    }
  }

  lemma StoreAfterOpen(h: Host, n: Host, o: Order)
    requires StoreCounts(h) && n.orders == h.orders + [o] && o.status == InFlight && n.history == h.history && n.clock >= h.clock
    ensures StoreCounts(n)
  {
    hide Recent, ChargedCount;
    forall k, t | t >= n.clock
      ensures |Recent(HistoryOf(n.history, k), t)| == ChargedCount(n.orders, k, t)
    {
      ChargedAfterOpen(h.orders, o, k, t);
    }
  }

  lemma OpenKeeps(h: Host, r: Request)
    requires Inv(h) && r.now >= h.clock && DecisionOn(h, r) == Allowed
    ensures Inv(Step(h, Open(r)))
  {
    var key := KeyOf(r.agent);
    assert |Recent(Recent(HistoryOf(h.history, key), r.now), r.now)| < OPEN_RATE_LIMIT by { hide Recent, KeyOf, Inv; }
    hide Recent, TakenCount, InFlightCount, OrdersOk, StoreCounts, DecisionOn, KeyOf;
    NewOrderIsFair(h, key, r.now);
    var n := Step(h, Open(r));
    var o := n.orders[|h.orders|];
    OrdersAfterOpen(h, n, o);
    StoreAfterOpen(h, n, o);
    hide HistoryOf;
  }

  lemma AnswerKeeps(h: Host, id: nat, depth: Depth)
    requires Inv(h) && id in h.pending
    ensures Inv(Step(h, Answer(id, depth)))
  {
    var s := if depth == Unresolved then Free else Charged;
    var n := Step(h, Answer(id, depth));
    hide Recent, TakenCount, ChargedCount, InFlightCount, Charge;
    forall j | 0 <= j < |n.orders|
      ensures PushedFairly(n.orders, j)
    {
      assert PushedFairly(h.orders, j);
      FairAfterAnswer(h.orders, id, s, j);
    }
    forall key, t | t >= n.clock
      ensures |Recent(HistoryOf(n.history, key), t)| == ChargedCount(n.orders, key, t)
    {
      if depth == Unresolved { AnswerCounts(h.orders, id, Free, key, t); } else { ChargeCounts(h.history, h.orders, id, key, t); }
    }
  }

  lemma StepKeeps(h: Host, e: Event)
    requires Inv(h) && Possible(h, e)
    ensures Inv(Step(h, e)) && Step(h, e).clock >= h.clock
  {
    hide Recent, TakenCount, ChargedCount, InFlightCount, Charge, PushedFairly;
    match e
    case Open(r) => if DecisionOn(h, r) == Allowed { OpenKeeps(h, r); }
    case Answer(id, depth) => if id in h.pending { AnswerKeeps(h, id, depth); }
  }

  /** An order is decided by the charges of its agent: an unready desktop answers so, a reference
      that fails its screening is refused for that, and of the rest exactly those go through that
      find fewer than three charged orders in the 60 s that end with them. */
  lemma DecidedByCharges(h: Host, r: Request)
    requires Inv(h) && r.now >= h.clock
    ensures DecisionOn(h, r) ==
              if !r.ready then Unavailable
              else if !r.screening.Fine? then Denied(r.screening)
              else if ChargedCount(h.orders, KeyOf(r.agent), r.now) < OPEN_RATE_LIMIT then Allowed
              else RateLimited
  {
    hide Recent, ChargedCount, PushedFairly;
    PruneEarlier(HistoryOf(h.history, KeyOf(r.agent)), r.now, r.now);
  }

  /** An order that goes through is pushed and waits; one that does not leaves no trace. An answer
      settles the order with its number: free if nothing was resolved, else charged; every other
      order stays as it was. */
  lemma StepSettles(h: Host, e: Event)
    requires Inv(h) && Possible(h, e)
    ensures var n := Step(h, e);
            match e
            case Open(r) =>
              && n.history == h.history
              && (if DecisionOn(h, r) == Allowed
                  then |n.orders| == |h.orders| + 1 && n.orders[..|h.orders|] == h.orders && |h.orders| in n.pending
                       && n.orders[|h.orders|].key == KeyOf(r.agent) && n.orders[|h.orders|].now == r.now && n.orders[|h.orders|].status == InFlight
                  else n.orders == h.orders && n.pending == h.pending)
            case Answer(id, depth) =>
              && |n.orders| == |h.orders| && id !in n.pending
              && forall j | 0 <= j < |h.orders| ::
                   n.orders[j] == if j == id && j in h.pending then h.orders[j].(status := if depth == Unresolved then Free else Charged) else h.orders[j]
  {
    hide Recent, PushedFairly, StoreCounts, Charge, DecisionOn, InFlightCount;
  }

  // ---- Whole runs -----------------------------------------------------------------------------

  ghost predicate Runs(h: Host, events: seq<Event>)
    decreases |events|
  {
    events == [] || (Possible(h, events[0]) && Runs(Step(h, events[0]), events[1..]))
  }

  ghost function Run(h: Host, events: seq<Event>): Host
    requires Runs(h, events)
    decreases |events|
  {
    if events == [] then h else Run(Step(h, events[0]), events[1..])
  }

  lemma {:induction false} RunKeeps(h: Host, events: seq<Event>)
    requires Inv(h) && Runs(h, events)
    ensures Inv(Run(h, events))
    decreases |events|
  {
    hide Inv, Possible, Step;
    if events != [] {
      StepKeeps(h, events[0]);
      RunKeeps(Step(h, events[0]), events[1..]);
    }
  }

  /** An order that was answered stays as it was answered: later answers to it change nothing. */
  lemma {:induction false} AnsweredOnce(h: Host, events: seq<Event>, id: nat)
    requires Inv(h) && Runs(h, events) && id < |h.orders| && h.orders[id].status != InFlight
    ensures id < |Run(h, events).orders| && Run(h, events).orders[id] == h.orders[id]
    decreases |events|
  {
    hide Recent, ChargedCount, PushedFairly, Charge, DecisionOn;
    if events != [] {
      StepKeeps(h, events[0]);
      assert Step(h, events[0]).orders[id] == h.orders[id];
      hide Step, Inv;
      AnsweredOnce(Step(h, events[0]), events[1..], id);
    }
  }

  /** Navigations of an agent within an interval. */
  function MovedIn(orders: seq<Order>, key: string, lo: int, hi: int): nat {
    if orders == [] then 0
    else
      var o := orders[|orders| - 1];
      MovedIn(orders[..|orders| - 1], key, lo, hi) + if o.key == key && o.status != Free && lo <= o.now < hi then 1 else 0
  }

  lemma {:induction false} MovedAreTaken(orders: seq<Order>, key: string, now: int, lo: int, hi: int)
    requires now - lo < WINDOW_MS
    ensures MovedIn(orders, key, lo, hi) <= TakenCount(orders, key, now)
  {
    if orders != [] { MovedAreTaken(orders[..|orders| - 1], key, now, lo, hi); }
  }

  lemma {:induction false} WindowIsBounded(orders: seq<Order>, key: string, lo: int, hi: int, most: nat)
    requires hi - lo <= WINDOW_MS
    requires forall j | 0 <= j < |orders| :: PushedFairly(orders, j) && (orders[j].key == key ==> orders[j].overlap <= most)
    ensures MovedIn(orders, key, lo, hi) <= OPEN_RATE_LIMIT + most
  {
    hide TakenCount;
    if orders != [] {
      var init, j := orders[..|orders| - 1], |orders| - 1;
      assert PushedFairly(orders, j);
      forall i | 0 <= i < |init|
        ensures PushedFairly(init, i) && (init[i].key == key ==> init[i].overlap <= most)
      {
        assert init[..i] == orders[..i] && PushedFairly(orders, i);
      }
      WindowIsBounded(init, key, lo, hi, most);
      if orders[j].key == key && lo <= orders[j].now < hi { MovedAreTaken(init, key, orders[j].now, lo, hi); }
    }
  }

  const START := Host(map[], {}, [], 0)

  /** With at most `most` other orders of an agent in flight whenever one is pushed, no interval
      shorter than the window holds more than three navigations and those `most`; without
      overlap that is the limit itself. The store loses no charge, and an order is in the
      table exactly until it is answered. */
  lemma NavigationsAreBounded(events: seq<Event>, key: string, lo: int, hi: int, most: nat)
    requires Runs(START, events) && hi - lo <= WINDOW_MS
    requires forall j | 0 <= j < |Run(START, events).orders| && Run(START, events).orders[j].key == key :: Run(START, events).orders[j].overlap <= most
    ensures MovedIn(Run(START, events).orders, key, lo, hi) <= OPEN_RATE_LIMIT + most
    ensures StoreCounts(Run(START, events))
    ensures forall id | 0 <= id < |Run(START, events).orders| :: id in Run(START, events).pending <==> Run(START, events).orders[id].status == InFlight
  {
    RunKeeps(START, events);
    hide Run, Runs, Step;
    WindowIsBounded(Run(START, events).orders, key, lo, hi, most);
  }

  // ---- When the limit holds ---------------------------------------------------------------------------

  /** Orders of an agent in flight inside the window that ends at `now`. */
  function FlyingCount(orders: seq<Order>, key: string, now: int): nat {
    if orders == [] then 0
    else
      var o := orders[|orders| - 1];
      FlyingCount(orders[..|orders| - 1], key, now) + if o.key == key && o.status == InFlight && now - o.now < WINDOW_MS then 1 else 0
  }

  /** What the code counts and the orders it does not count yet leave room for one more. */
  predicate HasRoom(h: Host, r: Request) {
    |Recent(HistoryOf(h.history, KeyOf(r.agent)), r.now)| + FlyingCount(h.orders, KeyOf(r.agent), r.now) < OPEN_RATE_LIMIT
  }

  /** The limit: no interval shorter than the window holds more than three navigations of an
      agent; an order in flight counts, since the screen may have moved. */
  ghost predicate LimitHolds(h: Host) {
    forall key, lo, hi | hi - lo <= WINDOW_MS :: MovedIn(h.orders, key, lo, hi) <= OPEN_RATE_LIMIT
  }

  lemma {:induction false} TakenSplits(orders: seq<Order>, key: string, now: int)
    ensures TakenCount(orders, key, now) == ChargedCount(orders, key, now) + FlyingCount(orders, key, now)
  {
    if orders != [] { TakenSplits(orders[..|orders| - 1], key, now); }
  }

  lemma {:induction false} TakenAreMoved(orders: seq<Order>, key: string, now: int)
    requires forall j | 0 <= j < |orders| :: orders[j].now <= now
    ensures MovedIn(orders, key, now - WINDOW_MS + 1, now + 1) == TakenCount(orders, key, now)
  {
    if orders != [] {
      assert orders[|orders| - 1].now <= now;
      TakenAreMoved(orders[..|orders| - 1], key, now);
    }
  }

  /** Room is room for one more order that is charged or may be. */
  lemma RoomIsTaken(h: Host, r: Request)
    requires Inv(h) && r.now >= h.clock
    ensures HasRoom(h, r) <==> TakenCount(h.orders, KeyOf(r.agent), r.now) < OPEN_RATE_LIMIT
  {
    hide Recent, ChargedCount, TakenCount, FlyingCount, KeyOf;
    TakenSplits(h.orders, KeyOf(r.agent), r.now);
  }

  lemma MovedSnoc(orders: seq<Order>, o: Order, key: string, lo: int, hi: int)
    ensures MovedIn(orders + [o], key, lo, hi) ==
            MovedIn(orders, key, lo, hi) + if o.key == key && o.status != Free && lo <= o.now < hi then 1 else 0
  {
    assert (orders + [o])[..|orders|] == orders;
  }

  lemma NewOrderWithinLimit(h: Host, o: Order)
    requires LimitHolds(h) && TakenCount(h.orders, o.key, o.now) < OPEN_RATE_LIMIT
    ensures LimitHolds(h.(orders := h.orders + [o]))
  {
    hide TakenCount, MovedIn;
    forall key, lo, hi | hi - lo <= WINDOW_MS
      ensures MovedIn(h.orders + [o], key, lo, hi) <= OPEN_RATE_LIMIT
    {
      MovedSnoc(h.orders, o, key, lo, hi);
      if o.key == key && lo <= o.now < hi { MovedAreTaken(h.orders, key, o.now, lo, hi); }
    }
  }

  lemma NewOrderPassesLimit(h: Host, o: Order)
    requires TakenCount(h.orders, o.key, o.now) >= OPEN_RATE_LIMIT && o.status != Free
    requires forall j | 0 <= j < |h.orders| :: h.orders[j].now <= o.now
    ensures !LimitHolds(h.(orders := h.orders + [o]))
  {
    hide TakenCount, MovedIn;
    var lo, hi := o.now - WINDOW_MS + 1, o.now + 1;
    TakenAreMoved(h.orders, o.key, o.now);
    MovedSnoc(h.orders, o, o.key, lo, hi);
  }

  lemma {:induction false} AnswerMovesNoMore(orders: seq<Order>, id: nat, s: Status, key: string, lo: int, hi: int)
    requires id < |orders| && orders[id].status == InFlight
    ensures MovedIn(orders[id := orders[id].(status := s)], key, lo, hi) <= MovedIn(orders, key, lo, hi)
  {
    var after, init := orders[id := orders[id].(status := s)], orders[..|orders| - 1];
    if id < |init| {
      AnswerMovesNoMore(init, id, s, key, lo, hi);
      assert after[..|init|] == init[id := init[id].(status := s)];
    } else {
      assert after[..|init|] == init;
    }
  }

  /** The order would be pushed and there is no room for it. */
  predicate Overfills(h: Host, e: Event) {
    e.Open? && DecisionOn(h, e.r) == Allowed && !HasRoom(h, e.r)
  }

  /** A step keeps the limit exactly when it does not push an order there is no room for. */
  lemma LimitKeptExactly(h: Host, e: Event)
    requires Inv(h) && LimitHolds(h) && Possible(h, e)
    ensures LimitHolds(Step(h, e)) <==> !Overfills(h, e)
  {
    match e
    case Open(r) =>
      RoomIsTaken(h, r);
      OpenKeepsLimitExactly(h, r);
    case Answer(id, depth) =>
      hide Inv, MovedIn, Charge;
      if id in h.pending && id < |h.orders| {
        assert h.orders[id].status == InFlight by { Pending(h, id); }
        var s := if depth == Unresolved then Free else Charged;
        forall key, lo, hi | hi - lo <= WINDOW_MS
          ensures MovedIn(Step(h, e).orders, key, lo, hi) <= OPEN_RATE_LIMIT
        {
          AnswerMovesNoMore(h.orders, id, s, key, lo, hi);
        }
      }
  }

  lemma Pending(h: Host, id: nat)
    requires Inv(h) && id in h.pending
    ensures id < |h.orders| && h.orders[id].status == InFlight
  {
    hide StoreCounts, PushedFairly;
  }

  lemma OpenKeepsLimitExactly(h: Host, r: Request)
    requires Inv(h) && LimitHolds(h) && r.now >= h.clock
    ensures LimitHolds(Step(h, Open(r))) <==>
            (DecisionOn(h, r) == Allowed ==> TakenCount(h.orders, KeyOf(r.agent), r.now) < OPEN_RATE_LIMIT)
  {
    hide StoreCounts, PushedFairly, Recent, TakenCount, MovedIn, KeyOf, DecisionOn, InFlightCount;
    if DecisionOn(h, r) == Allowed {
      var n := Step(h, Open(r));
      var o := n.orders[|h.orders|];
      assert n.orders == (h.(orders := h.orders + [o])).orders;
      if TakenCount(h.orders, o.key, o.now) < OPEN_RATE_LIMIT { NewOrderWithinLimit(h, o); } else { NewOrderPassesLimit(h, o); }
    }
  }

  /** At every moment of the run the limit holds. */
  ghost predicate LimitHoldsThroughout(h: Host, events: seq<Event>)
    requires Runs(h, events)
    decreases |events|
  {
    LimitHolds(h) && (events == [] || LimitHoldsThroughout(Step(h, events[0]), events[1..]))
  }

  /** Every order pushed in the run finds room. */
  ghost predicate RoomThroughout(h: Host, events: seq<Event>)
    requires Runs(h, events)
    decreases |events|
  {
    events == [] || (!Overfills(h, events[0]) && RoomThroughout(Step(h, events[0]), events[1..]))
  }

  /** Over every run, the limit of three holds throughout exactly when no order is pushed while
      those charged and those in flight already fill the window. */
  lemma {:induction false} LimitHoldsExactly(h: Host, events: seq<Event>)
    requires Inv(h) && LimitHolds(h) && Runs(h, events)
    ensures LimitHoldsThroughout(h, events) <==> RoomThroughout(h, events)
    decreases |events|
  {
    hide Inv, LimitHolds, Possible, Step, Overfills;
    if events != [] {
      LimitKeptExactly(h, events[0]);
      StepKeeps(h, events[0]);
      if !Overfills(h, events[0]) {
        LimitHoldsExactly(Step(h, events[0]), events[1..]);
      } else {
        assert !LimitHoldsThroughout(Step(h, events[0]), events[1..]);
      }
    }
  }

  /** A module just loaded is such a host. */
  lemma StartsWithinLimit()
    ensures Inv(START) && LimitHolds(START)
  {
  }

  // ---- The limit can be passed by orders that overlap ------------------------------------------------

  function Burst(agent: string, n: nat): seq<Event> {
    if n == 0 then [] else Burst(agent, n - 1) + [Open(Request(agent, Fine, 0, true))]
  }

  function Pushed(agent: string, n: nat): seq<Order>
    ensures |Pushed(agent, n)| == n
  {
    if n == 0 then [] else Pushed(agent, n - 1) + [Order(KeyOf(agent), 0, InFlight, n - 1)]
  }

  lemma {:induction false} RunAppend(h: Host, a: seq<Event>, e: Event)
    requires Runs(h, a) && Possible(Run(h, a), e)
    ensures Runs(h, a + [e]) && Run(h, a + [e]) == Step(Run(h, a), e)
    decreases |a|
  {
    hide Possible, Step;
    if a == [] {
      assert a + [e] == [e] && [e][1..] == [];
    } else {
      assert (a + [e])[1..] == a[1..] + [e];
      RunAppend(Step(h, a[0]), a[1..], e);
    }
  }

  lemma {:induction false} AllInFlight(agent: string, n: nat)
    ensures InFlightCount(Pushed(agent, n), KeyOf(agent)) == n
    ensures MovedIn(Pushed(agent, n), KeyOf(agent), 0, 1) == n
  {
    if n > 0 {
      AllInFlight(agent, n - 1);
      assert Pushed(agent, n)[..n - 1] == Pushed(agent, n - 1);
    }
  }

  lemma NothingChargedYet(h: Host, r: Request)
    requires h.history == map[] && r.ready && r.screening.Fine?
    ensures DecisionOn(h, r) == Allowed
  {
  }

  /** Orders pushed while others are in flight are not counted against one another: any number
      of them goes through at one moment. */
  lemma {:induction false} OverlapPassesTheLimit(agent: string, n: nat)
    ensures Runs(START, Burst(agent, n))
    ensures var h := Run(START, Burst(agent, n));
            && h.orders == Pushed(agent, n) && h.history == map[] && h.clock == 0
            && MovedIn(h.orders, KeyOf(agent), 0, 1) == n
  {
    AllInFlight(agent, n);
    if n > 0 {
      AllInFlight(agent, n - 1);
      OverlapPassesTheLimit(agent, n - 1);
      hide Runs, Run, KeyOf, InFlightCount, MovedIn;
      var h := Run(START, Burst(agent, n - 1));
      NothingChargedYet(h, Request(agent, Fine, 0, true));
      hide DecisionOn;
      RunAppend(START, Burst(agent, n - 1), Open(Request(agent, Fine, 0, true)));
    }
  }

  // ---- The module's tables -----------------------------------------------------------------------------

  class OpenHost {
    var history: History
    var pending: set<nat>
    var orders: seq<Order>
    var clock: int

    function Value(): Host
      reads this
    {
      Host(history, pending, orders, clock)
    }

    constructor ()
      ensures Value() == START && Inv(Value())
    {
      history, pending, orders, clock := map[], {}, [], 0;
    }

    /** A request up to its wait: decide, and push the order. */
    method Open(r: Request) returns (d: Decision)
      requires Inv(Value()) && r.now >= clock
      modifies this
      ensures d == DecisionOn(old(Value()), r) && Value() == Step(old(Value()), Event.Open(r)) && Inv(Value())
    {
      StepKeeps(Value(), Event.Open(r));
      hide Inv, Recent, InFlightCount;
      clock := r.now;
      if !r.ready { return Unavailable; }
      var key := KeyOf(r.agent);
      var recent := Recent(HistoryOf(history, key), r.now);
      d := Decide(r.screening, recent, r.now, OPEN_RATE_LIMIT);
      if d != Allowed { return; }
      pending := pending + {|orders|};
      orders := orders + [Order(key, r.now, InFlight, InFlightCount(orders, key))];
    }

    /** The renderer's answer or the end of the wait: an unknown number resolves nothing. */
    method Result(id: nat, depth: Depth) returns (known: bool)
      requires Inv(Value())
      modifies this
      ensures known == (id in old(pending)) && Value() == Step(old(Value()), Answer(id, depth)) && Inv(Value())
    {
      StepKeeps(Value(), Answer(id, depth));
      if id !in pending { return false; }
      assert id < |orders|;
      hide Inv, Recent;
      known := true;
      pending := pending - {id};
      var o := orders[id];
      if depth == Unresolved {
        orders := orders[id := o.(status := Free)];
      } else {
        history := history[o.key := Recent(HistoryOf(history, o.key), o.now) + [o.now]];
        orders := orders[id := o.(status := Charged)];
      }
    }
  }
}
