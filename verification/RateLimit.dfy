/** Per-agent sliding windows: highlights drawn at once, and navigations that wait for the renderer. */
module RateLimit {
  const WINDOW_MS := 60000
  const HIGHLIGHT_RATE_LIMIT := 6
  const OPEN_RATE_LIMIT := 3

  /** What parsing and the surface table make of a reference. */
  datatype Screening = Fine | InvalidRef | UnknownSurface | RefusedSurface

  datatype Decision = Allowed | Denied(why: Screening) | RateLimited | Unavailable

  /** The timestamps inside the window that ends at `now`: the filter of decision and pruning. */
  function Recent(ts: seq<int>, now: int): (r: seq<int>)
    ensures |r| <= |ts|
  {
    if ts == [] then []
    else
      var before := Recent(ts[..|ts| - 1], now);
      if now - ts[|ts| - 1] < WINDOW_MS then before + [ts[|ts| - 1]] else before
  }

  function Decide(screening: Screening, recent: seq<int>, now: int, limit: nat): Decision {
    if !screening.Fine? then Denied(screening)
    else if |Recent(recent, now)| >= limit then RateLimited
    else Allowed
  }

  lemma RecentSnoc(ts: seq<int>, t: int, now: int)
    ensures Recent(ts + [t], now) == if now - t < WINDOW_MS then Recent(ts, now) + [t] else Recent(ts, now)
  {
    assert (ts + [t])[..|ts|] == ts;
  }

  lemma {:induction false} PruneEarlier(ts: seq<int>, now: int, later: int)
    requires now <= later
    ensures Recent(Recent(ts, now), later) == Recent(ts, later)
  {
    if ts != [] {
      var init, t := ts[..|ts| - 1], ts[|ts| - 1];
      PruneEarlier(init, now, later);
      if now - t < WINDOW_MS { RecentSnoc(Recent(init, now), t, later); }
    }
  }

  /** Pruning never changes a later decision. */
  lemma PruningDecidesNothing(screening: Screening, ts: seq<int>, now: int, later: int, limit: nat)
    requires now <= later
    ensures Decide(screening, Recent(ts, now), later, limit) == Decide(screening, ts, later, limit)
  {
    PruneEarlier(ts, now, later);
  }

  // ---- Highlights ---------------------------------------------------------------------------

  datatype Request = Request(agent: string, screening: Screening, now: int, ready: bool)

  function KeyOf(agent: string): string {
    if agent == "" then "unknown" else agent
  }

  type History = map<string, seq<int>>

  function HistoryOf(h: History, key: string): seq<int> {
    if key in h then h[key] else []
  }

  /** The store after one request, as the host keeps it: pruned on every use. */
  function Highlighted(h: History, r: Request): (History, Decision) {
    if !r.ready then (h, Unavailable)
    else
      var recent := Recent(HistoryOf(h, KeyOf(r.agent)), r.now);
      var d := Decide(r.screening, recent, r.now, HIGHLIGHT_RATE_LIMIT);
      (h[KeyOf(r.agent) := if d == Allowed then recent + [r.now] else recent], d)
  }

  /** The same rule over a store that never forgets. */
  function Remembered(h: History, r: Request): (History, Decision) {
    if !r.ready then (h, Unavailable)
    else
      var d := Decide(r.screening, HistoryOf(h, KeyOf(r.agent)), r.now, HIGHLIGHT_RATE_LIMIT);
      (if d == Allowed then h[KeyOf(r.agent) := HistoryOf(h, KeyOf(r.agent)) + [r.now]] else h, d)
  }

  function HighlightRun(h: History, rs: seq<Request>): (History, seq<Decision>) {
    if rs == [] then (h, [])
    else
      var (before, ds) := HighlightRun(h, rs[..|rs| - 1]);
      var (after, d) := Highlighted(before, rs[|rs| - 1]);
      (after, ds + [d])
  }

  function RememberedRun(h: History, rs: seq<Request>): (History, seq<Decision>) {
    if rs == [] then (h, [])
    else
      var (before, ds) := RememberedRun(h, rs[..|rs| - 1]);
      var (after, d) := Remembered(before, rs[|rs| - 1]);
      (after, ds + [d])
  }

  predicate ClockRuns(rs: seq<Request>) {
    forall i, j | 0 <= i < j < |rs| :: rs[i].now <= rs[j].now
  }

  /** Two stores that agree on every window from `now` on. */
  ghost predicate Agree(a: History, b: History, now: int) {
    forall key, later | now <= later :: Recent(HistoryOf(a, key), later) == Recent(HistoryOf(b, key), later)
  }

  lemma HighlightAgrees(a: History, b: History, r: Request)
    requires Agree(a, b, r.now)
    ensures Highlighted(a, r).1 == Remembered(b, r).1
    ensures Agree(Highlighted(a, r).0, Remembered(b, r).0, r.now)
  {
    var key := KeyOf(r.agent);
    var x, y := HistoryOf(a, key), HistoryOf(b, key);
    assert Recent(x, r.now) == Recent(y, r.now);
    DecidesAlike(r, x, y);
    var p, q := Highlighted(a, r).0, Remembered(b, r).0;
    hide Recent, Decide, KeyOf;
    forall k, later | r.now <= later
      ensures Recent(HistoryOf(p, k), later) == Recent(HistoryOf(q, k), later)
    {
      if r.ready && k == key { SameWindows(x, y, r.now, later); } else {
        assert HistoryOf(p, k) == HistoryOf(a, k) && HistoryOf(q, k) == HistoryOf(b, k);
      }
    }
  }

  lemma SameWindows(x: seq<int>, y: seq<int>, now: int, later: int)
    requires now <= later && Recent(x, later) == Recent(y, later)
    ensures Recent(Recent(x, now), later) == Recent(y, later)
    ensures Recent(Recent(x, now) + [now], later) == Recent(y + [now], later)
  {
    PruneEarlier(x, now, later);
    RecentSnoc(Recent(x, now), now, later);
    RecentSnoc(y, now, later);
  }

  lemma DecidesAlike(r: Request, x: seq<int>, y: seq<int>)
    requires Recent(x, r.now) == Recent(y, r.now)
    ensures Decide(r.screening, Recent(x, r.now), r.now, HIGHLIGHT_RATE_LIMIT) == Decide(r.screening, y, r.now, HIGHLIGHT_RATE_LIMIT)
  {
    PruneEarlier(x, r.now, r.now);
  }

  /** The pruned store decides every request of a run like the store that never forgets. */
  lemma {:induction false} PrunedRunDecidesAlike(rs: seq<Request>)
    requires ClockRuns(rs)
    ensures HighlightRun(map[], rs).1 == RememberedRun(map[], rs).1
    ensures rs != [] ==> Agree(HighlightRun(map[], rs).0, RememberedRun(map[], rs).0, rs[|rs| - 1].now)
  {
    hide Highlighted, Remembered, Recent;
    if rs != [] {
      var init := rs[..|rs| - 1];
      PrunedRunDecidesAlike(init);
      var a, b := HighlightRun(map[], init).0, RememberedRun(map[], init).0;
      assert Agree(a, b, rs[|rs| - 1].now);
      HighlightAgrees(a, b, rs[|rs| - 1]);
    }
  }

  // ---- How many in a window --------------------------------------------------------------------

  /** The requests of a run that were drawn for an agent. */
  function Drawn(rs: seq<Request>, ds: seq<Decision>, key: string): seq<int>
    requires |rs| == |ds|
  {
    if rs == [] then []
    else
      Drawn(rs[..|rs| - 1], ds[..|rs| - 1], key)
      + if ds[|rs| - 1] == Allowed && KeyOf(rs[|rs| - 1].agent) == key then [rs[|rs| - 1].now] else []
  }

  function CountIn(ts: seq<int>, lo: int, hi: int): nat {
    if ts == [] then 0 else CountIn(ts[..|ts| - 1], lo, hi) + if lo <= ts[|ts| - 1] < hi then 1 else 0
  }

  lemma {:induction false} DecisionsMatch(rs: seq<Request>)
    ensures |RememberedRun(map[], rs).1| == |rs|
  {
    if rs != [] { DecisionsMatch(rs[..|rs| - 1]); }
  }

  /** The store that never forgets holds exactly what was drawn. */
  lemma {:induction false} StoreIsDrawn(rs: seq<Request>, key: string)
    ensures |RememberedRun(map[], rs).1| == |rs|
    ensures HistoryOf(RememberedRun(map[], rs).0, key) == Drawn(rs, RememberedRun(map[], rs).1, key)
  {
    hide Decide;
    if rs != [] {
      StoreIsDrawn(rs[..|rs| - 1], key);
    }
  }

  lemma {:induction false} RecentHoldsWindow(ts: seq<int>, now: int, lo: int, hi: int)
    requires now - lo < WINDOW_MS
    ensures CountIn(ts, lo, hi) <= |Recent(ts, now)|
  {
    if ts != [] { RecentHoldsWindow(ts[..|ts| - 1], now, lo, hi); }
  }

  /** One more request decided on what was drawn so far. */
  lemma DrawnMore(rs: seq<Request>, key: string)
    requires rs != []
    ensures |RememberedRun(map[], rs).1| == |rs| && |RememberedRun(map[], rs[..|rs| - 1]).1| == |rs| - 1
    ensures var init, r := rs[..|rs| - 1], rs[|rs| - 1];
            var before := Drawn(init, RememberedRun(map[], init).1, key);
            var after := Drawn(rs, RememberedRun(map[], rs).1, key);
            after == before || (after == before + [r.now] && |Recent(before, r.now)| < HIGHLIGHT_RATE_LIMIT)
  {
    var init, r := rs[..|rs| - 1], rs[|rs| - 1];
    StoreIsDrawn(rs, key);
    StoreIsDrawn(init, key);
    hide Recent;
    assert RememberedRun(map[], rs).1[..|rs| - 1] == RememberedRun(map[], init).1;
  }

  lemma {:induction false} AtMostSixRemembered(rs: seq<Request>, key: string, lo: int, hi: int)
    requires hi - lo <= WINDOW_MS
    ensures |RememberedRun(map[], rs).1| == |rs|
    ensures CountIn(Drawn(rs, RememberedRun(map[], rs).1, key), lo, hi) <= HIGHLIGHT_RATE_LIMIT
  {
    if rs != [] {
      var init, r := rs[..|rs| - 1], rs[|rs| - 1];
      AtMostSixRemembered(init, key, lo, hi);
      DrawnMore(rs, key);
      var before := Drawn(init, RememberedRun(map[], init).1, key);
      hide Recent, Drawn, RememberedRun;
      if lo <= r.now < hi { RecentHoldsWindow(before, r.now, lo, hi); }
      hide CountIn;
      CountSnoc(before, r.now, lo, hi);
    }
  }

  /** No interval shorter than the window holds more than six highlights of one agent. */
  lemma AtMostSix(rs: seq<Request>, key: string, lo: int, hi: int)
    requires ClockRuns(rs) && hi - lo <= WINDOW_MS
    ensures |HighlightRun(map[], rs).1| == |rs|
    ensures CountIn(Drawn(rs, HighlightRun(map[], rs).1, key), lo, hi) <= HIGHLIGHT_RATE_LIMIT
  {
    hide HighlightRun, RememberedRun, Drawn, CountIn, ClockRuns;
    PrunedRunDecidesAlike(rs);
    AtMostSixRemembered(rs, key, lo, hi);
  }

  lemma {:induction false} RecentIsCount(ts: seq<int>, now: int)
    requires forall i | 0 <= i < |ts| :: ts[i] <= now
    ensures |Recent(ts, now)| == CountIn(ts, now - WINDOW_MS + 1, now + 1)
  {
    if ts != [] {
      assert ts[|ts| - 1] <= now;
      RecentIsCount(ts[..|ts| - 1], now);
    }
  }

  lemma {:induction false} DrawnEarlier(rs: seq<Request>, ds: seq<Decision>, key: string, now: int)
    requires |rs| == |ds| && forall i | 0 <= i < |rs| :: rs[i].now <= now
    ensures forall t | t in Drawn(rs, ds, key) :: t <= now
  {
    if rs != [] {
      assert rs[|rs| - 1].now <= now;
      DrawnEarlier(rs[..|rs| - 1], ds[..|ds| - 1], key, now);
    }
  }

  /** The rule: an unready host answers so, a reference that fails its screening is refused for that,
      and of the rest exactly those are drawn that find fewer than six highlights in the 60 s that
      end with them. */
  function Ruling(drawn: seq<int>, r: Request): Decision {
    if !r.ready then Unavailable
    else if !r.screening.Fine? then Denied(r.screening)
    else if CountIn(drawn, r.now - WINDOW_MS + 1, r.now + 1) < HIGHLIGHT_RATE_LIMIT then Allowed
    else RateLimited
  }

  lemma RulingDecides(drawn: seq<int>, r: Request)
    requires forall t | t in drawn :: t <= r.now
    ensures Ruling(drawn, r) == if !r.ready then Unavailable else Decide(r.screening, drawn, r.now, HIGHLIGHT_RATE_LIMIT)
  {
    forall i | 0 <= i < |drawn|
      ensures drawn[i] <= r.now
    {
      assert drawn[i] in drawn;
    }
    RecentIsCount(drawn, r.now);
    hide Recent, CountIn;
  }

  /** Every request of a run gets the ruling on what was drawn for its agent before. */
  lemma DrawnExactly(rs: seq<Request>)
    requires rs != [] && ClockRuns(rs)
    ensures var init, r := rs[..|rs| - 1], rs[|rs| - 1];
            && |HighlightRun(map[], rs).1| == |rs| && |HighlightRun(map[], init).1| == |init|
            && HighlightRun(map[], rs).1[|init|] == Ruling(Drawn(init, HighlightRun(map[], init).1, KeyOf(r.agent)), r)
  {
    var init, r := rs[..|rs| - 1], rs[|rs| - 1];
    assert forall i | 0 <= i < |init| :: init[i].now <= r.now;
    PrunedRunDecidesAlike(rs);
    PrunedRunDecidesAlike(init);
    LastRemembered(rs);
    var ds := RememberedRun(map[], init).1;
    hide HighlightRun, RememberedRun, Drawn, Ruling, Decide, ClockRuns, Agree, KeyOf;
    DrawnEarlier(init, ds, KeyOf(r.agent), r.now);
    RulingDecides(Drawn(init, ds, KeyOf(r.agent)), r);
  }

  lemma LastRemembered(rs: seq<Request>)
    requires rs != []
    ensures var init, r := rs[..|rs| - 1], rs[|rs| - 1];
            && |RememberedRun(map[], rs).1| == |rs| && |RememberedRun(map[], init).1| == |init|
            && RememberedRun(map[], rs).1[|init|] ==
                 if !r.ready then Unavailable
                 else Decide(r.screening, Drawn(init, RememberedRun(map[], init).1, KeyOf(r.agent)), r.now, HIGHLIGHT_RATE_LIMIT)
  {
    var init, r := rs[..|rs| - 1], rs[|rs| - 1];
    StoreIsDrawn(init, KeyOf(r.agent));
    hide Drawn, Decide;
  }

  lemma CountSnoc(ts: seq<int>, t: int, lo: int, hi: int)
    ensures CountIn(ts + [t], lo, hi) == CountIn(ts, lo, hi) + if lo <= t < hi then 1 else 0
  {
    assert (ts + [t])[..|ts|] == ts;
  }

  class HighlightHost {
    var history: History

    constructor ()
      ensures history == map[]
    {
      history := map[];
    }

    method Highlight(r: Request) returns (d: Decision)
      modifies this
      ensures (history, d) == Highlighted(old(history), r)
    {
      hide Recent;
      if !r.ready { return Unavailable; }
      var key := KeyOf(r.agent);
      var recent := Recent(HistoryOf(history, key), r.now);
      d := Decide(r.screening, recent, r.now, HIGHLIGHT_RATE_LIMIT);
      if d != Allowed {
        history := history[key := recent];
        return;
      }
      history := history[key := recent + [r.now]];
    }
  }
}
