/** The stream reader and the follower as they run: a buffer, a cursor, a closed flag and
    the callbacks they fire. */
module AgentFollower {
  import opened Options
  import opened SseFraming
  import opened Text
  import opened AgentFeed

  datatype Call = BackfillCall(events: seq<Entity>) | EventCall(e: Entity)

  /** The consumer may close the feed from inside its own event callback. */
  type Consumer = Entity -> bool

  /** The callbacks a guarded feed fires for `events`: all of them, up to and including the
      one that closes it. */
  function Fired(closer: Consumer, events: seq<Entity>): seq<Call> {
    if events == [] then []
    else [EventCall(events[0])] + if closer(events[0]) then [] else Fired(closer, events[1..])
  }

  predicate Closes(closer: Consumer, events: seq<Entity>) {
    exists e | e in events :: closer(e)
  }

  function CallsFor(closed: bool, closer: Consumer, events: seq<Entity>): seq<Call> {
    if closed then [] else Fired(closer, events)
  }

  /** What a view fed by the callbacks shows. */
  function ViewOf(calls: seq<Call>): seq<Entity> {
    if calls == [] then [] else Show(ViewOf(calls[..|calls| - 1]), calls[|calls| - 1])
  }

  /** A page replaces the view, a live event is appended unless it is already there. */
  function Show(view: seq<Entity>, c: Call): seq<Entity> {
    match c
    case BackfillCall(events) => events
    case EventCall(e) => AppendEvent(view, e)
  }

  lemma ViewSnoc(calls: seq<Call>, c: Call)
    ensures ViewOf(calls + [c]) == Show(ViewOf(calls), c)
  {
    assert (calls + [c])[..|calls|] == calls;
  }

  lemma {:induction false} CallsAppend(closed: bool, closer: Consumer, a: seq<Entity>, b: seq<Entity>)
    ensures CallsFor(closed, closer, a + b) ==
            CallsFor(closed, closer, a) + CallsFor(closed || Closes(closer, a), closer, b)
  {
    if closed {
    } else if a == [] {
      assert a + b == b;
    } else {
      assert (a + b)[1..] == a[1..] + b;
      assert closer(a[0]) ==> Closes(closer, a);
      assert !closer(a[0]) ==> (Closes(closer, a) <==> Closes(closer, a[1..])) by {
        assert a == [a[0]] + a[1..];
      }
      CallsAppend(false, closer, a[1..], b);
    }
  }

  function EventCalls(events: seq<Entity>): seq<Call> {
    seq(|events|, i requires 0 <= i < |events| => EventCall(events[i]))
  }

  lemma {:induction false} ViewOfEventCalls(calls: seq<Call>, events: seq<Entity>)
    ensures ViewOf(calls + EventCalls(events)) == AppendAll(ViewOf(calls), events)
    decreases |events|
  {
    hide AppendEvent, ViewOf;
    if events == [] {
      assert calls + EventCalls(events) == calls;
    } else {
      ViewSnoc(calls, EventCall(events[0]));
      var now := calls + [EventCall(events[0])];
      ViewOfEventCalls(now, events[1..]);
      assert calls + EventCalls(events) == now + EventCalls(events[1..]);
    }
  }

  lemma {:induction false} FiredIsAPrefix(closer: Consumer, events: seq<Entity>) returns (m: nat)
    ensures m <= |events| && Fired(closer, events) == EventCalls(events[..m])
    ensures !Closes(closer, events) ==> m == |events|
    ensures forall i | 0 <= i < m - 1 :: !closer(events[i])
    ensures Closes(closer, events) ==> m > 0 && closer(events[m - 1])
  {
    if events == [] {
      m := 0;
    } else if closer(events[0]) {
      m := 1;
      assert events[0] in events;
    } else {
      var rest := events[1..];
      var k := FiredIsAPrefix(closer, rest);
      m := k + 1;
      assert events[..m][1..] == rest[..k] && events == [events[0]] + rest;
      forall i | 0 <= i < m - 1
        ensures !closer(events[i])
      {
        if i > 0 { assert events[i] == rest[i - 1]; }
      }
    }
  }

  lemma {:induction false} EventsOfAppend(codec: Codec, a: seq<string>, b: seq<string>)
    ensures EventsOf(codec, a + b) == EventsOf(codec, a) + EventsOf(codec, b)
  {
    hide FrameEvents;
    if a == [] {
      assert a + b == b;
    } else {
      EventsOfAppend(codec, a[1..], b);
      assert (a + b)[1..] == a[1..] + b;
      Assoc(FrameEvents(codec, a[0]), EventsOf(codec, a[1..]), EventsOf(codec, b));
    }
  }

  lemma EventsOfSnoc(codec: Codec, frames: seq<string>, frame: string)
    ensures EventsOf(codec, frames + [frame]) == EventsOf(codec, frames) + FrameEvents(codec, frame)
  {
    EventsOfAppend(codec, frames, [frame]);
    assert EventsOf(codec, [frame]) == FrameEvents(codec, frame) + [];
  }

  lemma {:induction false} AdvanceAppend(since: Option<int>, a: seq<Entity>, b: seq<Entity>)
    ensures Advance(since, a + b) == Advance(Advance(since, a), b)
    decreases |a|
  {
    if a == [] {
      assert a + b == b;
    } else {
      assert (a + b)[1..] == a[1..] + b;
      AdvanceAppend(if a[0].seqNo.Some? then a[0].seqNo else since, a[1..], b);
    }
  }

  lemma ClosesAppend(closer: Consumer, a: seq<Entity>, b: seq<Entity>)
    ensures Closes(closer, a + b) <==> Closes(closer, a) || Closes(closer, b)
  {
  }

  // ---- A run of the feed -----------------------------------------------------------

  datatype Reader = Reader(closer: Consumer, closed: bool, since: Option<int>, emitted: seq<Entity>, calls: seq<Call>)

  /** `s` after the stream handed over `events`: the reader's own callback gets all of them, the
      consumer those up to the one it closes on, the cursor follows all. */
  function HandledBy(s: Reader, events: seq<Entity>): Reader {
    Reader(s.closer, s.closed || Closes(s.closer, events), Advance(s.since, events), s.emitted + events,
           s.calls + CallsFor(s.closed, s.closer, events))
  }

  ghost predicate Handled(s: Reader, events: seq<Entity>, t: Reader) {
    t == HandledBy(s, events)
  }

  lemma HandleMore(s: Reader, a: seq<Entity>, t: Reader, b: seq<Entity>, u: Reader)
    requires Handled(s, a, t) && Handled(t, b, u)
    ensures Handled(s, a + b, u)
  {
    Assoc(s.emitted, a, b);
    AdvanceAppend(s.since, a, b);
    CallsAppend(s.closed, s.closer, a, b);
    Assoc(s.calls, CallsFor(s.closed, s.closer, a), CallsFor(t.closed, s.closer, b));
    ClosesAppend(s.closer, a, b);
  }

  lemma AdvanceOne(since: Option<int>, e: Entity)
    ensures Advance(since, [e]) == if e.seqNo.Some? then e.seqNo else since
  {
    var one := [e];
    assert one[1..] == [];
  }

  lemma ClosesOne(closer: Consumer, e: Entity)
    ensures Closes(closer, [e]) <==> closer(e)
  {
    assert e in [e];
  }

  lemma HandledNothing(s: Reader)
    ensures Handled(s, [], s)
  {
    assert s.emitted + [] == s.emitted && s.calls + [] == s.calls;
  }

  lemma {:induction false} FeedAllSnoc(buf: string, chunks: seq<string>, c: string)
    ensures var (fs, rest) := FeedAll(buf, chunks);
            FeedAll(buf, chunks + [c]) == (fs + Frames(rest + c).0, Frames(rest + c).1)
    decreases |chunks|
  {
    if chunks == [] {
      assert FeedAll(buf, [c]) == (Frames(buf + c).0 + [], Frames(buf + c).1);
      assert [] + [c] == [c] && [] + Frames(buf + c).0 == Frames(buf + c).0 + [];
    } else {
      var (gs, rest) := Frames(buf + chunks[0]);
      FeedAllSnoc(rest, chunks[1..], c);
      assert (chunks + [c])[1..] == chunks[1..] + [c];
      var (hs, rest') := FeedAll(rest, chunks[1..]);
      Assoc(gs, hs, Frames(rest' + c).0);
    }
  }

  /** A connection as it goes on: what the hub sends on it, the entry it starts from when the
      client names no cursor, the reader when it was opened, and the chunks that have arrived. */
  datatype Link = Link(items: seq<Item>, start: nat, base: Reader, got: seq<string>)

  /** A followed agent: `waiting` for its backfill page, then on one connection after another. */
  datatype Live = Live(reader: Reader, waiting: bool, link: Option<Link>)

  /** The page comes, a connection is opened, a chunk of it arrives, the consumer closes the feed. */
  datatype Happening = Resolved(page: seq<Entity>) | Connect(items: seq<Item>, start: nat) | Arrive(chunk: string) | Close

  function Begun(closer: Consumer): Live {
    Live(Reader(closer, false, None, [], []), true, None)
  }

  /** The events that the next chunk of a connection completes. */
  function Completed(codec: Codec, got: seq<string>, chunk: string): seq<Entity> {
    EventsOf(codec, Frames(FeedAll("", got).1 + chunk).0)
  }

  /** Whatever cannot happen leaves the feed as it is. */
  function Step(codec: Codec, w: Live, e: Happening): Live {
    match e
    case Resolved(page) =>
      if !w.waiting then w
      else if w.reader.closed then w.(waiting := false)
      else
        var shown := Backfilled(page);
        w.(waiting := false, reader := w.reader.(calls := w.reader.calls + [BackfillCall(shown.view)], since := shown.since))
    case Connect(items, start) =>
      if w.waiting || w.reader.closed then w else w.(link := Some(Link(items, start, w.reader, [])))
    case Arrive(chunk) =>
      if w.link.None? then w
      else
        var link := w.link.value;
        w.(reader := HandledBy(w.reader, Completed(codec, link.got, chunk)), link := Some(link.(got := link.got + [chunk])))
    case Close => w.(reader := w.reader.(closed := true))
  }

  function After(codec: Codec, w: Live, es: seq<Happening>): Live {
    if es == [] then w else Step(codec, After(codec, w, es[..|es| - 1]), es[|es| - 1])
  }

  lemma AfterSnoc(codec: Codec, w: Live, es: seq<Happening>, e: Happening)
    ensures After(codec, w, es + [e]) == Step(codec, After(codec, w, es), e)
  {
    assert (es + [e])[..|es|] == es;
  }

  class Follower {
    const codec: Codec
    const closer: Consumer
    var closed: bool
    var since: Option<int>
    var buf: string
    /** Events the stream reader hands to its own callback, guarded or not. */
    var emitted: seq<Entity>
    /** Callbacks the follower fires to its consumer. */
    var calls: seq<Call>
    ghost var waiting: bool
    ghost var link: Option<Link>

    /** The buffer holds what the chunks of this connection left over. */
    ghost predicate Valid()
      reads this
    {
      link.Some? ==> buf == FeedAll("", link.value.got).1
    }

    ghost function State(): Reader
      reads this
    {
      Reader(closer, closed, since, emitted, calls)
    }

    ghost function Now(): Live
      reads this
    {
      Live(State(), waiting, link)
    }

    constructor (codec: Codec, closer: Consumer)
      ensures this.codec == codec && this.closer == closer
      ensures Valid() && Now() == Begun(closer)
    {
      this.codec, this.closer := codec, closer;
      closed, since, buf, emitted, calls := false, None, "", [], [];
      waiting, link := true, None;
    }

    /** The backfill page resolves. A page that resolves after `close` shows nothing. */
    method HistoryResolved(page: seq<Entity>)
      requires Valid() && waiting
      modifies this`calls, this`since, this`waiting
      ensures Valid() && Now() == Step(codec, old(Now()), Resolved(page))
      ensures old(closed) ==> calls == old(calls) && since == old(since)
      ensures !old(closed) ==> since == Backfilled(page).since && ViewOf(calls) == Backfilled(page).view
    {
      waiting := false;
      if closed { return; }
      var ordered := SortBySeq(page);
      ViewSnoc(calls, BackfillCall(ordered));
      calls := calls + [BackfillCall(ordered)];
      since := if |ordered| > 0 then ordered[|ordered| - 1].seqNo else None;
    }

    method OnEvent(e: Entity)
      modifies this`calls, this`closed
      ensures calls == old(calls) + CallsFor(old(closed), closer, [e])
      ensures closed == (old(closed) || closer(e))
    {
      if !closed {
        assert Fired(closer, [e]) == [EventCall(e)];
        calls := calls + [EventCall(e)];
        if closer(e) { closed := true; }
      }
    }

    method Close()
      modifies this`closed
      ensures closed && Now() == Step(codec, old(Now()), Happening.Close)
    {
      closed := true;
    }

    /** One payload that parsed: the cursor moves on, and the guarded callback gets it. */
    method Emit(e: Entity)
      modifies this`since, this`emitted, this`calls, this`closed
      ensures Handled(old(State()), [e], State())
    {
      if e.seqNo.Some? { since := e.seqNo; }
      emitted := emitted + [e];
      OnEvent(e);
      AdvanceOne(old(since), e);
      ClosesOne(closer, e);
    }

    /** Every payload of one frame, in order; a line that does not parse is ignored. */
    method EmitFrame(frame: string)
      modifies this`since, this`emitted, this`calls, this`closed
      ensures Handled(old(State()), FrameEvents(codec, frame), State())
    {
      hide Handled;
      var payloads := DataPayloads(Lines(frame));
      ghost var start := State();
      ghost var done: seq<Entity> := [];
      HandledNothing(start);
      assert payloads[0..] == payloads && done + Parsed(codec, payloads) == Parsed(codec, payloads);
      for i := 0 to |payloads|
        invariant done + Parsed(codec, payloads[i..]) == Parsed(codec, payloads)
        invariant Handled(start, done, State())
      {
        assert payloads[i..][0] == payloads[i] && payloads[i..][1..] == payloads[i + 1..];
        var parsed := codec.parse(payloads[i]);
        if parsed.Some? {
          var e := parsed.value;
          ghost var before := State();
          Emit(e);
          HandleMore(start, done, before, [e], State());
          Assoc(done, [e], Parsed(codec, payloads[i + 1..]));
          done := done + [e];
        }
      }
      assert done + [] == done;
    }

    /** One chunk: every frame it completes is handled, the rest waits in the buffer. */
    method Drain(chunk: string)
      modifies this`buf, this`since, this`emitted, this`calls, this`closed
      ensures buf == Frames(old(buf) + chunk).1
      ensures Handled(old(State()), EventsOf(codec, Frames(old(buf) + chunk).0), State())
    {
      hide Handled, FrameEvents;
      ghost var start, all := State(), Frames(buf + chunk);
      ghost var taken: seq<string> := [];
      HandledNothing(start);
      buf := buf + chunk;
      var sep := SepFrom(buf, 0);
      assert [] + all.0 == all.0;
      while sep != |buf|
        invariant sep == SepFrom(buf, 0)
        invariant all == (taken + Frames(buf).0, Frames(buf).1)
        invariant Handled(start, EventsOf(codec, taken), State())
        decreases |buf|
      {
        FramesStep(buf, sep);
        Assoc(taken, [buf[..sep]], Frames(buf[sep + 2..]).0);
        var frame := buf[..sep];
        EventsOfSnoc(codec, taken, frame);
        buf := buf[sep + 2..];
        ghost var before := State();
        EmitFrame(frame);
        HandleMore(start, EventsOf(codec, taken), before, FrameEvents(codec, frame), State());
        taken := taken + [frame];
        sep := SepFrom(buf, 0);
      }
      assert Frames(buf) == ([], buf);
      assert taken + [] == taken;
    }

    /** A chunk of the connection arrives. */
    method Feed(chunk: string)
      requires Valid() && link.Some?
      modifies this
      ensures Valid() && link.Some? && Now() == Step(codec, old(Now()), Arrive(chunk))
      ensures buf == Frames(old(buf) + chunk).1
    {
      ghost var got := link.value.got;
      FeedAllSnoc("", got, chunk);
      hide Frames, FeedAll, EventsOf, HandledBy;
      Drain(chunk);
      assert Handled(old(State()), Completed(codec, got, chunk), State());
      link := Some(link.value.(got := got + [chunk]));
    }

    /** The reader starts on a connection with an empty buffer. */
    method StartReading(ghost items: seq<Item>, ghost start: nat)
      requires Valid() && !waiting && !closed
      modifies this`buf, this`link
      ensures Valid() && link.Some? && Now() == Step(codec, old(Now()), Connect(items, start))
    {
      buf := "";
      link := Some(Link(items, start, State(), []));
      assert FeedAll("", []).1 == "";
    }

    /** One connection: the buffer starts empty, and reading stops once the feed is closed.
        The consumer closes it while the reader waits for the chunks in `shut`, if not from
        inside a callback; a chunk that is waited for then is still read. */
    method ReadViaFetch(ghost items: seq<Item>, ghost start: nat, chunks: seq<string>, shut: set<nat>) returns (ghost n: nat)
      requires Valid() && !waiting && !closed
      modifies this
      ensures Valid() && n <= |chunks| && (n < |chunks| ==> closed)
      ensures Now() == After(codec, old(Now()), ReadingOf(items, start, chunks, shut, n))
    {
      hide Step, After, Frames, FeedAll;
      ghost var before := Now();
      AfterOne(codec, before, Connect(items, start));
      StartReading(items, start);
      var i := 0;
      while !closed && i < |chunks|
        invariant 0 <= i <= |chunks| && Valid() && link.Some?
        invariant Now() == After(codec, before, ReadingOf(items, start, chunks, shut, i))
      {
        ghost var so := ReadingOf(items, start, chunks, shut, i);
        if i in shut {
          AfterSnoc(codec, before, so, Happening.Close);
          so := so + [Happening.Close];
          Close();
        }
        AfterSnoc(codec, before, so, Arrive(chunks[i]));
        Feed(chunks[i]);
        i := i + 1;
      }
      n := i;
    }
  }

  lemma AfterOne(codec: Codec, w: Live, e: Happening)
    ensures After(codec, w, [e]) == Step(codec, w, e)
  {
    AfterSnoc(codec, w, [], e);
    assert [] + [e] == [e] && After(codec, w, []) == w;
  }

  /** What happens on a connection of which `n` chunks are read. */
  function ReadingOf(items: seq<Item>, start: nat, chunks: seq<string>, shut: set<nat>, n: nat): seq<Happening>
    requires n <= |chunks|
  {
    if n == 0 then [Connect(items, start)]
    else
      var so := ReadingOf(items, start, chunks, shut, n - 1);
      (if n - 1 in shut then so + [Close] else so) + [Arrive(chunks[n - 1])]
  }

  /** The call that closes is the last one fired. */
  lemma NothingAfterTheClosingCall(closer: Consumer, events: seq<Entity>)
    ensures var calls := Fired(closer, events);
            && (forall i | 0 <= i < |calls| :: calls[i].EventCall? && (i < |calls| - 1 ==> !closer(calls[i].e)))
            && (Closes(closer, events) ==> calls != [] && closer(calls[|calls| - 1].e))
  {
    var m := FiredIsAPrefix(closer, events);
    var shown := events[..m];
    forall i | 0 <= i < |EventCalls(shown)|
      ensures EventCalls(shown)[i] == EventCall(shown[i]) && shown[i] == events[i]
    {
    }
    hide Fired, EventCalls, Closes;
  }

  /** The callbacks of any feed, closed on the way or not, show a prefix of its events. */
  lemma FeedShowsAPrefix(closer: Consumer, calls: seq<Call>, events: seq<Entity>) returns (m: nat)
    ensures m <= |events| && ViewOf(calls + Fired(closer, events)) == AppendAll(ViewOf(calls), events[..m])
    ensures !Closes(closer, events) ==> m == |events|
  {
    m := FiredIsAPrefix(closer, events);
    ViewOfEventCalls(calls, events[..m]);
  }

  lemma {:induction false} ConcatPrefix(chunks: seq<string>, n: nat)
    requires n <= |chunks|
    ensures Concat(chunks[..n]) <= Concat(chunks)
  {
    if n > 0 {
      ConcatPrefix(chunks[1..], n - 1);
      assert chunks[..n][1..] == chunks[1..][..n - 1];
    }
  }

  lemma {:induction false} ServedTake(log: seq<Entity>, events: seq<Entity>, m: nat, from: nat, reached: nat)
    requires m <= |events| && Served(log, events, from, reached)
    ensures Served(log, events[..m], from, reached)
  {
    if m > 0 {
      var i :| from <= i <= reached && i < |log| && events[0] == log[i] &&
               Served(log, events[1..], from, if i == reached then reached + 1 else reached);
      ServedTake(log, events[1..], m - 1, from, if i == reached then reached + 1 else reached);
      assert events[..m][0] == log[i] && events[..m][1..] == events[1..][..m - 1];
    }
  }

  /** Reading one connection, cut anywhere and closed anywhere: what the consumer sees stays
      one stretch of the log, and a feed still open can resume from its cursor. */
  lemma ReadKeepsSegment(codec: Codec, log: seq<Entity>, s: Reader, c: Connection, n: nat, t: Reader, lo: nat, hi: nat)
    returns (lo': nat, hi': nat)
    requires Faithful(codec) && StrictlyIncreasing(log) && !s.closed
    requires Segment(log, ViewOf(s.calls), s.since, lo, hi) && FairAnswer(codec, log, s.since, c)
    requires n <= |c.chunks| && Handled(s, EventsOf(codec, FeedAll("", c.chunks[..n]).0), t)
    ensures lo' <= hi' <= |log| && ViewOf(t.calls) == log[lo'..hi']
    ensures !t.closed ==> Segment(log, ViewOf(t.calls), t.since, lo', hi')
    ensures ViewOf(s.calls) != [] ==> lo' == lo && hi <= hi'
  {
    hide Faithful, ViewOf, AppendEvent;
    ConcatPrefix(c.chunks, n);
    var k := ConnectionEvents(codec, c.items, c.chunks[..n]);
    var events := EventsOf(codec, FeedAll("", c.chunks[..n]).0);
    var from := if s.since.Some? then Behind(log, s.since.value) else c.start;
    ServedPrefix(log, c.items, k, from, from);
    lo' := if s.since.Some? then lo else c.start;
    var mid := if s.since.Some? then hi else c.start;
    assert ViewOf(s.calls) == log[lo'..mid];
    var m := FeedShowsAPrefix(s.closer, s.calls, events);
    ServedTake(log, events, m, from, from);
    hi' := AppendServed(log, ViewOf(s.calls), s.since, lo', mid, events[..m], from, from);
    assert !t.closed ==> events[..m] == events;
  }

  // ---- Reconnecting ------------------------------------------------------------

  const BASE := 1000
  const CEILING := 15000

  /** The delay after `n` failures in a row: doubling from the base up to the ceiling. */
  function Backoff(n: nat): (r: nat)
    ensures BASE <= r <= CEILING
  {
    if n == 0 then BASE else if Backoff(n - 1) * 2 < CEILING then Backoff(n - 1) * 2 else CEILING
  }

  /** One attempt: whether it errored, whether the consumer closed the feed during it or during
      the pause after it, and the random number drawn for that pause. */
  datatype Attempt = Attempt(errored: bool, closedReading: bool, closedPausing: bool, random: real)

  /** Failures in a row at the end. */
  function Streak(attempts: seq<Attempt>): nat {
    if attempts == [] || !attempts[|attempts| - 1].errored then 0 else 1 + Streak(attempts[..|attempts| - 1])
  }

  /** The delay due after attempt `k`: the base after a clean end, longer with every failure in a row. */
  function Due(attempts: seq<Attempt>, k: nat): nat
    requires k < |attempts|
  {
    if attempts[k].errored then Backoff(Streak(attempts[..k])) else BASE
  }

  /** Up to three tenths more than the delay. */
  function Jittered(wait: nat, random: real): real {
    wait as real + random * 0.3 * wait as real
  }

  predicate Within(pause: real, wait: nat) {
    wait as real <= pause < 1.3 * wait as real
  }

  lemma JitterIsWithin(wait: nat, random: real)
    requires 0.0 <= random < 1.0 && wait > 0
    ensures Within(Jittered(wait, random), wait)
  {
    var tenths := 0.3 * wait as real;
    assert random * 0.3 * wait as real == random * tenths;
    assert 0.0 <= random * tenths < tenths;
  }

  /** The `k`-th pause: after an attempt that the consumer did not close on, nor on the pause
      before it, for the delay due and its jitter. */
  predicate PausedRight(attempts: seq<Attempt>, waits: seq<real>, k: nat)
    requires k < |waits| <= |attempts|
  {
    && !attempts[k].closedReading && (k > 0 ==> !attempts[k - 1].closedPausing)
    && waits[k] == Jittered(Due(attempts, k), attempts[k].random)
    && Within(waits[k], Due(attempts, k))
  }

  /** The reconnect loop: a pause before every reconnect, and no attempt and no pause once the
      feed is closed. */
  method Run(attempts: seq<Attempt>) returns (waits: seq<real>)
    requires forall a | a in attempts :: 0.0 <= a.random < 1.0
    ensures |waits| <= |attempts|
    ensures forall k: nat | k < |waits| :: PausedRight(attempts, waits, k)
    ensures |waits| < |attempts| ==> attempts[|waits|].closedReading || (|waits| > 0 && attempts[|waits| - 1].closedPausing)
  {
    hide Jittered, Within;
    var closed, backoff := false, BASE;
    waits := [];
    while !closed && |waits| < |attempts|
      invariant |waits| <= |attempts| && backoff == Backoff(Streak(attempts[..|waits|]))
      invariant closed <==> |waits| > 0 && attempts[|waits| - 1].closedPausing
      invariant forall k: nat | k < |waits| :: PausedRight(attempts, waits, k)
      decreases |attempts| - |waits|
    {
      var a := attempts[|waits|];
      assert a in attempts;
      if a.closedReading { return; }
      var wait := if a.errored then backoff else BASE;
      JitterIsWithin(wait, a.random);
      ghost var so := waits;
      waits := waits + [Jittered(wait, a.random)];
      PausedOnce(attempts, so, waits);
      closed := a.closedPausing;
      backoff := if !a.errored then BASE else if backoff * 2 < CEILING then backoff * 2 else CEILING;
      assert attempts[..|waits|][..|so|] == attempts[..|so|];
    }
  }

  lemma PausedOnce(attempts: seq<Attempt>, waits: seq<real>, more: seq<real>)
    requires |waits| + 1 == |more| <= |attempts| && waits == more[..|waits|]
    requires forall k: nat | k < |waits| :: PausedRight(attempts, waits, k)
    requires PausedRight(attempts, more, |waits|)
    ensures forall k: nat | k < |more| :: PausedRight(attempts, more, k)
  {
    forall k: nat | k < |more|
      ensures PausedRight(attempts, more, k)
    {
      if k < |waits| { assert PausedRight(attempts, waits, k) && more[k] == waits[k]; }
    }
  }
}
