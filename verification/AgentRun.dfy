/** Every run of a followed agent: the page, connections, cuts and the consumer's close in any
    order. What is shown is one stretch of the log, and after the close nothing more is. */
module AgentRun {
  import opened Options
  import opened SseFraming
  import opened Text
  import opened AgentFeed
  import opened AgentFollower

  /** What the hub may do: the page is a stretch of the log in any order, a connection is answered
      from the cursor on with nothing skipped, and its chunks are a beginning of its text. */
  ghost predicate Fair(codec: Codec, log: seq<Entity>, w: Live, e: Happening)
    requires StrictlyIncreasing(log)
  {
    match e
    case Resolved(page) => w.waiting ==> IsStretch(log, page)
    case Connect(items, start) => !w.waiting && !w.reader.closed ==> FairAnswer(codec, log, w.reader.since, Connection(items, start, []))
    case Arrive(chunk) => w.link.Some? ==> Concat(w.link.value.got + [chunk]) <= WireText(codec, w.link.value.items)
    case Close => true
  }

  ghost predicate IsStretch(log: seq<Entity>, page: seq<Entity>) {
    exists a, b | 0 <= a <= b <= |log| :: multiset(page) == multiset(log[a..b])
  }

  ghost predicate FairRun(codec: Codec, log: seq<Entity>, w: Live, es: seq<Happening>)
    requires StrictlyIncreasing(log)
  {
    es == [] || (FairRun(codec, log, w, es[..|es| - 1]) && Fair(codec, log, After(codec, w, es[..|es| - 1]), es[|es| - 1]))
  }

  /** The consumer's view is one stretch of the log. */
  ghost predicate ShowsStretch(log: seq<Entity>, calls: seq<Call>) {
    exists lo, hi | 0 <= lo <= hi <= |log| :: ViewOf(calls) == log[lo..hi]
  }

  /** ... and the cursor is where an open feed can resume. */
  ghost predicate CanResume(log: seq<Entity>, r: Reader)
    requires StrictlyIncreasing(log)
  {
    exists lo: nat, hi: nat :: Segment(log, ViewOf(r.calls), r.since, lo, hi)
  }

  /** The connection was opened on a feed that could resume, is answered fairly, and as long as
      the feed is open the reader has handled all its chunks. */
  ghost predicate LinkOk(codec: Codec, log: seq<Entity>, r: Reader, k: Link)
    requires StrictlyIncreasing(log)
  {
    && !k.base.closed && CanResume(log, k.base)
    && FairAnswer(codec, log, k.base.since, Connection(k.items, k.start, k.got))
    && (!r.closed ==> Handled(k.base, EventsOf(codec, FeedAll("", k.got).0), r))
  }

  ghost predicate Inv(codec: Codec, log: seq<Entity>, w: Live)
    requires StrictlyIncreasing(log)
  {
    && ShowsStretch(log, w.reader.calls)
    && (w.waiting ==> w.reader.calls == [] && w.reader.since.None? && w.link.None?)
    && (w.link.None? && !w.reader.closed ==> CanResume(log, w.reader))
    && (w.link.Some? ==> LinkOk(codec, log, w.reader, w.link.value))
  }

  lemma WholeIsPrefix(chunks: seq<string>)
    ensures chunks[..|chunks|] == chunks
  {
  }

  /** What reading a connection so far shows. */
  lemma ReadSoFar(codec: Codec, log: seq<Entity>, k: Link, r: Reader)
    requires Faithful(codec) && StrictlyIncreasing(log) && !k.base.closed && CanResume(log, k.base)
    requires FairAnswer(codec, log, k.base.since, Connection(k.items, k.start, k.got))
    requires Handled(k.base, EventsOf(codec, FeedAll("", k.got).0), r)
    ensures ShowsStretch(log, r.calls) && (!r.closed ==> CanResume(log, r))
  {
    hide Faithful, FairAnswer, Handled, FeedAll, EventsOf;
    var lo: nat, hi: nat :| Segment(log, ViewOf(k.base.calls), k.base.since, lo, hi);
    WholeIsPrefix(k.got);
    var lo', hi' := ReadKeepsSegment(codec, log, k.base, Connection(k.items, k.start, k.got), |k.got|, r, lo, hi);
  }

  lemma OpenCanResume(codec: Codec, log: seq<Entity>, w: Live)
    requires Faithful(codec) && StrictlyIncreasing(log) && Inv(codec, log, w) && !w.reader.closed
    ensures CanResume(log, w.reader)
  {
    hide ShowsStretch, CanResume, Faithful;
    if w.link.Some? { ReadSoFar(codec, log, w.link.value, w.reader); }
  }

  lemma ResumableShows(log: seq<Entity>, r: Reader)
    requires StrictlyIncreasing(log) && CanResume(log, r)
    ensures ShowsStretch(log, r.calls)
  {
  }

  lemma ResolvedKeeps(codec: Codec, log: seq<Entity>, w: Live, page: seq<Entity>)
    requires StrictlyIncreasing(log) && Inv(codec, log, w) && Fair(codec, log, w, Resolved(page))
    ensures Inv(codec, log, Step(codec, w, Resolved(page)))
  {
    if w.waiting && !w.reader.closed {
      hide StrictlyIncreasing, ViewOf, Backfilled, LinkOk;
      var a, b :| 0 <= a <= b <= |log| && multiset(page) == multiset(log[a..b]);
      PageIsStretch(log, page, a, b);
      ViewSnoc(w.reader.calls, BackfillCall(Backfilled(page).view));
      var r := Step(codec, w, Resolved(page)).reader;
      assert Segment(log, ViewOf(r.calls), r.since, a, b);
      ResumableShows(log, r);
      hide ShowsStretch, CanResume;
    }
  }

  lemma NothingReadYet(codec: Codec, items: seq<Item>, r: Reader)
    ensures Concat([]) <= WireText(codec, items)
    ensures Handled(r, EventsOf(codec, FeedAll("", []).0), r)
  {
    assert FeedAll("", []).0 == [];
    HandledNothing(r);
  }

  lemma ConnectKeeps(codec: Codec, log: seq<Entity>, w: Live, items: seq<Item>, start: nat)
    requires Faithful(codec) && StrictlyIncreasing(log) && Inv(codec, log, w) && Fair(codec, log, w, Connect(items, start))
    ensures Inv(codec, log, Step(codec, w, Connect(items, start)))
  {
    if !w.waiting && !w.reader.closed {
      OpenCanResume(codec, log, w);
      NothingReadYet(codec, items, w.reader);
      hide Faithful, ShowsStretch, CanResume, Handled, FairAnswer;
    }
  }

  /** A chunk more of the same connection. */
  lemma ArriveHandled(codec: Codec, k: Link, r: Reader, chunk: string)
    requires Handled(k.base, EventsOf(codec, FeedAll("", k.got).0), r)
    ensures Handled(k.base, EventsOf(codec, FeedAll("", k.got + [chunk]).0), HandledBy(r, Completed(codec, k.got, chunk)))
  {
    FeedAllSnoc("", k.got, chunk);
    var rest := FeedAll("", k.got).1;
    EventsOfAppend(codec, FeedAll("", k.got).0, Frames(rest + chunk).0);
    HandleMore(k.base, EventsOf(codec, FeedAll("", k.got).0), r, Completed(codec, k.got, chunk), HandledBy(r, Completed(codec, k.got, chunk)));
  }

  lemma ClosedStaysSilent(r: Reader, events: seq<Entity>)
    requires r.closed
    ensures HandledBy(r, events).calls == r.calls && HandledBy(r, events).closed
  {
    assert r.calls + [] == r.calls;
  }

  lemma ArriveKeeps(codec: Codec, log: seq<Entity>, w: Live, chunk: string)
    requires Faithful(codec) && StrictlyIncreasing(log) && Inv(codec, log, w) && Fair(codec, log, w, Arrive(chunk))
    ensures Inv(codec, log, Step(codec, w, Arrive(chunk)))
  {
    if w.link.Some? {
      var k := w.link.value;
      var k', r := k.(got := k.got + [chunk]), HandledBy(w.reader, Completed(codec, k.got, chunk));
      assert FairAnswer(codec, log, k.base.since, Connection(k.items, k.start, k'.got));
      if w.reader.closed { ClosedStaysSilent(w.reader, Completed(codec, k.got, chunk)); } else { ArriveHandled(codec, k, w.reader, chunk); }
      hide Faithful, ShowsStretch, CanResume, Handled, HandledBy, FairAnswer, Completed;
      if !w.reader.closed { ReadSoFar(codec, log, k', r); }
    }
  }

  lemma StepKeeps(codec: Codec, log: seq<Entity>, w: Live, e: Happening)
    requires Faithful(codec) && StrictlyIncreasing(log) && Inv(codec, log, w) && Fair(codec, log, w, e)
    ensures Inv(codec, log, Step(codec, w, e))
  {
    match e
    case Resolved(page) => ResolvedKeeps(codec, log, w, page);
    case Connect(items, start) => ConnectKeeps(codec, log, w, items, start);
    case Arrive(chunk) => ArriveKeeps(codec, log, w, chunk);
    case Close => hide Faithful, ShowsStretch, CanResume, FairAnswer;
  }

  lemma BegunIsFine(codec: Codec, log: seq<Entity>, closer: Consumer)
    requires StrictlyIncreasing(log)
    ensures Inv(codec, log, Begun(closer))
  {
    assert ViewOf([]) == log[0..0];
    assert Segment(log, ViewOf([]), None, 0, 0);
  }

  lemma {:induction false} RunKeeps(codec: Codec, log: seq<Entity>, w: Live, es: seq<Happening>)
    requires Faithful(codec) && StrictlyIncreasing(log) && Inv(codec, log, w) && FairRun(codec, log, w, es)
    ensures Inv(codec, log, After(codec, w, es))
  {
    hide Faithful, Inv, Fair, Step;
    if es != [] {
      RunKeeps(codec, log, w, es[..|es| - 1]);
      StepKeeps(codec, log, After(codec, w, es[..|es| - 1]), es[|es| - 1]);
    }
  }

  // ---- The laws of every run ---------------------------------------------------------

  /** After the close no callback fires, whatever still happens. */
  lemma {:induction false} SilentAfterClose(codec: Codec, w: Live, es: seq<Happening>)
    requires w.reader.closed
    ensures After(codec, w, es).reader.closed && After(codec, w, es).reader.calls == w.reader.calls
  {
    hide HandledBy, Completed, Backfilled;
    if es != [] {
      SilentAfterClose(codec, w, es[..|es| - 1]);
      var before, e := After(codec, w, es[..|es| - 1]), es[|es| - 1];
      if e.Arrive? && before.link.Some? { ClosedStaysSilent(before.reader, Completed(codec, before.link.value.got, e.chunk)); }
    }
  }

  lemma {:induction false} AfterAppend(codec: Codec, w: Live, a: seq<Happening>, b: seq<Happening>)
    ensures After(codec, w, a + b) == After(codec, After(codec, w, a), b)
  {
    hide Step;
    if b == [] {
      assert a + b == a;
    } else {
      AfterAppend(codec, w, a, b[..|b| - 1]);
      assert (a + b)[..|a + b| - 1] == a + b[..|b| - 1];
    }
  }

  /** The stream reader alone would not be silent: after the close it still hands on what a chunk
      completes, and only the follower's guard keeps that from the consumer. */
  lemma ReaderHandsOn(codec: Codec, w: Live, chunk: string)
    requires w.link.Some? && w.reader.closed
    ensures var n := Step(codec, w, Arrive(chunk));
            && n.reader.calls == w.reader.calls
            && (n.reader.emitted == w.reader.emitted <==> Completed(codec, w.link.value.got, chunk) == [])
  {
    var more := Completed(codec, w.link.value.got, chunk);
    ClosedStaysSilent(w.reader, more);
    hide Completed;
    assert |HandledBy(w.reader, more).emitted| == |w.reader.emitted| + |more|;
    assert more == [] ==> w.reader.emitted + more == w.reader.emitted;
  }

  /** A live event never takes away what is shown. */
  lemma {:induction false} AppendGrows(view: seq<Entity>, events: seq<Entity>)
    ensures view <= AppendAll(view, events)
    decreases |events|
  {
    hide Seen;
    if events != [] { AppendGrows(AppendEvent(view, events[0]), events[1..]); }
  }

  lemma HandledGrows(r: Reader, events: seq<Entity>)
    ensures ViewOf(r.calls) <= ViewOf(HandledBy(r, events).calls)
  {
    if r.closed {
      ClosedStaysSilent(r, events);
    } else {
      var m := FeedShowsAPrefix(r.closer, r.calls, events);
      hide ViewOf;
      AppendGrows(ViewOf(r.calls), events[..m]);
    }
  }

  /** From the page on, what was shown stays shown. */
  lemma {:induction false} ShownStays(codec: Codec, w: Live, es: seq<Happening>)
    requires !w.waiting
    ensures !After(codec, w, es).waiting && ViewOf(w.reader.calls) <= ViewOf(After(codec, w, es).reader.calls)
  {
    hide HandledBy, Completed, ViewOf;
    if es != [] {
      ShownStays(codec, w, es[..|es| - 1]);
      var before, e := After(codec, w, es[..|es| - 1]), es[|es| - 1];
      if e.Arrive? && before.link.Some? { HandledGrows(before.reader, Completed(codec, before.link.value.got, e.chunk)); }
    }
  }

  /** Over every run, with the close at any moment or from inside a callback: the view is one
      stretch of the log, in order, nothing missing and nothing twice; the callbacks fired by
      the time of a close are all that ever fire; and a feed still open can resume. */
  lemma EveryRun(codec: Codec, log: seq<Entity>, closer: Consumer, es: seq<Happening>, k: nat)
    requires Faithful(codec) && StrictlyIncreasing(log) && FairRun(codec, log, Begun(closer), es) && k <= |es|
    ensures var w := After(codec, Begun(closer), es);
            ShowsStretch(log, w.reader.calls) && (!w.reader.closed ==> CanResume(log, w.reader))
    ensures After(codec, Begun(closer), es[..k]).reader.closed ==>
              After(codec, Begun(closer), es).reader.calls == After(codec, Begun(closer), es[..k]).reader.calls
  {
    hide Faithful, FairRun, After, Step, Begun, ShowsStretch, CanResume;
    BegunIsFine(codec, log, closer);
    RunKeeps(codec, log, Begun(closer), es);
    var w := After(codec, Begun(closer), es);
    if !w.reader.closed { OpenCanResume(codec, log, w); }
    var m := After(codec, Begun(closer), es[..k]);
    AfterAppend(codec, Begun(closer), es[..k], es[k..]);
    assert es[..k] + es[k..] == es;
    if m.reader.closed { SilentAfterClose(codec, m, es[k..]); }
    hide LinkOk;
  }
}
