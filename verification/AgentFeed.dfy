/** A followed agent: one backfill page, then a live tail that reconnects from its cursor,
    shown through a view that drops what it already has. */
module AgentFeed {
  import opened Options
  import opened SseFraming
  import opened Sorting
  import opened Text

  datatype Entity = Entity(seqNo: Option<int>, body: string)

  /** JSON as the client reads it and as the hub writes it. */
  datatype Codec = Codec(parse: string -> Option<Entity>, render: Entity -> string)

  /** The hub writes a one-line JSON object, and the client's parse undoes it. */
  ghost predicate Faithful(codec: Codec) {
    forall e: Entity ::
      && codec.parse(codec.render(e)) == Some(e)
      && codec.render(e) != "" && '\n' !in codec.render(e)
      && !IsSpace(codec.render(e)[0]) && !IsSpace(codec.render(e)[|codec.render(e)| - 1])
  }

  // A codec that keeps the promise: the newline and the backslash escaped, numbers in unary.

  function Escaped(body: string): string {
    if body == [] then []
    else (if body[0] == '\n' then ['\\', 'n'] else if body[0] == '\\' then ['\\', '\\'] else [body[0]]) + Escaped(body[1..])
  }

  function Ones(n: nat): string {
    seq(n, _ => '1')
  }

  function Mark(seqNo: Option<int>): string {
    match seqNo
    case None => ['n']
    case Some(k) => if k >= 0 then ['p'] + Ones(k) else ['m'] + Ones(-k)
  }

  function Rendered(e: Entity): string {
    ['{'] + Mark(e.seqNo) + [','] + Escaped(e.body) + ['}']
  }

  lemma {:induction false} EscapedApart(a: string, b: string)
    requires Escaped(a) == Escaped(b)
    ensures a == b && '\n' !in Escaped(a)
  {
    if a == [] {
      assert b == [];
    } else {
      var x, y := Escaped(a), Escaped(b);
      assert b != [];
      assert a[0] == b[0] by { assert x[0] == y[0] && (x[0] == '\\' ==> x[1] == y[1]); }
      var n := if a[0] == '\n' || a[0] == '\\' then 2 else 1;
      assert x[n..] == Escaped(a[1..]) && y[n..] == Escaped(b[1..]);
      EscapedApart(a[1..], b[1..]);
      assert a == [a[0]] + a[1..] && b == [b[0]] + b[1..];
    }
  }

  lemma RenderedApart(e: Entity, f: Entity)
    requires Rendered(e) == Rendered(f)
    ensures e == f && '\n' !in Rendered(e)
  {
    var s, m, n := Rendered(e), Mark(e.seqNo), Mark(f.seqNo);
    MarkIsPlain(e.seqNo);
    MarkIsPlain(f.seqNo);
    assert s[1 + |m|] == ',' && forall i | 0 <= i < |m| :: s[1 + i] == m[i];
    assert s[1 + |n|] == ',' && forall i | 0 <= i < |n| :: s[1 + i] == n[i];
    assert |m| == |n|;
    assert m == s[1..1 + |m|] == n;
    assert Escaped(e.body) == s[2 + |m|..|s| - 1] == Escaped(f.body);
    EscapedApart(e.body, f.body);
    MarksApart(e.seqNo, f.seqNo);
  }

  lemma MarkIsPlain(k: Option<int>)
    ensures ',' !in Mark(k) && '\n' !in Mark(k) && |Mark(k)| > 0
  {
  }

  lemma MarksApart(k: Option<int>, l: Option<int>)
    requires Mark(k) == Mark(l)
    ensures k == l
  {
    assert Mark(k)[0] == Mark(l)[0] && |Mark(k)| == |Mark(l)|;
  }

  /** The hub's promise can be kept. */
  lemma SomeCodecIsFaithful()
    ensures exists codec :: Faithful(codec)
  {
    var total: string -> Option<Entity> := s => if exists e :: Rendered(e) == s then Some(Unrendered(s)) else None;
    var codec := Codec(total, Rendered);
    forall e: Entity
      ensures codec.parse(codec.render(e)) == Some(e)
      ensures codec.render(e) != "" && '\n' !in codec.render(e)
      ensures !IsSpace(codec.render(e)[0]) && !IsSpace(codec.render(e)[|codec.render(e)| - 1])
    {
      RenderedApart(e, e);
      RenderedApart(e, Unrendered(Rendered(e)));
    }
    assert Faithful(codec);
  }

  ghost function Unrendered(s: string): (e: Entity)
    requires exists e :: Rendered(e) == s
    ensures Rendered(e) == s
  {
    var e :| Rendered(e) == s;
    e
  }

  /** The payloads that parse, in order. */
  function Parsed(codec: Codec, payloads: seq<string>): seq<Entity> {
    if payloads == [] then []
    else
      var rest := Parsed(codec, payloads[1..]);
      match codec.parse(payloads[0])
      case Some(e) => [e] + rest
      case None => rest
  }

  function FrameEvents(codec: Codec, frame: string): seq<Entity> {
    Parsed(codec, DataPayloads(Lines(frame)))
  }

  function EventsOf(codec: Codec, frames: seq<string>): seq<Entity> {
    if frames == [] then [] else FrameEvents(codec, frames[0]) + EventsOf(codec, frames[1..])
  }

  /** The cursor follows every event that has a sequence number. */
  function Advance(since: Option<int>, events: seq<Entity>): Option<int>
    decreases |events|
  {
    if events == [] then since
    else Advance(if events[0].seqNo.Some? then events[0].seqNo else since, events[1..])
  }

  predicate Seen(view: seq<Entity>, e: Entity) {
    e.seqNo.Some? && exists p | p in view :: p.seqNo == e.seqNo
  }

  function AppendEvent(view: seq<Entity>, e: Entity): seq<Entity> {
    if Seen(view, e) then view else view + [e]
  }

  function AppendAll(view: seq<Entity>, events: seq<Entity>): seq<Entity>
    decreases |events|
  {
    if events == [] then view else AppendAll(AppendEvent(view, events[0]), events[1..])
  }

  /** The events without a number, in order. */
  function Numberless(events: seq<Entity>): seq<Entity> {
    if events == [] then []
    else Numberless(events[..|events| - 1]) + if events[|events| - 1].seqNo.None? then [events[|events| - 1]] else []
  }

  predicate NumbersDistinct(events: seq<Entity>) {
    forall i, j | 0 <= i < j < |events| && events[i].seqNo.Some? :: events[i].seqNo != events[j].seqNo
  }

  lemma {:induction false} NumberlessAppend(a: seq<Entity>, b: seq<Entity>)
    ensures Numberless(a + b) == Numberless(a) + Numberless(b)
  {
    if b == [] {
      assert a + b == a;
    } else {
      assert (a + b)[..|a + b| - 1] == a + b[..|b| - 1];
      NumberlessAppend(a, b[..|b| - 1]);
    }
  }

  lemma AppendKeepsOnce(view: seq<Entity>, e: Entity)
    ensures view <= AppendEvent(view, e)
    ensures e.seqNo.None? ==> AppendEvent(view, e) == view + [e]
    ensures e.seqNo.Some? ==> exists p | p in AppendEvent(view, e) :: p.seqNo == e.seqNo
    ensures NumbersDistinct(view) ==> NumbersDistinct(AppendEvent(view, e))
    ensures Numberless(AppendEvent(view, e)) == Numberless(view) + Numberless([e])
  {
    assert e.seqNo.Some? ==> Numberless([e]) == [];
    NumberlessAppend(view, [e]);
    hide Numberless;
  }

  /** Whatever arrives, in whatever order: what is shown stays, every event without a number is
      appended each time it comes, in order, and every number that came is shown, once. */
  lemma {:induction false} AppendKeeps(view: seq<Entity>, events: seq<Entity>)
    ensures view <= AppendAll(view, events)
    ensures Numberless(AppendAll(view, events)) == Numberless(view) + Numberless(events)
    ensures forall e | e in events && e.seqNo.Some? :: exists p | p in AppendAll(view, events) :: p.seqNo == e.seqNo
    ensures NumbersDistinct(view) ==> NumbersDistinct(AppendAll(view, events))
    decreases |events|
  {
    hide AppendEvent, NumbersDistinct, Numberless;
    if events == [] {
      assert Numberless([]) == [] by { NumberlessOfNone(); }
    } else {
      var next := AppendEvent(view, events[0]);
      AppendKeepsOnce(view, events[0]);
      AppendKeeps(next, events[1..]);
      assert events == [events[0]] + events[1..];
      NumberlessAppend([events[0]], events[1..]);
      assert forall p | p in next :: p in AppendAll(next, events[1..]);
    }
  }

  lemma NumberlessOfNone()
    ensures Numberless([]) == []
  {
  }

  // ---- The hub's side ---------------------------------------------------------

  datatype Item = Ping | Event(e: Entity)

  function FrameOf(codec: Codec, i: Item): string {
    match i
    case Ping => ": ping"
    case Event(e) => "data: " + codec.render(e)
  }

  /** The text of a connection: one frame an item, each closed by a blank line. */
  function WireText(codec: Codec, items: seq<Item>): string {
    if items == [] then "" else FrameOf(codec, items[0]) + "\n\n" + WireText(codec, items[1..])
  }

  function ItemEvents(items: seq<Item>): seq<Entity> {
    if items == [] then []
    else if items[0].Event? then [items[0].e] + ItemEvents(items[1..])
    else ItemEvents(items[1..])
  }

  predicate StrictlyIncreasing(log: seq<Entity>) {
    && (forall i | 0 <= i < |log| :: log[i].seqNo.Some?)
    && (forall i, j | 0 <= i < j < |log| :: log[i].seqNo.value < log[j].seqNo.value)
  }

  /** How many entries of the log a cursor has behind it. */
  function Behind(log: seq<Entity>, since: int): (n: nat)
    requires StrictlyIncreasing(log)
    ensures n <= |log|
    ensures forall i | 0 <= i < |log| :: log[i].seqNo.value <= since <==> i < n
  {
    if log == [] then 0
    else if log[|log| - 1].seqNo.value <= since then |log|
    else Behind(log[..|log| - 1], since)
  }

  /** What the hub may send from entry `from` on when it has sent entries up to `reached`:
      nothing skipped, though an entry may come twice (the hub subscribes to the live bus
      before it reads the backlog, so the two overlap). */
  predicate Served(log: seq<Entity>, events: seq<Entity>, from: nat, reached: nat) {
    if events == [] then true
    else exists i | from <= i <= reached && i < |log| ::
           events[0] == log[i] && Served(log, events[1..], from, if i == reached then reached + 1 else reached)
  }

  // ---- The hub's backlog ------------------------------------------------------

  const BACKLOG := 500

  /** What the hub sends to a client that has `from` entries: at most 500 of the `l1` there are
      when it reads the log, then those published since it subscribed, when there were `l0`. */
  function HubAnswer(log: seq<Entity>, from: nat, l0: nat, l1: nat, m: nat): seq<Entity>
    requires from <= l0 <= l1 <= |log| && l0 <= m <= |log|
  {
    log[from..if from + BACKLOG < l1 then from + BACKLOG else l1] + log[l0..m]
  }

  lemma OneIndex(log: seq<Entity>, i: nat, j: nat)
    requires StrictlyIncreasing(log) && i < |log| && j < |log|
    ensures log[i] == log[j] <==> i == j
  {
    if i < j {
      assert log[i].seqNo.value < log[j].seqNo.value;
    } else if j < i {
      assert log[j].seqNo.value < log[i].seqNo.value;
    }
  }

  /** A stretch sent in order leads to its end. */
  lemma {:induction false} ServedStretch(log: seq<Entity>, from: nat, a: nat, b: nat, rest: seq<Entity>)
    requires StrictlyIncreasing(log) && from <= a <= b <= |log|
    ensures Served(log, log[a..b] + rest, from, a) <==> Served(log, rest, from, b)
    decreases b - a
  {
    if a == b {
      assert log[a..b] + rest == rest;
    } else {
      var events := log[a..b] + rest;
      assert events[0] == log[a] && events[1..] == log[a + 1..b] + rest;
      ServedStretch(log, from, a + 1, b, rest);
      forall i: nat | i < |log|
        ensures events[0] == log[i] <==> i == a
      {
        OneIndex(log, i, a);
      }
    }
  }

  /** Entries that follow on, or overlap what was sent, are a fair continuation. */
  lemma {:induction false} ServedLive(log: seq<Entity>, from: nat, l0: nat, m: nat, reached: nat)
    requires StrictlyIncreasing(log) && from <= l0 <= m <= |log|
    ensures Served(log, log[l0..m], from, reached) <==> l0 == m || l0 <= reached
    decreases m - l0
  {
    if l0 < m {
      var events := log[l0..m];
      assert events[0] == log[l0] && events[1..] == log[l0 + 1..m];
      if l0 <= reached {
        ServedLive(log, from, l0 + 1, m, if l0 == reached then reached + 1 else reached);
      }
      forall i: nat | i < |log|
        ensures events[0] == log[i] <==> i == l0
      {
        OneIndex(log, i, l0);
      }
    }
  }

  /** The hub skips nothing exactly when at most 500 entries were missing when the client
      subscribed, or nothing is published while it listens. */
  lemma BacklogCapExactly(log: seq<Entity>, from: nat, l0: nat, l1: nat, m: nat)
    requires StrictlyIncreasing(log) && from <= l0 <= l1 <= |log| && l0 <= m <= |log|
    ensures Served(log, HubAnswer(log, from, l0, l1, m), from, from) <==> l0 <= from + BACKLOG || l0 == m
  {
    var r := if from + BACKLOG < l1 then from + BACKLOG else l1;
    hide Served, StrictlyIncreasing;
    ServedStretch(log, from, from, r, log[l0..m]);
    ServedLive(log, from, l0, m, r);
  }

  // ---- Cutting a connection ---------------------------------------------------

  lemma FrameHasNoSeparator(codec: Codec, i: Item)
    requires Faithful(codec)
    ensures var f := FrameOf(codec, i); f != "" && '\n' !in f
  {
  }

  /** The first frame of a text that starts with one. */
  lemma FramesOfFirst(frame: string, rest: string)
    requires '\n' !in frame
    ensures var s := frame + "\n\n" + rest;
            Frames(s) == ([frame] + Frames(rest).0, Frames(rest).1)
  {
    var s := frame + "\n\n" + rest;
    assert s[|frame|] == '\n' && s[|frame| + 1] == '\n';
    var i := SepFrom(s, 0);
    assert forall j | 0 <= j < |frame| :: s[j] == frame[j];
    assert i == |frame|;
    FramesStep(s, i);
    assert s[..i] == frame && s[i + 2..] == rest;
  }

  /** A text cut before its first blank line yields no frame. */
  lemma FramesOfCut(frame: string, p: string)
    requires '\n' !in frame && p <= frame + "\n"
    ensures Frames(p) == ([], p)
  {
    assert forall j | 0 <= j < |p| && j < |frame| :: p[j] == frame[j];
    assert SepFrom(p, 0) == |p|;
  }

  function FramesOfItems(codec: Codec, items: seq<Item>): seq<string> {
    if items == [] then [] else [FrameOf(codec, items[0])] + FramesOfItems(codec, items[1..])
  }

  /** A prefix of one framed text and more stops inside the frame or goes past its blank line. */
  lemma CutPoint(frame: string, rest: string, p: string)
    requires p <= frame + "\n\n" + rest
    ensures |p| < |frame| + 2 ==> p <= frame + "\n"
    ensures |p| >= |frame| + 2 ==> p == frame + "\n\n" + p[|frame| + 2..] && p[|frame| + 2..] <= rest
    ensures p == frame + "\n\n" + rest ==> |p| >= |frame| + 2 && p[|frame| + 2..] == rest
  {
    var s := frame + "\n\n" + rest;
    assert p == s[..|p|];
    if |p| >= |frame| + 2 {
      assert s[..|p|] == frame + "\n\n" + rest[..|p| - |frame| - 2];
    } else {
      assert s[..|p|] == (frame + "\n")[..|p|];
    }
  }

  lemma OneItemMore(codec: Codec, items: seq<Item>, j: nat)
    requires items != [] && j <= |items| - 1
    ensures FramesOfItems(codec, items[..j + 1]) == [FrameOf(codec, items[0])] + FramesOfItems(codec, items[1..][..j])
  {
    hide FrameOf;
    assert items[..j + 1][1..] == items[1..][..j] && items[..j + 1][0] == items[0];
  }

  /** However a connection is cut, the frames taken are those of the items that got through whole. */
  lemma {:induction false} CutFrames(codec: Codec, items: seq<Item>, p: string) returns (k: nat)
    requires Faithful(codec) && p <= WireText(codec, items)
    ensures k <= |items| && Frames(p).0 == FramesOfItems(codec, items[..k])
    ensures p == WireText(codec, items) ==> k == |items|
  {
    if items == [] {
      k := 0;
    } else {
      var frame, rest := FrameOf(codec, items[0]), WireText(codec, items[1..]);
      assert WireText(codec, items) == frame + "\n\n" + rest;
      hide Faithful, Frames, FrameOf, WireText;
      FrameHasNoSeparator(codec, items[0]);
      CutPoint(frame, rest, p);
      if |p| < |frame| + 2 {
        FramesOfCut(frame, p);
        k := 0;
      } else {
        hide FramesOfItems;
        var j := CutFrames(codec, items[1..], p[|frame| + 2..]);
        FramesOfFirst(frame, p[|frame| + 2..]);
        OneItemMore(codec, items, j);
        k := j + 1;
      }
    }
  }

  lemma {:induction false} TrimEndKeeps(x: string)
    requires x != "" && !IsSpace(x[|x| - 1])
    ensures TrimEnd(x) == x
  {
  }

  lemma TrimSpaced(x: string)
    requires x != "" && !IsSpace(x[0]) && !IsSpace(x[|x| - 1])
    ensures Trim(" " + x) == x
  {
    assert IsSpace(' ') && (" " + x)[0] == ' ' && (" " + x)[1..] == x;
    assert TrimStart(" " + x) == TrimStart(x) == x;
    TrimEndKeeps(x);
  }

  lemma PayloadOf(v: string)
    requires Trim(v) != ""
    ensures DataPayloads(["data:" + v]) == [Trim(v)]
  {
    hide Trim;
    var f := "data:" + v;
    assert f[..5] == "data:" && f[5..] == v;
    var one := [f];
    assert one[1..] == [];
  }

  /** The payload of a data line is what follows the colon and the space. */
  lemma DataLineReadBack(x: string)
    requires x != "" && !IsSpace(x[0]) && !IsSpace(x[|x| - 1])
    ensures DataPayloads(["data: " + x]) == [x]
  {
    TrimSpaced(x);
    hide IsSpace, Trim;
    var spaced := " " + x;
    assert "data: " + x == "data:" + spaced;
    assert spaced != "";
    PayloadOf(spaced);
  }

  lemma PingHasNoData()
    ensures DataPayloads([": ping"]) == []
  {
    var f := ": ping";
    assert f[..5][0] == ':' && "data:"[0] == 'd';
    var one := [f];
    assert one[1..] == [];
  }

  /** The client reads back from a frame exactly what the hub put in it. */
  lemma FrameReadBack(codec: Codec, i: Item)
    requires Faithful(codec)
    ensures FrameEvents(codec, FrameOf(codec, i)) == ItemEvents([i])
  {
    var f := FrameOf(codec, i);
    FrameHasNoSeparator(codec, i);
    OneLine(f);
    match i
    case Ping => PingHasNoData();
    case Event(e) =>
      var x := codec.render(e);
      DataLineReadBack(x);
      hide DataPayloads, IsSpace;
      var one := [x];
      assert one[1..] == [] && Parsed(codec, one) == [e];
  }

  /** The terminal reader recovers the same text from the same frame, by its own rules. */
  lemma TerminalReadBack(codec: Codec, i: Item)
    requires Faithful(codec)
    ensures ExtractData(FrameOf(codec, i)) == if i.Event? then Some(codec.render(i.e)) else None
  {
    var f := FrameOf(codec, i);
    FrameHasNoSeparator(codec, i);
    assert LineEnd(f, 0) == |f|;
    assert Lines(f) == [f];
    match i
    case Ping =>
      assert Chomp(f) == f && f[0] == ':';
      assert DataValues([f]) == [];
    case Event(e) =>
      var x := codec.render(e);
      assert f[|f| - 1] == x[|x| - 1];
      assert Chomp(f) == f && f[..5] == "data:" && f[5..] == " " + x && (" " + x)[1..] == x;
      assert DataValues([f]) == [x];
  }

  lemma {:induction false} ItemsReadBack(codec: Codec, items: seq<Item>)
    requires Faithful(codec)
    ensures EventsOf(codec, FramesOfItems(codec, items)) == ItemEvents(items)
  {
    hide Faithful, FrameOf, FrameEvents;
    if items != [] {
      FrameReadBack(codec, items[0]);
      ItemsReadBack(codec, items[1..]);
      var frames := FramesOfItems(codec, items);
      assert frames[0] == FrameOf(codec, items[0]) && frames[1..] == FramesOfItems(codec, items[1..]);
      var one := [items[0]];
      assert one[1..] == [];
    }
  }

  lemma SepOfNothing()
    ensures SepFrom("", 0) == 0
  {
  }

  /** What one connection hands on: the events of the items that got through whole, however
      the text was chunked and wherever it was cut. */
  lemma ConnectionEvents(codec: Codec, items: seq<Item>, chunks: seq<string>) returns (k: nat)
    requires Faithful(codec) && Concat(chunks) <= WireText(codec, items)
    ensures k <= |items| && EventsOf(codec, FeedAll("", chunks).0) == ItemEvents(items[..k])
    ensures Concat(chunks) == WireText(codec, items) ==> k == |items|
  {
    hide Faithful, Frames, FeedAll, WireText, EventsOf, FramesOfItems, ItemEvents, Concat;
    SepOfNothing();
    FramingIsChunkIndependent("", chunks);
    assert "" + Concat(chunks) == Concat(chunks);
    k := CutFrames(codec, items, Concat(chunks));
    ItemsReadBack(codec, items[..k]);
  }

  // ---- The view over a run ----------------------------------------------------

  lemma {:induction false} ServedPrefix(log: seq<Entity>, items: seq<Item>, k: nat, from: nat, reached: nat)
    requires k <= |items| && Served(log, ItemEvents(items), from, reached)
    ensures Served(log, ItemEvents(items[..k]), from, reached)
  {
    if k > 0 {
      assert items[..k][1..] == items[1..][..k - 1];
      if items[0].Event? {
        var events := ItemEvents(items);
        var i :| from <= i <= reached && i < |log| && events[0] == log[i] &&
                 Served(log, events[1..], from, if i == reached then reached + 1 else reached);
        ServedPrefix(log, items[1..], k - 1, from, if i == reached then reached + 1 else reached);
        var cut := ItemEvents(items[..k]);
        assert cut[0] == log[i] && cut[1..] == ItemEvents(items[1..][..k - 1]);
      } else {
        ServedPrefix(log, items[1..], k - 1, from, reached);
      }
    }
  }

  /** The view is the stretch `lo..hi` of the log and the cursor is inside it. */
  predicate Segment(log: seq<Entity>, view: seq<Entity>, since: Option<int>, lo: nat, hi: nat)
    requires StrictlyIncreasing(log)
  {
    && lo <= hi <= |log| && view == log[lo..hi]
    && (since.Some? ==> lo <= Behind(log, since.value) <= hi)
    && (since.None? ==> lo == hi)
  }

  lemma BehindAt(log: seq<Entity>, i: nat)
    requires StrictlyIncreasing(log) && i < |log|
    ensures Behind(log, log[i].seqNo.value) == i + 1
  {
    var n := Behind(log, log[i].seqNo.value);
    assert i < n;
    assert i + 1 < |log| ==> log[i].seqNo.value < log[i + 1].seqNo.value;
  }

  /** One event of a gap-free answer: a repeat is dropped, the next one extends the stretch. */
  lemma AppendOne(log: seq<Entity>, view: seq<Entity>, lo: nat, hi: nat, i: nat)
    requires StrictlyIncreasing(log) && lo <= hi <= |log| && view == log[lo..hi]
    requires lo <= i <= hi && i < |log|
    ensures AppendEvent(view, log[i]) == log[lo..if i == hi then hi + 1 else hi]
  {
    if i < hi {
      assert view[i - lo] == log[i];
    } else {
      forall p | p in view
        ensures p.seqNo != log[i].seqNo
      {
        var j :| 0 <= j < |view| && view[j] == p;
        assert p == log[lo + j];
      }
    }
  }

  /** What one more event of a gap-free answer does to the stretch and the cursor. */
  lemma OneServed(log: seq<Entity>, view: seq<Entity>, since: Option<int>, lo: nat, hi: nat, i: nat)
    requires StrictlyIncreasing(log) && Segment(log, view, since, lo, hi) && lo <= i <= hi && i < |log|
    ensures Segment(log, AppendEvent(view, log[i]), log[i].seqNo, lo, if i == hi then hi + 1 else hi)
  {
    AppendOne(log, view, lo, hi, i);
    BehindAt(log, i);
    hide AppendEvent, Behind;
  }

  /** Which entry the first event of an answer is. */
  lemma FirstServed(log: seq<Entity>, events: seq<Entity>, from: nat, reached: nat) returns (i: nat)
    requires StrictlyIncreasing(log) && events != [] && Served(log, events, from, reached)
    ensures from <= i <= reached && i < |log| && events[0] == log[i] && log[i].seqNo.Some?
    ensures Served(log, events[1..], from, if i == reached then reached + 1 else reached)
  {
    i :| from <= i <= reached && i < |log| && events[0] == log[i] &&
         Served(log, events[1..], from, if i == reached then reached + 1 else reached);
  }

  lemma {:induction false} AppendServed(log: seq<Entity>, view: seq<Entity>, since: Option<int>, lo: nat, hi: nat,
                                        events: seq<Entity>, from: nat, reached: nat) returns (hi': nat)
    requires StrictlyIncreasing(log) && Segment(log, view, since, lo, hi)
    requires lo <= from <= reached <= hi && Served(log, events, from, reached)
    ensures hi <= hi' && Segment(log, AppendAll(view, events), Advance(since, events), lo, hi')
    ensures forall e | e in events :: e in AppendAll(view, events)
    decreases |events|
  {
    hide StrictlyIncreasing, Segment, AppendEvent, Served;
    if events == [] {
      hi' := hi;
    } else {
      var i := FirstServed(log, events, from, reached);
      var rest := events[1..];
      OneServed(log, view, since, lo, hi, i);
      hi' := AppendServed(log, AppendEvent(view, log[i]), log[i].seqNo, lo, if i == hi then hi + 1 else hi, rest, from,
                          if i == reached then reached + 1 else reached);
      AppendFirst(view, since, events);
      InSegment(log, AppendAll(view, events), Advance(since, events), lo, hi', i);
    }
  }

  lemma AppendFirst(view: seq<Entity>, since: Option<int>, events: seq<Entity>)
    requires events != [] && events[0].seqNo.Some?
    ensures AppendAll(view, events) == AppendAll(AppendEvent(view, events[0]), events[1..])
    ensures Advance(since, events) == Advance(events[0].seqNo, events[1..])
    ensures forall e | e in events :: e == events[0] || e in events[1..]
  {
    assert events == [events[0]] + events[1..];
  }

  lemma InSegment(log: seq<Entity>, view: seq<Entity>, since: Option<int>, lo: nat, hi: nat, i: nat)
    requires StrictlyIncreasing(log) && Segment(log, view, since, lo, hi) && lo <= i < hi
    ensures log[i] in view
  {
    assert view[i - lo] == log[i];
  }

  /** A connection: what the hub sends on it, the entry it starts from when the client names
      no cursor, and the chunks of it that arrive before it is cut. */
  datatype Connection = Connection(items: seq<Item>, start: nat, chunks: seq<string>)

  predicate FairAnswer(codec: Codec, log: seq<Entity>, since: Option<int>, c: Connection)
    requires StrictlyIncreasing(log)
  {
    var from := if since.Some? then Behind(log, since.value) else c.start;
    Concat(c.chunks) <= WireText(codec, c.items) && from <= |log| && Served(log, ItemEvents(c.items), from, from)
  }

  datatype Feed = Feed(view: seq<Entity>, since: Option<int>)

  /** A connection starts with an empty buffer, so a frame cut short is forgotten. */
  function Connected(codec: Codec, f: Feed, c: Connection): Feed {
    var events := EventsOf(codec, FeedAll("", c.chunks).0);
    Feed(AppendAll(f.view, events), Advance(f.since, events))
  }

  function Reconnected(codec: Codec, f: Feed, cs: seq<Connection>): Feed {
    if cs == [] then f else Connected(codec, Reconnected(codec, f, cs[..|cs| - 1]), cs[|cs| - 1])
  }

  lemma ConnectionKeepsSegment(codec: Codec, log: seq<Entity>, f: Feed, c: Connection, lo: nat, hi: nat)
    returns (lo': nat, hi': nat)
    requires Faithful(codec) && StrictlyIncreasing(log) && Segment(log, f.view, f.since, lo, hi)
    requires FairAnswer(codec, log, f.since, c)
    ensures var f' := Connected(codec, f, c); Segment(log, f'.view, f'.since, lo', hi')
    ensures f.view != [] ==> lo' == lo && hi <= hi'
    ensures var events := EventsOf(codec, FeedAll("", c.chunks).0);
            forall e | e in events :: e in Connected(codec, f, c).view
    ensures Concat(c.chunks) == WireText(codec, c.items) ==>
              forall e | e in ItemEvents(c.items) :: e in Connected(codec, f, c).view
  {
    var k := ConnectionEvents(codec, c.items, c.chunks);
    var from := if f.since.Some? then Behind(log, f.since.value) else c.start;
    ServedPrefix(log, c.items, k, from, from);
    lo' := if f.since.Some? then lo else c.start;
    var mid := if f.since.Some? then hi else c.start;
    assert f.view == log[lo'..mid];
    hi' := AppendServed(log, f.view, f.since, lo', mid, ItemEvents(c.items[..k]), from, from);
    assert Concat(c.chunks) == WireText(codec, c.items) ==> c.items[..k] == c.items;
  }

  // ---- Backfill ----------------------------------------------------------------

  function Key(e: Entity): int {
    e.seqNo.GetOr(0)
  }

  /** The stable sort of the page, ascending by sequence number. */
  function SortBySeq(events: seq<Entity>): seq<Entity> {
    SortBy(events, Key)
  }

  predicate Ordered(s: seq<Entity>) {
    forall i, j | 0 <= i < j < |s| :: Key(s[i]) <= Key(s[j])
  }

  lemma TailOf<T>(s: seq<T>)
    requires s != []
    ensures multiset(s[1..]) == multiset(s) - multiset{s[0]}
  {
    assert s == [s[0]] + s[1..];
  }

  lemma SameHead(a: seq<Entity>, b: seq<Entity>)
    requires Ordered(a) && StrictlyIncreasing(b) && multiset(a) == multiset(b) && b != []
    ensures a != [] && a[0] == b[0]
  {
    assert forall x | 0 < x < |b| :: Key(b[0]) < Key(b[x]);
    assert b[0] in multiset(a);
    var j :| 0 <= j < |a| && a[j] == b[0];
    assert a[0] in multiset(b);
    var i :| 0 <= i < |b| && b[i] == a[0];
    assert Key(a[0]) <= Key(a[j]);
  }

  /** An ascending arrangement of a strictly increasing list is that list. */
  lemma {:induction false} OneArrangement(a: seq<Entity>, b: seq<Entity>)
    requires Ordered(a) && StrictlyIncreasing(b) && multiset(a) == multiset(b)
    ensures a == b
  {
    hide Ordered, StrictlyIncreasing;
    if b == [] {
      assert |multiset(a)| == |a|;
    } else {
      SameHead(a, b);
      TailOf(a);
      TailOf(b);
      TailsStayOrdered(a, b);
      OneArrangement(a[1..], b[1..]);
      assert a == [a[0]] + a[1..] && b == [b[0]] + b[1..];
    }
  }

  lemma TailsStayOrdered(a: seq<Entity>, b: seq<Entity>)
    requires Ordered(a) && StrictlyIncreasing(b) && a != [] && b != []
    ensures Ordered(a[1..]) && StrictlyIncreasing(b[1..])
  {
  }

  function Backfilled(page: seq<Entity>): Feed {
    var ordered := SortBySeq(page);
    Feed(ordered, if ordered == [] then None else ordered[|ordered| - 1].seqNo)
  }

  lemma BackfillIsTheStretch(log: seq<Entity>, page: seq<Entity>, a: nat, b: nat)
    requires StrictlyIncreasing(log) && a <= b <= |log| && multiset(page) == multiset(log[a..b])
    ensures SortBySeq(page) == log[a..b]
  {
    SortIsOrdered(page);
    StretchIncreases(log, a, b);
    hide SortBySeq, StrictlyIncreasing, Ordered;
    OneArrangement(SortBySeq(page), log[a..b]);
  }

  lemma SortIsOrdered(page: seq<Entity>)
    ensures Ordered(SortBySeq(page)) && multiset(SortBySeq(page)) == multiset(page)
  {
    SortSorts(page, Key);
    hide SortBy;
  }

  lemma StretchIncreases(log: seq<Entity>, a: nat, b: nat)
    requires StrictlyIncreasing(log) && a <= b <= |log|
    ensures StrictlyIncreasing(log[a..b])
  {
  }

  lemma StretchResumes(log: seq<Entity>, a: nat, b: nat)
    requires StrictlyIncreasing(log) && a <= b <= |log|
    ensures Segment(log, log[a..b], if a < b then log[b - 1].seqNo else None, a, b)
  {
    if a < b {
      BehindAt(log, b - 1);
      hide Behind;
    }
  }

  lemma BackfilledStretch(log: seq<Entity>, page: seq<Entity>, a: nat, b: nat)
    requires a <= b <= |log| && SortBySeq(page) == log[a..b]
    ensures Backfilled(page) == Feed(log[a..b], if a < b then log[b - 1].seqNo else None)
  {
    hide SortBySeq;
  }

  /** A page leaves its stretch of the log on view and the cursor at its end. */
  lemma PageIsStretch(log: seq<Entity>, page: seq<Entity>, a: nat, b: nat)
    requires StrictlyIncreasing(log) && a <= b <= |log| && multiset(page) == multiset(log[a..b])
    ensures Segment(log, Backfilled(page).view, Backfilled(page).since, a, b)
  {
    hide StrictlyIncreasing, SortBySeq, Backfilled, Segment;
    BackfillIsTheStretch(log, page, a, b);
    BackfilledStretch(log, page, a, b);
    StretchResumes(log, a, b);
  }

  /** Exactly once: backfill any stretch of the log in any order, then live through any number
      of connections, each chunked and cut anywhere. The view is always one stretch of the
      log, in order, nothing missing and nothing twice. */
  lemma {:induction false} ExactlyOnce(codec: Codec, log: seq<Entity>, page: seq<Entity>, a: nat, b: nat, cs: seq<Connection>)
    returns (lo: nat, hi: nat)
    requires Faithful(codec) && StrictlyIncreasing(log) && a <= b <= |log| && multiset(page) == multiset(log[a..b])
    requires forall k | 0 <= k < |cs| :: FairAnswer(codec, log, Reconnected(codec, Backfilled(page), cs[..k]).since, cs[k])
    ensures var f := Reconnected(codec, Backfilled(page), cs);
            Segment(log, f.view, f.since, lo, hi) && (a < b ==> lo == a && b <= hi)
  {
    if cs == [] {
      lo, hi := a, b;
      PageIsStretch(log, page, a, b);
    } else {
      hide StrictlyIncreasing, Faithful, Segment, Connected, Backfilled, FairAnswer;
      var init := cs[..|cs| - 1];
      forall k | 0 <= k < |init|
        ensures FairAnswer(codec, log, Reconnected(codec, Backfilled(page), init[..k]).since, init[k])
      {
        assert init[..k] == cs[..k];
      }
      lo, hi := ExactlyOnce(codec, log, page, a, b, init);
      var f := Reconnected(codec, Backfilled(page), init);
      lo, hi := ConnectionKeepsSegment(codec, log, f, cs[|cs| - 1], lo, hi);
    }
  }
}
