/** Chunked framing of a server-sent event stream, shared by the desktop reader and the
    terminal reader: text is appended to a buffer and cut at every blank line. */
module SseFraming {
  import opened Options
  import opened Text

  /** `buf.indexOf('\n\n', i)`, with the length for "not found". */
  function SepFrom(s: string, i: nat): (r: nat)
    requires i <= |s|
    ensures i <= r <= |s|
    ensures r < |s| ==> r + 1 < |s| && s[r] == '\n' && s[r + 1] == '\n'
    ensures forall j | i <= j < r && j + 1 < |s| :: !(s[j] == '\n' && s[j + 1] == '\n')
    decreases |s| - i
  {
    if i + 1 >= |s| then |s|
    else if s[i] == '\n' && s[i + 1] == '\n' then i
    else SepFrom(s, i + 1)
  }

  /** The complete frames of a text, and what is left in the buffer. */
  function Frames(s: string): (r: (seq<string>, string))
    ensures SepFrom(r.1, 0) == |r.1|
    decreases |s|
  {
    var i := SepFrom(s, 0);
    if i == |s| then ([], s)
    else
      var (fs, rest) := Frames(s[i + 2..]);
      ([s[..i]] + fs, rest)
  }

  /** The first separator is found at the same place however much text follows it. */
  lemma SepIsStable(a: string, b: string)
    requires SepFrom(a, 0) < |a|
    ensures SepFrom(a + b, 0) == SepFrom(a, 0)
  {
    var i, j := SepFrom(a, 0), SepFrom(a + b, 0);
    assert (a + b)[i] == '\n' && (a + b)[i + 1] == '\n';
  }

  lemma FramesStep(s: string, i: nat)
    requires i == SepFrom(s, 0) < |s|
    ensures Frames(s) == ([s[..i]] + Frames(s[i + 2..]).0, Frames(s[i + 2..]).1)
  {
  }

  /** Feeding `a` and then `b` is feeding `a + b`: a separator split across the two
      chunks is still found, because the left-over of `a` is what `b` is appended to. */
  lemma {:induction false} FramesSplit(a: string, b: string)
    ensures var (fa, ra) := Frames(a);
            var (fb, rb) := Frames(ra + b);
            Frames(a + b) == (fa + fb, rb)
    decreases |a|
  {
    var i := SepFrom(a, 0);
    if i < |a| {
      SepIsStable(a, b);
      FramesStep(a, i);
      FramesStep(a + b, i);
      assert (a + b)[i + 2..] == a[i + 2..] + b && (a + b)[..i] == a[..i];
      FramesSplit(a[i + 2..], b);
      Assoc([a[..i]], Frames(a[i + 2..]).0, Frames(Frames(a).1 + b).0);
    } else {
      assert [] + Frames(a + b).0 == Frames(a + b).0;
    }
  }

  /** One chunk after another, from a given buffer. */
  function FeedAll(buf: string, chunks: seq<string>): (seq<string>, string)
    decreases |chunks|
  {
    if chunks == [] then ([], buf)
    else
      var (fs, rest) := Frames(buf + chunks[0]);
      var (gs, rest') := FeedAll(rest, chunks[1..]);
      (fs + gs, rest')
  }

  /** Framing does not depend on how the text was cut into chunks. */
  lemma {:induction false} FramingIsChunkIndependent(buf: string, chunks: seq<string>)
    requires SepFrom(buf, 0) == |buf|
    ensures FeedAll(buf, chunks) == Frames(buf + Concat(chunks))
    decreases |chunks|
  {
    if chunks == [] {
      assert buf + Concat(chunks) == buf;
    } else {
      var (fs, rest) := Frames(buf + chunks[0]);
      FramingIsChunkIndependent(rest, chunks[1..]);
      FramesSplit(buf + chunks[0], Concat(chunks[1..]));
      assert buf + Concat(chunks) == (buf + chunks[0]) + Concat(chunks[1..]);
    }
  }

  // ---- Lines of a frame -------------------------------------------------------

  /** The non-empty payloads of the `data:` lines: the desktop reader takes each by itself. */
  function DataPayloads(lines: seq<string>): seq<string> {
    if lines == [] then []
    else
      var rest := DataPayloads(lines[1..]);
      if !StartsWith(lines[0], "data:") then rest
      else
        var payload := Trim(lines[0][5..]);
        if payload == "" then rest else [payload] + rest
  }

  /** The terminal reader's line: one trailing carriage return is dropped. */
  function Chomp(line: string): string {
    if line != "" && line[|line| - 1] == '\r' then line[..|line| - 1] else line
  }

  /** The terminal reader collects the `data:` values, less one leading space each. */
  function DataValues(lines: seq<string>): seq<string> {
    if lines == [] then []
    else
      var rest := DataValues(lines[1..]);
      var line := Chomp(lines[0]);
      if line == "" || line[0] == ':' || !StartsWith(line, "data:") then rest
      else
        var v := line[5..];
        [if v != "" && v[0] == ' ' then v[1..] else v] + rest
  }

  /** The terminal reader joins the values of a frame, or has none. */
  function ExtractData(frame: string): Option<string> {
    var out := DataValues(Lines(frame));
    if out == [] then None else Some(Join(out))
  }

  // ---- The loops --------------------------------------------------------------

  class FrameBuffer {
    var buf: string

    constructor ()
      ensures buf == ""
    {
      buf := "";
    }

    /** Appends one decoded chunk and takes every complete frame out. */
    method Feed(chunk: string) returns (frames: seq<string>)
      modifies this
      ensures (frames, buf) == Frames(old(buf) + chunk)
    {
      buf := buf + chunk;
      frames := [];
      assert frames + Frames(buf).0 == Frames(buf).0;
      var sep := SepFrom(buf, 0);
      while sep != |buf|
        invariant sep == SepFrom(buf, 0)
        invariant Frames(old(buf) + chunk) == (frames + Frames(buf).0, Frames(buf).1)
        decreases |buf|
      {
        FramesStep(buf, sep);
        Assoc(frames, [buf[..sep]], Frames(buf[sep + 2..]).0);
        frames := frames + [buf[..sep]];
        buf := buf[sep + 2..];
        sep := SepFrom(buf, 0);
      }
      assert Frames(buf) == ([], buf);
      assert frames + [] == frames;
    }
  }

  /** The terminal reader's accumulation over the lines of one frame. */
  method CollectData(frame: string) returns (payload: Option<string>)
    ensures payload == ExtractData(frame)
  {
    var lines := Lines(frame);
    var out := [];
    assert lines[0..] == lines;
    for i := 0 to |lines|
      invariant out + DataValues(lines[i..]) == DataValues(lines)
    {
      var line := Chomp(lines[i]);
      assert lines[i..][0] == lines[i] && lines[i..][1..] == lines[i + 1..];
      if line == "" || line[0] == ':' {
        continue;
      }
      if StartsWith(line, "data:") {
        var v := line[5..];
        var value := if v != "" && v[0] == ' ' then v[1..] else v;
        Assoc(out, [value], DataValues(lines[i + 1..]));
        out := out + [value];
      }
    }
    assert lines[|lines|..] == [] && out + [] == out;
    if out == [] {
      return None;
    }
    payload := Some(Join(out));
  }
}
