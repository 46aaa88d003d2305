/** HTTP byte ranges over a file of known size, as section 14.1.2 of RFC 9110 defines them. */
module MediaRange {
  import opened Options
  import opened Text
  import opened Decimals

  const MAX_RANGE_BYTES := 64 * 1024 * 1024

  datatype Window = Window(start: int, end: int, partial: bool)

  /** The two digit strings of a range header. */
  datatype Spec = Spec(rawStart: string, rawEnd: string)

  function DigitsEnd(s: string, i: nat): (r: nat)
    requires i <= |s|
    ensures i <= r <= |s|
    ensures forall j | i <= j < r :: '0' <= s[j] <= '9'
    ensures r < |s| ==> !('0' <= s[r] <= '9')
    decreases |s| - i
  {
    if i == |s| || !('0' <= s[i] <= '9') then i else DigitsEnd(s, i + 1)
  }

  /** `^bytes=(\d*)-(\d*)$`. */
  function MatchRange(s: string): (r: Option<Spec>)
    ensures r.Some? ==> AllDigits(r.value.rawStart) && AllDigits(r.value.rawEnd)
  {
    if !StartsWith(s, "bytes=") then None
    else
      var rest := s[6..];
      var dash := DigitsEnd(rest, 0);
      if dash == |rest| || rest[dash] != '-' || !AllDigits(rest[dash + 1..]) then None
      else Some(Spec(rest[..dash], rest[dash + 1..]))
  }

  lemma {:induction false} DigitsEndOf(a: string, rest: string, i: nat)
    requires AllDigits(a) && i <= |a| && rest != "" && !('0' <= rest[0] <= '9')
    ensures DigitsEnd(a + rest, i) == |a|
    decreases |a| - i
  {
    if i < |a| {
      assert (a + rest)[i] == a[i];
      DigitsEndOf(a, rest, i + 1);
    }
  }

  lemma MatchedRange(s: string, a: string, b: string)
    requires MatchRange(s) == Some(Spec(a, b))
    ensures s == "bytes=" + a + "-" + b
  {
    var rest := s[6..];
    assert s == "bytes=" + rest;
    assert rest == rest[..|a|] + ("-" + rest[|a| + 1..]);
    assert "bytes=" + (a + ("-" + b)) == "bytes=" + a + "-" + b;
  }

  lemma RangeMatches(a: string, b: string)
    requires AllDigits(a) && AllDigits(b)
    ensures MatchRange("bytes=" + a + "-" + b) == Some(Spec(a, b))
  {
    var s, rest := "bytes=" + a + "-" + b, a + ("-" + b);
    assert s == "bytes=" + rest;
    assert s[6..] == rest && s[..6] == "bytes=";
    DigitsEndOf(a, "-" + b, 0);
    assert rest[..|a|] == a && rest[|a|] == '-' && rest[|a| + 1..] == b;
    hide DigitsEnd, AllDigits;
  }

  /** A header is a range exactly when it is `bytes=`, two runs of digits and a dash between them;
      the first run is where to start, the second where to end. */
  lemma MatchRangeExactly(s: string, a: string, b: string)
    ensures MatchRange(s) == Some(Spec(a, b)) <==> AllDigits(a) && AllDigits(b) && s == "bytes=" + a + "-" + b
  {
    hide MatchRange, AllDigits;
    if MatchRange(s) == Some(Spec(a, b)) { MatchedRange(s, a, b); }
    if AllDigits(a) && AllDigits(b) { RangeMatches(a, b); }
  }

  function Max(a: int, b: int): int {
    if a > b then a else b
  }

  predicate NoHeader(header: Option<string>) {
    header.None? || Trim(header.value) == ""
  }

  // ---- What a range asks for -----------------------------------------------------------------

  /** The positions a range selects of a file: those between the two ends that the file has, or
      the last ones when only their number is given. */
  predicate Selects(spec: Spec, size: int, p: int)
    requires AllDigits(spec.rawStart) && AllDigits(spec.rawEnd)
  {
    && 0 <= p < size
    && if spec.rawStart != "" then p >= Value(spec.rawStart) && (spec.rawEnd != "" ==> p <= Value(spec.rawEnd))
       else spec.rawEnd != "" && p >= size - Value(spec.rawEnd)
  }

  /** A window is the beginning of what was asked for: all of it, or as much as one answer holds. */
  ghost predicate Answers(spec: Spec, size: int, w: Window)
    requires AllDigits(spec.rawStart) && AllDigits(spec.rawEnd)
  {
    && w.partial && w.start <= w.end && w.end - w.start + 1 <= MAX_RANGE_BYTES
    && (forall p | w.start <= p <= w.end :: Selects(spec, size, p))
    && (forall p | Selects(spec, size, p) :: w.start <= p)
    && (w.end - w.start + 1 == MAX_RANGE_BYTES || forall p | Selects(spec, size, p) :: p <= w.end)
  }

  /** Exactly the ranges that select something are answered, each with a beginning of what it
      selects; everything else is refused, and no range at all is the whole file. */
  method ParseRange(header: Option<string>, size: int) returns (r: Option<Window>)
    ensures NoHeader(header) ==> r == Some(Window(0, Max(0, size - 1), false))
    ensures !NoHeader(header) && MatchRange(Trim(header.value)).None? ==> r == None
    ensures !NoHeader(header) && MatchRange(Trim(header.value)).Some? ==>
              var spec := MatchRange(Trim(header.value)).value;
              if exists p :: Selects(spec, size, p) then r.Some? && Answers(spec, size, r.value) else r == None
  {
    hide Value, MatchRange, Trim;
    if header.None? || Trim(header.value) == "" { return Some(Window(0, Max(0, size - 1), false)); }
    var m := MatchRange(Trim(header.value));
    if m.None? { return None; }
    var rawStart, rawEnd := m.value.rawStart, m.value.rawEnd;
    if size <= 0 { return None; }
    var start, end;
    if rawStart == "" {
      if rawEnd == "" { return None; }
      var n := Value(rawEnd);
      if n <= 0 { return None; }
      start := Max(0, size - n);
      end := size - 1;
    } else {
      start := Value(rawStart);
      if start >= size { return None; }
      end := if rawEnd == "" then size - 1 else Value(rawEnd);
      if end < start { return None; }
      if end > size - 1 { end := size - 1; }
    }
    assert Selects(m.value, size, start) && Selects(m.value, size, end);
    assert forall p | Selects(m.value, size, p) :: start <= p <= end;
    if end - start + 1 > MAX_RANGE_BYTES { end := start + MAX_RANGE_BYTES - 1; }
    r := Some(Window(start, end, true));
  }

  // ---- Reading a file to its end ----------------------------------------------------------------

  function From(cur: nat): string {
    "bytes=" + Show(cur) + "-"
  }

  lemma OpenRangeMatches(d: string)
    requires IsDigits(d)
    ensures MatchRange("bytes=" + d + "-") == Some(Spec(d, ""))
  {
    var s := "bytes=" + d + "-";
    var rest := s[6..];
    assert s[..6] == "bytes=" && rest == d + "-";
    assert rest[|d|] == '-';
    forall j | 0 <= j < |d|
      ensures '0' <= rest[j] <= '9'
    {
      assert rest[j] == d[j];
    }
    assert DigitsEnd(rest, 0) == |d|;
    assert rest[..|d|] == d && rest[|d| + 1..] == "";
  }

  lemma OpenRangeIsTrimmed(d: string)
    ensures Trim("bytes=" + d + "-") == "bytes=" + d + "-"
  {
    var s := "bytes=" + d + "-";
    assert s[0] == 'b' && s[|s| - 1] == '-' && Trimmed(s);
    TrimKeeps(s);
  }

  /** One request for the rest of the file. */
  method Ask(cur: nat, size: nat) returns (w: Window)
    requires cur < size
    ensures w.start == cur && w.end == if size - cur > MAX_RANGE_BYTES then cur + MAX_RANGE_BYTES - 1 else size - 1
  {
    hide Show, MatchRange, Value, Trim;
    ReadBack(cur);
    OpenRangeMatches(Show(cur));
    OpenRangeIsTrimmed(Show(cur));
    assert |From(cur)| > 0;
    var r := ParseRange(Some(From(cur)), size);
    var spec := Spec(Show(cur), "");
    assert Selects(spec, size, cur) && Selects(spec, size, size - 1);
    w := r.value;
    assert Selects(spec, size, w.start) && Selects(spec, size, w.end);
  }

  /** Windows that follow on one another from `from` up to but not including `to`. */
  predicate Tile(ws: seq<Window>, from: int, to: int) {
    if ws == [] then from == to
    else
      && ws[|ws| - 1].start <= ws[|ws| - 1].end && ws[|ws| - 1].end + 1 == to
      && Tile(ws[..|ws| - 1], from, ws[|ws| - 1].start)
  }

  lemma TileSnoc(ws: seq<Window>, from: int, to: int, w: Window)
    requires Tile(ws, from, to) && w.start == to && w.start <= w.end
    ensures Tile(ws + [w], from, w.end + 1)
  {
    assert (ws + [w])[..|ws|] == ws;
  }

  /** A client that asks for the rest again and again gets each byte of the file once, in as few
      answers as their size allows. */
  method ReadAll(size: nat) returns (ws: seq<Window>)
    ensures Tile(ws, 0, size)
    ensures |ws| == (size + MAX_RANGE_BYTES - 1) / MAX_RANGE_BYTES
    ensures forall i | 0 <= i < |ws| :: 0 <= ws[i].start <= ws[i].end < size && ws[i].end - ws[i].start + 1 <= MAX_RANGE_BYTES
  {
    ws := [];
    var cur := 0;
    while cur < size
      invariant 0 <= cur <= size && Tile(ws, 0, cur)
      invariant cur < size ==> cur == |ws| * MAX_RANGE_BYTES
      invariant cur == size ==> |ws| == (size + MAX_RANGE_BYTES - 1) / MAX_RANGE_BYTES
      invariant forall i | 0 <= i < |ws| :: 0 <= ws[i].start <= ws[i].end < size && ws[i].end - ws[i].start + 1 <= MAX_RANGE_BYTES
      decreases size - cur
    {
      var w := Ask(cur, size);
      TileSnoc(ws, 0, cur, w);
      ws := ws + [w];
      cur := w.end + 1;
    }
  }
}
