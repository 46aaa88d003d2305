/** The layer pattern of a decoder stack: one operator a layer, folded into maximal runs,
    then into a repeating cycle of runs, then into top-level groups. */
module ArchSchematic {
  import opened Options
  import opened Text

  datatype AttnKind = MLA | GQA | MHA | KDA | GatedDeltaNet | Sliding | Global
  datatype FfnKind = Dense | Moe

  datatype Run = Run(attn: AttnKind, count: nat, from: nat, to: nat)

  datatype Cycle = Cycle(start: nat, unitLen: nat, rep: nat)

  datatype Group =
    | RunGroup(run: Run)
    | CycleGroup(rep: nat, unit: seq<Run>, from: nat, to: nat)

  // ---- Expansion: what runs and groups stand for --------------------------------

  function Copies(attn: AttnKind, n: nat): seq<AttnKind> {
    seq(n, _ => attn)
  }

  function Expand(runs: seq<Run>): seq<AttnKind> {
    if runs == [] then [] else Copies(runs[0].attn, runs[0].count) + Expand(runs[1..])
  }

  function Repeat(pattern: seq<AttnKind>, n: nat): seq<AttnKind> {
    if n == 0 then [] else pattern + Repeat(pattern, n - 1)
  }

  function ExpandGroup(g: Group): seq<AttnKind> {
    match g
    case RunGroup(r) => Copies(r.attn, r.count)
    case CycleGroup(rep, unit, _, _) => Repeat(Expand(unit), rep)
  }

  function ExpandGroups(groups: seq<Group>): seq<AttnKind> {
    if groups == [] then [] else ExpandGroup(groups[0]) + ExpandGroups(groups[1..])
  }

  // ---- Runs -----------------------------------------------------------------------

  /** Runs cut `lo..` into consecutive, non-empty stretches, each ending where it says. */
  predicate Tile(runs: seq<Run>, lo: nat) {
    if runs == [] then true
    else runs[0].count > 0 && runs[0].from == lo && runs[0].to == lo + runs[0].count - 1 && Tile(runs[1..], lo + runs[0].count)
  }

  predicate Maximal(runs: seq<Run>) {
    forall i | 0 <= i < |runs| - 1 :: runs[i].attn != runs[i + 1].attn
  }

  function Layers(runs: seq<Run>): nat {
    if runs == [] then 0 else runs[0].count + Layers(runs[1..])
  }

  lemma {:induction false} ExpandLength(runs: seq<Run>)
    ensures |Expand(runs)| == Layers(runs)
  {
    if runs != [] { ExpandLength(runs[1..]); }
  }

  lemma {:induction false} ExpandSnoc(runs: seq<Run>, r: Run)
    ensures Expand(runs + [r]) == Expand(runs) + Copies(r.attn, r.count)
    ensures Layers(runs + [r]) == Layers(runs) + r.count
  {
    if runs == [] {
      assert Expand([r]) == Copies(r.attn, r.count) + [];
      assert [] + [r] == [r];
    } else {
      ExpandSnoc(runs[1..], r);
      assert (runs + [r])[1..] == runs[1..] + [r];
    }
  }

  lemma {:induction false} TileSnoc(runs: seq<Run>, lo: nat, r: Run)
    requires Tile(runs, lo)
    ensures Tile(runs + [r], lo) <==>
            r.count > 0 && r.from == lo + Layers(runs) && r.to == lo + Layers(runs) + r.count - 1
  {
    if runs == [] {
      assert [] + [r] == [r];
    } else {
      TileSnoc(runs[1..], lo + runs[0].count, r);
      assert (runs + [r])[1..] == runs[1..] + [r];
    }
  }

  /** Runs of the first `i` layers. */
  predicate RunsOf(runs: seq<Run>, attn: seq<AttnKind>, i: nat)
    requires i <= |attn|
  {
    && Expand(runs) == attn[..i] && Tile(runs, 0) && Maximal(runs)
    && (i > 0 ==> runs != [] && runs[|runs| - 1].attn == attn[i - 1])
  }

  /** One more layer like the last. */
  lemma GrowsRun(runs: seq<Run>, attn: seq<AttnKind>, i: nat)
    requires i < |attn| && RunsOf(runs, attn, i) && runs != [] && runs[|runs| - 1].attn == attn[i]
    ensures var last := runs[|runs| - 1]; RunsOf(runs[..|runs| - 1] + [last.(count := last.count + 1, to := i)], attn, i + 1)
  {
    hide Tile, Expand, Layers, Copies, Maximal;
    var init, last := runs[..|runs| - 1], runs[|runs| - 1];
    var grown := last.(count := last.count + 1, to := i);
    assert runs == init + [last];
    ExpandLength(runs);
    TilePrefix(init, [last], 0);
    TileSnoc(init, 0, last);
    TileSnoc(init, 0, grown);
    ExpandSnoc(init, last);
    ExpandSnoc(init, grown);
    CopiesSnoc(last.attn, last.count);
    MaximalGrows(init, last, grown);
    assert attn[..i + 1] == attn[..i] + [attn[i]];
    Assoc(Expand(init), Copies(last.attn, last.count), [attn[i]]);
  }

  lemma MaximalGrows(init: seq<Run>, last: Run, grown: Run)
    requires Maximal(init + [last]) && grown.attn == last.attn
    ensures Maximal(init + [grown])
  {
    var a, b := init + [last], init + [grown];
    forall i | 0 <= i < |b| - 1
      ensures b[i].attn != b[i + 1].attn
    {
      assert a[i].attn != a[i + 1].attn;
    }
  }

  lemma CopiesSnoc(a: AttnKind, n: nat)
    ensures Copies(a, n + 1) == Copies(a, n) + [a]
  {
  }

  /** One more layer unlike the last. */
  lemma StartsRun(runs: seq<Run>, attn: seq<AttnKind>, i: nat)
    requires i < |attn| && RunsOf(runs, attn, i) && (runs != [] ==> runs[|runs| - 1].attn != attn[i])
    ensures RunsOf(runs + [Run(attn[i], 1, i, i)], attn, i + 1)
  {
    var next := Run(attn[i], 1, i, i);
    ExpandLength(runs);
    hide Tile, Expand, Layers;
    TileSnoc(runs, 0, next);
    ExpandSnoc(runs, next);
    assert attn[..i + 1] == attn[..i] + [attn[i]];
    assert Copies(attn[i], 1) == [attn[i]];
  }

  /** Run-length encoding of the attention track. */
  method RunLengthAttn(attn: seq<AttnKind>) returns (runs: seq<Run>)
    ensures Expand(runs) == attn && Tile(runs, 0) && Maximal(runs)
  {
    runs := [];
    for i := 0 to |attn|
      invariant RunsOf(runs, attn, i)
    {
      hide RunsOf;
      if |runs| > 0 && runs[|runs| - 1].attn == attn[i] {
        GrowsRun(runs, attn, i);
        var last := runs[|runs| - 1];
        runs := runs[..|runs| - 1] + [last.(count := last.count + 1, to := i)];
      } else {
        StartsRun(runs, attn, i);
        runs := runs + [Run(attn[i], 1, i, i)];
      }
    }
    assert attn[..|attn|] == attn;
  }

  lemma {:induction false} TilePrefix(a: seq<Run>, b: seq<Run>, lo: nat)
    requires Tile(a + b, lo)
    ensures Tile(a, lo) && Tile(b, lo + Layers(a))
  {
    if a == [] {
      assert a + b == b;
    } else {
      assert (a + b)[1..] == a[1..] + b;
      TilePrefix(a[1..], b, lo + a[0].count);
    }
  }

  /** The first run of a tiling, read off its expansion. */
  lemma HeadOf(a: seq<Run>, lo: nat)
    requires a != [] && Tile(a, lo)
    ensures |Expand(a)| >= a[0].count > 0
    ensures forall i | 0 <= i < a[0].count :: Expand(a)[i] == a[0].attn
    ensures Expand(a)[a[0].count..] == Expand(a[1..])
    ensures |a| > 1 ==> |Expand(a)| > a[0].count && Expand(a)[a[0].count] == a[1].attn
  {
    assert Expand(a) == Copies(a[0].attn, a[0].count) + Expand(a[1..]);
    if |a| > 1 {
      assert Expand(a[1..]) == Copies(a[1].attn, a[1].count) + Expand(a[1..][1..]);
    }
  }

  lemma HeadCount(a: seq<Run>, b: seq<Run>, lo: nat)
    requires a != [] && b != [] && Tile(a, lo) && Tile(b, lo) && Maximal(a) && Expand(a) == Expand(b)
    ensures a[0].attn == b[0].attn && b[0].count <= a[0].count
  {
    HeadOf(a, lo);
    HeadOf(b, lo);
    assert Expand(a)[0] == Expand(b)[0];
    if |a| == 1 {
      assert Expand(a[1..]) == [];
    }
  }

  /** Maximal runs that expand to the same track are the same runs: the encoding is canonical. */
  lemma {:induction false} RunsAreCanonical(a: seq<Run>, b: seq<Run>, lo: nat)
    requires Tile(a, lo) && Tile(b, lo) && Maximal(a) && Maximal(b) && Expand(a) == Expand(b)
    ensures a == b
  {
    if a != [] { HeadOf(a, lo); }
    if b != [] { HeadOf(b, lo); }
    if a != [] && b != [] {
      HeadCount(a, b, lo);
      HeadCount(b, a, lo);
      RunsAreCanonical(a[1..], b[1..], lo + a[0].count);
      assert a == [a[0]] + a[1..] && b == [b[0]] + b[1..];
    }
  }

  // ---- Cycles -----------------------------------------------------------------------

  /** The signature of a run: its operator and length, wherever it sits. */
  type Sig = (AttnKind, nat)

  function Sigs(runs: seq<Run>): (r: seq<Sig>)
    ensures |r| == |runs|
  {
    seq(|runs|, i requires 0 <= i < |runs| => (runs[i].attn, runs[i].count))
  }

  /** The `unit` signatures at `t` are those at `s`. */
  predicate SameBlock(sig: seq<Sig>, s: nat, t: nat, unit: nat) {
    s + unit <= |sig| && t + unit <= |sig| && sig[s..s + unit] == sig[t..t + unit]
  }

  /** `rep` consecutive blocks of `unit` signatures from `at` on, all like the one at `start`. */
  predicate RepeatsFrom(sig: seq<Sig>, start: nat, at: nat, unit: nat, rep: nat)
    decreases rep
  {
    rep == 0 || (SameBlock(sig, start, at, unit) && RepeatsFrom(sig, start, at + unit, unit, rep - 1))
  }

  /** The unit at `start` comes `rep` times in a row. */
  predicate Repeats(sig: seq<Sig>, start: nat, unit: nat, rep: nat) {
    unit > 0 && rep > 0 && RepeatsFrom(sig, start, start, unit, rep)
  }

  /** `c` covers at least as many runs as any repetition, and among those covering as many
      it starts first, and among those starting there it has the shortest unit. */
  ghost predicate Best(sig: seq<Sig>, c: Cycle) {
    && c.rep >= 2 && Repeats(sig, c.start, c.unitLen, c.rep)
    && forall s: nat, u: nat, r: nat | r >= 2 && Repeats(sig, s, u, r) :: NoBetter(c, s, u, r)
  }

  predicate NoBetter(c: Cycle, s: nat, u: nat, r: nat) {
    u * r <= c.unitLen * c.rep &&
    (u * r == c.unitLen * c.rep ==> c.start < s || (c.start == s && c.unitLen <= u))
  }

  ghost predicate NothingRepeats(sig: seq<Sig>) {
    forall s: nat, u: nat, r: nat | Repeats(sig, s, u, r) :: r < 2
  }

  predicate Before(s: nat, u: nat, start: nat, unit: nat) {
    s < start || (s == start && u < unit)
  }

  /** The loops so far have looked at every start and unit before these. */
  ghost predicate BestSoFar(sig: seq<Sig>, best: Option<Cycle>, start: nat, unit: nat) {
    && (best.Some? ==> best.value.rep >= 2 && Repeats(sig, best.value.start, best.value.unitLen, best.value.rep)
                       && Before(best.value.start, best.value.unitLen, start, unit))
    && forall s: nat, u: nat, r: nat | r >= 2 && Repeats(sig, s, u, r) && Before(s, u, start, unit) ::
         best.Some? && NoBetter(best.value, s, u, r)
  }

  lemma TimesMonotone(u: nat, a: nat, b: nat)
    requires a <= b
    ensures u * a <= u * b
  {
  }

  lemma TimesSucc(u: nat, n: nat)
    ensures u * (n + 1) == u + u * n
  {
  }

  /** A repetition has room for all its blocks. */
  lemma {:induction false} Fits(sig: seq<Sig>, start: nat, at: nat, unit: nat, rep: nat)
    requires rep > 0 && RepeatsFrom(sig, start, at, unit, rep)
    ensures at + unit * rep <= |sig| && start + unit <= |sig|
    decreases rep
  {
    TimesSucc(unit, rep - 1);
    if rep > 1 { Fits(sig, start, at + unit, unit, rep - 1); }
  }

  /** Appending one more alike block. */
  lemma {:induction false} OneMore(sig: seq<Sig>, start: nat, at: nat, unit: nat, rep: nat)
    requires RepeatsFrom(sig, start, at, unit, rep) && SameBlock(sig, start, at + unit * rep, unit)
    ensures RepeatsFrom(sig, start, at, unit, rep + 1)
    decreases rep
  {
    if rep > 0 {
      TimesSucc(unit, rep - 1);
      OneMore(sig, start, at + unit, unit, rep - 1);
    } else {
      assert unit * 0 == 0;
    }
  }

  /** A longer repetition has an alike block wherever a shorter one stops. */
  lemma {:induction false} NextBlock(sig: seq<Sig>, start: nat, at: nat, unit: nat, rep: nat, r: nat)
    requires RepeatsFrom(sig, start, at, unit, r) && rep < r
    ensures SameBlock(sig, start, at + unit * rep, unit)
    decreases rep
  {
    if rep > 0 {
      TimesSucc(unit, rep - 1);
      NextBlock(sig, start, at + unit, unit, rep - 1, r - 1);
    } else {
      assert unit * 0 == 0;
    }
  }

  /** The count of alike blocks from `start`. */
  method CountRepeats(sig: seq<Sig>, start: nat, unit: nat) returns (rep: nat)
    requires unit > 0 && start + unit <= |sig|
    ensures rep >= 1 && Repeats(sig, start, unit, rep)
    ensures forall r: nat | Repeats(sig, start, unit, r) :: r <= rep && unit * r <= unit * rep
  {
    rep := 1;
    while SameBlock(sig, start, start + unit * rep, unit)
      invariant rep >= 1 && Repeats(sig, start, unit, rep)
      decreases |sig| - rep
    {
      OneMore(sig, start, start, unit, rep);
      Fits(sig, start, start, unit, rep);
      TimesAtLeast(unit, rep);
      rep := rep + 1;
    }
    forall r: nat | Repeats(sig, start, unit, r)
      ensures r <= rep && unit * r <= unit * rep
    {
      if rep < r { NextBlock(sig, start, start, unit, rep, r); }
      TimesMonotone(unit, r, rep);
    }
  }

  lemma TimesAtLeast(u: nat, n: nat)
    requires u > 0
    ensures n <= u * n
  {
  }

  /** Two blocks need room for two blocks. */
  lemma NoRoom(sig: seq<Sig>, s: nat, u: nat, r: nat)
    requires Repeats(sig, s, u, r) && r >= 2
    ensures s + u * 2 <= |sig|
  {
    assert RepeatsFrom(sig, s, s + u, u, r - 1);
  }

  /** One more unit examined. */
  lemma Examined(sig: seq<Sig>, best: Option<Cycle>, start: nat, unit: nat, rep: nat, best': Option<Cycle>)
    requires unit > 0 && BestSoFar(sig, best, start, unit) && rep >= 1 && Repeats(sig, start, unit, rep)
    requires forall r: nat | Repeats(sig, start, unit, r) :: r <= rep && unit * r <= unit * rep
    requires best' == if rep >= 2 && (best.None? || unit * rep > best.value.unitLen * best.value.rep)
                      then Some(Cycle(start, unit, rep)) else best
    ensures BestSoFar(sig, best', start, unit + 1)
  {
    forall s: nat, u: nat, r: nat | r >= 2 && Repeats(sig, s, u, r) && Before(s, u, start, unit + 1)
      ensures best'.Some? && NoBetter(best'.value, s, u, r)
    {
      if Before(s, u, start, unit) {
        assert best.Some? && NoBetter(best.value, s, u, r);
      } else {
        assert s == start && u == unit;
      }
    }
  }

  /** The best repeating cycle in a run sequence, or none when no unit repeats. */
  method DetectCycle(runs: seq<Run>) returns (best: Option<Cycle>)
    ensures best.Some? ==> Best(Sigs(runs), best.value)
    ensures best.None? ==> NothingRepeats(Sigs(runs))
  {
    var sig := Sigs(runs);
    best := None;
    for start := 0 to |sig|
      invariant BestSoFar(sig, best, start, 0)
    {
      var unit := 1;
      while unit * 2 <= |sig| - start
        invariant unit >= 1 && BestSoFar(sig, best, start, unit)
        decreases |sig| - unit
      {
        var rep := CountRepeats(sig, start, unit);
        ghost var before := best;
        if rep >= 2 && (best.None? || unit * rep > best.value.unitLen * best.value.rep) {
          best := Some(Cycle(start, unit, rep));
        }
        Examined(sig, before, start, unit, rep, best);
        unit := unit + 1;
      }
      forall s: nat, u: nat, r: nat | r >= 2 && Repeats(sig, s, u, r) && Before(s, u, start + 1, 0)
        ensures best.Some? && NoBetter(best.value, s, u, r)
      {
        NoRoom(sig, s, u, r);
        assert Before(s, u, start, unit);
      }
    }
    forall s: nat, u: nat, r: nat | r >= 2 && Repeats(sig, s, u, r)
      ensures best.Some? && NoBetter(best.value, s, u, r)
    {
      NoRoom(sig, s, u, r);
      assert Before(s, u, |sig|, 0);
    }
  }

  /** On maximal runs neighbours differ, so a repeating unit has at least two runs. */
  lemma MaximalRunsNeverRepeatAlone(runs: seq<Run>, s: nat, u: nat, r: nat)
    requires Maximal(runs) && r >= 2 && Repeats(Sigs(runs), s, u, r)
    ensures u >= 2
  {
    FirstAgain(Sigs(runs), s, u, r);
  }

  /** The second block starts as the first does. */
  lemma FirstAgain(sig: seq<Sig>, s: nat, u: nat, r: nat)
    requires r >= 2 && Repeats(sig, s, u, r)
    ensures s + u < |sig| && sig[s] == sig[s + u]
  {
    assert RepeatsFrom(sig, s, s + u, u, r - 1);
    var a, b: seq<Sig> := sig[s..s + u], sig[s + u..s + u + u];
    assert a[0] == sig[s] && b[0] == sig[s + u];
  }

  // ---- Groups -----------------------------------------------------------------------

  function GroupLayers(g: Group): nat {
    match g
    case RunGroup(r) => r.count
    case CycleGroup(rep, unit, _, _) => rep * Layers(unit)
  }

  /** Block counts times their cycle repeats, over the whole stack. */
  function TotalLayers(groups: seq<Group>): nat {
    if groups == [] then 0 else GroupLayers(groups[0]) + TotalLayers(groups[1..])
  }

  predicate GroupAt(g: Group, lo: nat) {
    match g
    case RunGroup(r) => Tile([r], lo)
    case CycleGroup(rep, unit, from, to) =>
      rep >= 2 && unit != [] && Tile(unit, lo) && from == lo && to == lo + rep * Layers(unit) - 1
  }

  /** Groups follow one another without gap or overlap, each where it says it is. */
  predicate TileGroups(groups: seq<Group>, lo: nat) {
    if groups == [] then true else GroupAt(groups[0], lo) && TileGroups(groups[1..], lo + GroupLayers(groups[0]))
  }

  /** What every way of folding runs into groups owes: nothing lost, nothing moved. */
  predicate Folds(runs: seq<Run>, groups: seq<Group>, lo: nat) {
    ExpandGroups(groups) == Expand(runs) && TileGroups(groups, lo) && TotalLayers(groups) == Layers(runs)
  }

  function AsGroups(runs: seq<Run>): (r: seq<Group>)
    ensures |r| == |runs|
  {
    seq(|runs|, i requires 0 <= i < |runs| => RunGroup(runs[i]))
  }

  lemma {:induction false} PlainRunsFold(runs: seq<Run>, lo: nat)
    requires Tile(runs, lo)
    ensures Folds(runs, AsGroups(runs), lo)
  {
    if runs != [] {
      PlainRunsFold(runs[1..], lo + runs[0].count);
      assert AsGroups(runs)[1..] == AsGroups(runs[1..]);
      assert [runs[0]][1..] == [];
    }
  }

  lemma {:induction false} FoldsAppend(a: seq<Run>, ga: seq<Group>, b: seq<Run>, gb: seq<Group>, lo: nat)
    requires Folds(a, ga, lo) && Folds(b, gb, lo + Layers(a))
    ensures Folds(a + b, ga + gb, lo)
  {
    hide Expand, ExpandGroups, TileGroups, TotalLayers, Layers;
    ExpandAppend(a, b);
    GroupsExpandAppend(ga, gb);
    GroupsTileAppend(ga, gb, lo);
  }

  lemma {:induction false} ExpandAppend(a: seq<Run>, b: seq<Run>)
    ensures Expand(a + b) == Expand(a) + Expand(b) && Layers(a + b) == Layers(a) + Layers(b)
  {
    if a == [] {
      assert a + b == b;
    } else {
      assert (a + b)[1..] == a[1..] + b;
      ExpandAppend(a[1..], b);
    }
  }

  lemma {:induction false} GroupsExpandAppend(a: seq<Group>, b: seq<Group>)
    ensures ExpandGroups(a + b) == ExpandGroups(a) + ExpandGroups(b)
  {
    if a == [] {
      assert a + b == b;
    } else {
      hide ExpandGroup;
      var s, rest := a + b, a[1..];
      assert s[1..] == rest + b && s[0] == a[0];
      GroupsExpandAppend(rest, b);
      assert ExpandGroups(s) == ExpandGroup(a[0]) + ExpandGroups(rest + b);
      Assoc(ExpandGroup(a[0]), ExpandGroups(rest), ExpandGroups(b));
    }
  }

  lemma {:induction false} GroupsTileAppend(a: seq<Group>, b: seq<Group>, lo: nat)
    ensures TotalLayers(a + b) == TotalLayers(a) + TotalLayers(b)
    ensures TileGroups(a + b, lo) <==> TileGroups(a, lo) && TileGroups(b, lo + TotalLayers(a))
  {
    if a == [] {
      assert a + b == b;
    } else {
      hide GroupLayers;
      assert (a + b)[1..] == a[1..] + b && (a + b)[0] == a[0];
      GroupsTileAppend(a[1..], b, lo + GroupLayers(a[0]));
    }
  }

  /** Expansion looks only at signatures. */
  lemma {:induction false} ExpandBySigs(a: seq<Run>, b: seq<Run>)
    requires Sigs(a) == Sigs(b)
    ensures Expand(a) == Expand(b) && Layers(a) == Layers(b)
  {
    if a != [] {
      assert Sigs(a)[0] == Sigs(b)[0];
      assert Sigs(a)[1..] == Sigs(a[1..]) && Sigs(b)[1..] == Sigs(b[1..]);
      ExpandBySigs(a[1..], b[1..]);
    }
  }

  lemma RepeatSnoc(pattern: seq<AttnKind>, n: nat)
    ensures Repeat(pattern, n + 1) == Repeat(pattern, n) + pattern
  {
    if n == 0 {
      assert Repeat(pattern, 1) == pattern + [] && [] + pattern == pattern;
    } else {
      RepeatSnoc(pattern, n - 1);
      assert pattern + (Repeat(pattern, n - 1) + pattern) == (pattern + Repeat(pattern, n - 1)) + pattern;
    }
  }

  /** `part` is `rep` stretches, each looking like `unit`. */
  predicate Blocks(part: seq<Run>, unit: seq<Run>, rep: nat) {
    if rep == 0 then part == []
    else |unit| <= |part| && Sigs(part[..|unit|]) == Sigs(unit) && Blocks(part[|unit|..], unit, rep - 1)
  }

  /** The runs under a cycle are its unit over and over. */
  lemma {:induction false} BlocksExpand(part: seq<Run>, unit: seq<Run>, rep: nat)
    requires Blocks(part, unit, rep)
    ensures Expand(part) == Repeat(Expand(unit), rep) && Layers(part) == rep * Layers(unit)
  {
    if rep > 0 {
      var first, rest := part[..|unit|], part[|unit|..];
      assert Blocks(rest, unit, rep - 1) && part == first + rest;
      hide Blocks, Expand, Layers, Sigs;
      BlocksExpand(rest, unit, rep - 1);
      ExpandBySigs(first, unit);
      ExpandAppend(first, rest);
      OneTimeMore(rep, Layers(unit));
    }
  }

  lemma OneTimeMore(n: nat, u: nat)
    requires n > 0
    ensures n * u == u + (n - 1) * u
  {
  }

  lemma SigsSlice(runs: seq<Run>, a: nat, b: nat)
    requires a <= b <= |runs|
    ensures Sigs(runs[a..b]) == Sigs(runs)[a..b]
  {
  }

  lemma {:induction false} RepeatsAreBlocks(runs: seq<Run>, start: nat, at: nat, u: nat, rep: nat, end: nat)
    requires RepeatsFrom(Sigs(runs), start, at, u, rep) && start + u <= |runs| && at <= end <= |runs| && end == at + u * rep
    ensures Blocks(runs[at..end], runs[start..start + u], rep)
    decreases rep
  {
    var part, unit := runs[at..end], runs[start..start + u];
    if rep > 0 {
      TimesSucc(u, rep - 1);
      assert SameBlock(Sigs(runs), start, at, u) && RepeatsFrom(Sigs(runs), start, at + u, u, rep - 1);
      SigsSlice(runs, at, at + u);
      SigsSlice(runs, start, start + u);
      assert end == (at + u) + u * (rep - 1);
      hide Sigs, RepeatsFrom;
      RepeatsAreBlocks(runs, start, at + u, u, rep - 1, end);
      assert part[u..] == runs[at + u..end] && part[..u] == runs[at..at + u];
    }
  }

  function GroupsAround(runs: seq<Run>, rep: nat, start: nat, u: nat, end: nat): seq<Group>
    requires start + u <= end <= |runs| && 0 < u
  {
    AsGroups(runs[..start])
    + [CycleGroup(rep, runs[start..start + u], runs[start].from, runs[end - 1].to)]
    + AsGroups(runs[end..])
  }

  /** The runs before the cycle, the cycle, the runs after it. */
  function BestGroups(runs: seq<Run>, c: Cycle): seq<Group>
    requires Repeats(Sigs(runs), c.start, c.unitLen, c.rep) && c.rep >= 2
  {
    RoomFor(Sigs(runs), c);
    GroupsAround(runs, c.rep, c.start, c.unitLen, c.start + c.unitLen * c.rep)
  }

  lemma {:induction false} TileEnds(runs: seq<Run>, lo: nat)
    requires Tile(runs, lo) && runs != []
    ensures runs[0].from == lo && runs[|runs| - 1].to == lo + Layers(runs) - 1
  {
    if |runs| > 1 {
      TileEnds(runs[1..], lo + runs[0].count);
    } else {
      assert runs[1..] == [];
    }
  }

  lemma CycleAlone(part: seq<Run>, unit: seq<Run>, rep: nat, lo: nat, from: nat, to: nat)
    requires Tile(part, lo) && rep >= 2 && unit != [] && unit <= part
    requires Expand(part) == Repeat(Expand(unit), rep) && Layers(part) == rep * Layers(unit)
    requires from == part[0].from && to == part[|part| - 1].to
    ensures Folds(part, [CycleGroup(rep, unit, from, to)], lo)
  {
    var g := CycleGroup(rep, unit, from, to);
    TileEnds(part, lo);
    assert part == unit + part[|unit|..];
    TilePrefix(unit, part[|unit|..], lo);
    assert ExpandGroups([g]) == ExpandGroup(g) + [];
  }

  /** The cycle and the runs after it. */
  lemma CycleAndTailFold(part: seq<Run>, tail: seq<Run>, unit: seq<Run>, rep: nat, lo: nat, from: nat, to: nat)
    requires Tile(part, lo) && Tile(tail, lo + Layers(part)) && rep >= 2 && unit != [] && unit <= part
    requires Blocks(part, unit, rep) && from == part[0].from && to == part[|part| - 1].to
    ensures Folds(part + tail, [CycleGroup(rep, unit, from, to)] + AsGroups(tail), lo)
  {
    hide Folds, Tile, Expand, Layers, AsGroups, Blocks;
    BlocksExpand(part, unit, rep);
    CycleAlone(part, unit, rep, lo, from, to);
    PlainRunsFold(tail, lo + Layers(part));
    FoldsAppend(part, [CycleGroup(rep, unit, from, to)], tail, AsGroups(tail), lo);
  }

  /** The runs before, the cycle and the runs after it. */
  lemma ThreePartsFold(head: seq<Run>, part: seq<Run>, tail: seq<Run>, unit: seq<Run>, rep: nat)
    requires Tile(head + (part + tail), 0) && rep >= 2 && unit != [] && unit <= part && Blocks(part, unit, rep)
    ensures Folds(head + (part + tail),
                  AsGroups(head) + ([CycleGroup(rep, unit, part[0].from, part[|part| - 1].to)] + AsGroups(tail)), 0)
  {
    hide Folds, Tile, Expand, Layers, AsGroups, Sigs, Blocks;
    TilePrefix(head, part + tail, 0);
    TilePrefix(part, tail, Layers(head));
    CycleAndTailFold(part, tail, unit, rep, Layers(head), part[0].from, part[|part| - 1].to);
    PlainRunsFold(head, 0);
    FoldsAppend(head, AsGroups(head), part + tail, [CycleGroup(rep, unit, part[0].from, part[|part| - 1].to)] + AsGroups(tail), 0);
  }

  lemma CutInThree(runs: seq<Run>, start: nat, u: nat, end: nat)
    requires start + u <= end <= |runs| && 0 < u
    ensures runs == runs[..start] + (runs[start..end] + runs[end..])
    ensures runs[start..start + u] <= runs[start..end] && runs[start..start + u] != []
    ensures runs[start] == runs[start..end][0] && runs[end - 1] == runs[start..end][end - start - 1]
  {
  }

  lemma GroupsAroundFold(runs: seq<Run>, rep: nat, start: nat, u: nat, end: nat)
    requires Tile(runs, 0) && rep >= 2 && start + u <= end <= |runs| && 0 < u
    requires Blocks(runs[start..end], runs[start..start + u], rep)
    ensures Folds(runs, GroupsAround(runs, rep, start, u, end), 0)
  {
    hide Folds, Tile, AsGroups, Blocks, GroupsAround;
    CutInThree(runs, start, u, end);
    AroundIsThree(runs, rep, start, u, end);
    ThreePartsFold(runs[..start], runs[start..end], runs[end..], runs[start..start + u], rep);
  }

  lemma AroundIsThree(runs: seq<Run>, rep: nat, start: nat, u: nat, end: nat)
    requires start + u <= end <= |runs| && 0 < u
    ensures GroupsAround(runs, rep, start, u, end) ==
            AsGroups(runs[..start])
            + ([CycleGroup(rep, runs[start..start + u], runs[start].from, runs[end - 1].to)] + AsGroups(runs[end..]))
  {
    hide AsGroups;
  }

  lemma CycleFolds(runs: seq<Run>, c: Cycle)
    requires Tile(runs, 0) && c.rep >= 2 && Repeats(Sigs(runs), c.start, c.unitLen, c.rep)
    ensures Folds(runs, BestGroups(runs, c), 0)
  {
    hide Folds, Tile, Blocks, RepeatsFrom, GroupsAround;
    var end := c.start + c.unitLen * c.rep;
    RoomFor(Sigs(runs), c);
    hide Sigs;
    RepeatsAreBlocks(runs, c.start, c.start, c.unitLen, c.rep, end);
    GroupsAroundFold(runs, c.rep, c.start, c.unitLen, end);
  }

  lemma RoomFor(sig: seq<Sig>, c: Cycle)
    requires c.rep >= 2 && Repeats(sig, c.start, c.unitLen, c.rep)
    ensures 0 < c.unitLen <= c.unitLen * c.rep && c.start + c.unitLen * c.rep <= |sig|
  {
    TimesMonotone(c.unitLen, 1, c.rep);
    Fits(sig, c.start, c.start, c.unitLen, c.rep);
  }

  /** Fold runs into groups around the best cycle. */
  method BuildGroups(runs: seq<Run>) returns (groups: seq<Group>)
    requires Tile(runs, 0)
    ensures Folds(runs, groups, 0)
    ensures NothingRepeats(Sigs(runs)) ==> groups == AsGroups(runs)
    ensures !NothingRepeats(Sigs(runs)) ==> exists c :: Best(Sigs(runs), c) && groups == BestGroups(runs, c)
  {
    var cyc := DetectCycle(runs);
    if cyc.None? {
      PlainRunsFold(runs, 0);
      return AsGroups(runs);
    }
    var c := cyc.value;
    CycleFolds(runs, c);
    RoomFor(Sigs(runs), c);
    groups := GroupsFrom(runs, c.rep, c.start, c.unitLen, c.start + c.unitLen * c.rep);
  }

  /** The three pushes of the fold: the head, the cycle, the tail. */
  method GroupsFrom(runs: seq<Run>, rep: nat, start: nat, u: nat, end: nat) returns (groups: seq<Group>)
    requires start + u <= end <= |runs| && 0 < u
    ensures groups == GroupsAround(runs, rep, start, u, end)
  {
    groups := [];
    for i := 0 to start
      invariant groups == AsGroups(runs[..i])
    {
      groups := groups + [RunGroup(runs[i])];
    }
    groups := groups + [CycleGroup(rep, runs[start..start + u], runs[start].from, runs[end - 1].to)];
    ghost var front := groups;
    for i := end to |runs|
      invariant groups == front + AsGroups(runs[end..i])
    {
      groups := groups + [RunGroup(runs[i])];
      assert AsGroups(runs[end..i + 1]) == AsGroups(runs[end..i]) + [RunGroup(runs[i])];
    }
    assert runs[end..|runs|] == runs[end..];
  }

  // ---- The config's patterns ----------------------------------------------------------

  /** The config facts that decide the pattern. `fullLayers` are the 1-based indices of an
      explicit list; the two intervals count layers. */
  datatype Config = Config(
    layers: int, fullLayers: Option<set<int>>, linearIsDeltaNet: bool, hasLinear: bool, interval: Option<int>,
    slidingPattern: Option<int>, hasSlidingWindow: bool, uniform: AttnKind, isMoe: bool, firstKDense: Option<int>)

  /** Layer `i` is the `k`-th of its period. */
  predicate Kth(i: nat, k: int)
    requires k > 0
  {
    (i + 1) % k == 0
  }

  /** Every `k`-th layer is `full`, the others `linear`. */
  function Interval(k: int, n: nat, linear: AttnKind, full: AttnKind): (r: seq<AttnKind>)
    requires k > 0
    ensures |r| == n
  {
    seq(n, i requires 0 <= i < n => if Kth(i, k) then full else linear)
  }

  function PerLayerAttn(c: Config, n: nat): (r: seq<AttnKind>)
    ensures |r| == n
  {
    if c.fullLayers.Some? then
      seq(n, i => if i + 1 in c.fullLayers.value then MLA else if c.linearIsDeltaNet then GatedDeltaNet else KDA)
    else if c.hasLinear && c.interval.Some? && c.interval.value > 0 then
      Interval(c.interval.value, n, GatedDeltaNet, GQA)
    else if c.slidingPattern.Some? && c.slidingPattern.value > 0 && c.hasSlidingWindow then
      Interval(c.slidingPattern.value, n, Sliding, Global)
    else Copies(c.uniform, n)
  }

  /** The period and the two operators of an interval pattern, when the config has one. */
  function PatternOf(c: Config): Option<(int, AttnKind, AttnKind)> {
    if c.fullLayers.Some? then None
    else if c.hasLinear && c.interval.Some? && c.interval.value > 0 then Some((c.interval.value, GatedDeltaNet, GQA))
    else if c.slidingPattern.Some? && c.slidingPattern.value > 0 && c.hasSlidingWindow then
      Some((c.slidingPattern.value, Sliding, Global))
    else None
  }

  lemma IntervalIsMixed(c: Config, n: nat)
    ensures var p := PatternOf(c);
            p.Some? && p.value.0 >= 2 && n >= 2 * p.value.0 ==>
              PerLayerAttn(c, n) == Interval(p.value.0, n, p.value.1, p.value.2) && !Uniform(PerLayerAttn(c, n))
  {
    var p := PatternOf(c);
    if p.Some? && p.value.0 >= 2 && n >= 2 * p.value.0 {
      var k := p.value.0;
      KthFacts(0, k);
      KthFacts(k - 1, k);
      assert PerLayerAttn(c, n)[k - 1] != PerLayerAttn(c, n)[0];
    }
  }

  /** With an explicit list, a layer attends fully exactly when the list names it, counted from one. */
  lemma ListedLayersAreFull(c: Config, n: nat, i: nat)
    requires c.fullLayers.Some? && i < n
    ensures PerLayerAttn(c, n)[i] == MLA <==> i + 1 in c.fullLayers.value
    ensures PerLayerAttn(c, n)[i] != MLA ==> PerLayerAttn(c, n)[i] == if c.linearIsDeltaNet then GatedDeltaNet else KDA
  {
  }

  /** Without one, an interval makes every layer whose number, counted from one, is a multiple of it
      a full one, the interval of the linear operator before that of the sliding window; with
      neither the stack is uniform. */
  lemma UnlistedLayers(c: Config, n: nat, i: nat)
    requires c.fullLayers.None? && i < n
    ensures var a := PerLayerAttn(c, n)[i];
            if c.hasLinear && c.interval.GetOr(0) > 0 then
              (a == GQA || a == GatedDeltaNet) && (a == GQA <==> (i + 1) % c.interval.value == 0)
            else if c.hasSlidingWindow && c.slidingPattern.GetOr(0) > 0 then
              (a == Global || a == Sliding) && (a == Global <==> (i + 1) % c.slidingPattern.value == 0)
            else a == c.uniform
  {
  }

  /** A dense model is dense throughout; a mixture-of-experts model is dense in its first layers, as
      many as the config says, and nowhere else. */
  lemma DenseLayers(c: Config, n: nat, i: nat)
    requires i < n
    ensures PerLayerFfn(c, n)[i] == Dense <==> !c.isMoe || (c.firstKDense.Some? && i < c.firstKDense.value)
  {
  }

  function PerLayerFfn(c: Config, n: nat): (r: seq<FfnKind>)
    ensures |r| == n
  {
    var k := c.firstKDense.GetOr(0);
    var dense := if k < 0 then 0 else if k > n then n else k;
    seq(n, i => if c.isMoe && i >= dense then Moe else Dense)
  }

  datatype Cell = Cell(index: nat, attn: AttnKind, ffn: FfnKind)

  datatype Layout = Layout(strip: seq<Cell>, groups: seq<Group>)

  predicate Uniform<T(==)>(s: seq<T>) {
    forall i | 0 <= i < |s| :: s[i] == s[0]
  }

  /** The layout of a mixed stack, or none for a uniform one (or one without layers). What the
      groups stand for is the strip's attention track, layer for layer. */
  method BuildLayerLayout(c: Config) returns (layout: Option<Layout>)
    ensures layout.None? <==> c.layers <= 0 || (Uniform(PerLayerAttn(c, c.layers)) && Uniform(PerLayerFfn(c, c.layers)))
    ensures layout.Some? ==>
              var Layout(strip, groups) := layout.value;
              && |strip| == c.layers
              && (forall i | 0 <= i < |strip| :: strip[i] == Cell(i, PerLayerAttn(c, c.layers)[i], PerLayerFfn(c, c.layers)[i]))
              && ExpandGroups(groups) == PerLayerAttn(c, c.layers)
              && TileGroups(groups, 0) && TotalLayers(groups) == c.layers
    ensures layout.Some? ==>
              exists runs :: Expand(runs) == PerLayerAttn(c, c.layers) && Tile(runs, 0) && Maximal(runs)
                          && FoldedAround(runs, layout.value.groups)
    ensures var p := PatternOf(c);
            p.Some? && p.value.0 >= 2 && c.layers >= 2 * p.value.0 ==>
              var k, n := p.value.0, c.layers;
              layout.Some? && layout.value.groups == PeriodGroups(k, n, p.value.1, p.value.2)
  {
    if c.layers <= 0 {
      return None;
    }
    var attn, ffn := PerLayerAttn(c, c.layers), PerLayerFfn(c, c.layers);
    IntervalIsMixed(c, c.layers);
    if Uniform(attn) && Uniform(ffn) {
      return None;
    }
    var strip := seq(c.layers, i requires 0 <= i < |attn| => Cell(i, attn[i], ffn[i]));
    var runs := RunLengthAttn(attn);
    var groups := BuildGroups(runs);
    ExpandLength(runs);
    layout := Some(Layout(strip, groups));
    var p := PatternOf(c);
    if p.Some? && p.value.0 >= 2 && c.layers >= 2 * p.value.0 {
      IntervalRecovered(p.value.0, c.layers, p.value.1, p.value.2, runs, groups);
    }
  }

  /** The groups are the plain runs when nothing repeats, else the fold around a best cycle. */
  ghost predicate FoldedAround(runs: seq<Run>, groups: seq<Group>) {
    if NothingRepeats(Sigs(runs)) then groups == AsGroups(runs)
    else exists c :: Best(Sigs(runs), c) && groups == BestGroups(runs, c)
  }

  // ---- An interval pattern is recovered exactly ---------------------------------------

  /** `n / k` pairs of a linear run and a full layer, then what is left over. */
  function IntervalRuns(k: nat, n: nat, linear: AttnKind, full: AttnKind, lo: nat): seq<Run>
    requires k >= 2
  {
    if n == 0 then []
    else if n < k then [Run(linear, n, lo, lo + n - 1)]
    else [Run(linear, k - 1, lo, lo + k - 2), Run(full, 1, lo + k - 1, lo + k - 1)]
         + IntervalRuns(k, n - k, linear, full, lo + k)
  }

  lemma KthFacts(i: nat, k: nat)
    requires k >= 2
    ensures i < k - 1 ==> !Kth(i, k)
    ensures i == k - 1 ==> Kth(i, k)
    ensures i >= k ==> (Kth(i, k) <==> Kth(i - k, k))
  {
    if i >= k {
      ModStep(i + 1, k);
    }
  }

  lemma ModStep(n: nat, k: nat)
    requires 0 < k <= n
    ensures n / k == (n - k) / k + 1 && n % k == (n - k) % k
  {
    var q, r := (n - k) / k, (n - k) % k;
    assert n == (q + 1) * k + r;
    DivUnique(n, k, q + 1, r);
  }

  lemma DivUnique(n: nat, k: nat, q: nat, r: nat)
    requires n == q * k + r && r < k
    ensures n / k == q && n % k == r
  {
    var q', r' := n / k, n % k;
    assert n == q' * k + r';
    if q' < q {
      TimesMonotone(k, q' + 1, q);
    } else if q < q' {
      TimesMonotone(k, q + 1, q');
    }
  }

  lemma IntervalStep(k: nat, n: nat, linear: AttnKind, full: AttnKind)
    requires 2 <= k <= n
    ensures Interval(k, n, linear, full) == Copies(linear, k - 1) + Copies(full, 1) + Interval(k, n - k, linear, full)
  {
    hide Kth;
    var a, b := Interval(k, n, linear, full), Copies(linear, k - 1) + Copies(full, 1) + Interval(k, n - k, linear, full);
    forall i | 0 <= i < n
      ensures a[i] == b[i]
    {
      KthFacts(i, k);
    }
  }

  lemma IntervalShort(k: nat, n: nat, linear: AttnKind, full: AttnKind)
    requires n < k && k >= 2
    ensures Interval(k, n, linear, full) == Copies(linear, n)
  {
    hide Kth;
    forall i: nat | i < n
      ensures !Kth(i, k)
    {
      KthFacts(i, k);
    }
  }

  function Pair(k: nat, linear: AttnKind, full: AttnKind, lo: nat): seq<Run>
    requires k >= 2
  {
    [Run(linear, k - 1, lo, lo + k - 2), Run(full, 1, lo + k - 1, lo + k - 1)]
  }

  lemma PairFits(k: nat, linear: AttnKind, full: AttnKind, lo: nat, rest: seq<Run>)
    requires k >= 2 && linear != full && Tile(rest, lo + k) && Maximal(rest) && (rest != [] ==> rest[0].attn == linear)
    ensures var runs := Pair(k, linear, full, lo) + rest;
            && Expand(runs) == Copies(linear, k - 1) + Copies(full, 1) + Expand(rest) && Tile(runs, lo) && Maximal(runs)
  {
    var pair := Pair(k, linear, full, lo);
    var runs := pair + rest;
    assert runs[1..] == [pair[1]] + rest && runs[1..][1..] == rest;
    Assoc(Copies(linear, k - 1), Copies(full, 1), Expand(rest));
    forall i | 0 <= i < |runs| - 1
      ensures runs[i].attn != runs[i + 1].attn
    {
      if i >= 2 {
        assert rest[i - 2].attn != rest[i - 2 + 1].attn;
      }
    }
  }

  lemma {:induction false} IntervalRunsFit(k: nat, n: nat, linear: AttnKind, full: AttnKind, lo: nat)
    requires k >= 2 && linear != full
    ensures var runs := IntervalRuns(k, n, linear, full, lo);
            && Expand(runs) == Interval(k, n, linear, full) && Tile(runs, lo) && Maximal(runs)
            && (runs != [] ==> runs[0].attn == linear)
  {
    hide Interval;
    var runs := IntervalRuns(k, n, linear, full, lo);
    if n < k {
      IntervalShort(k, n, linear, full);
      assert Copies(linear, n) + [] == Copies(linear, n);
    } else {
      IntervalRunsFit(k, n - k, linear, full, lo + k);
      IntervalStep(k, n, linear, full);
      PairFits(k, linear, full, lo, IntervalRuns(k, n - k, linear, full, lo + k));
    }
  }

  /** The signatures of an interval pattern: linear at even places, full at odd ones. */
  predicate Alternates(sig: seq<Sig>, m: nat, k: nat, linear: AttnKind, full: AttnKind) {
    && k >= 2 && 2 * m <= |sig| <= 2 * m + 1
    && (forall i | 0 <= i < |sig| :: sig[i].0 == if i % 2 == 0 then linear else full)
    && (forall i | 0 <= i < 2 * m :: sig[i].1 == if i % 2 == 0 then k - 1 else 1)
  }

  lemma AlternatesStep(sig: seq<Sig>, rest: seq<Sig>, m: nat, k: nat, linear: AttnKind, full: AttnKind)
    requires Alternates(rest, m, k, linear, full) && sig == [(linear, k - 1), (full, 1)] + rest
    ensures Alternates(sig, m + 1, k, linear, full)
  {
    forall i | 0 <= i < |sig|
      ensures sig[i].0 == (if i % 2 == 0 then linear else full)
      ensures i < 2 * (m + 1) ==> sig[i].1 == if i % 2 == 0 then k - 1 else 1
    {
      if i >= 2 {
        var j := i - 2;
        assert sig[i] == rest[j] && i % 2 == j % 2;
        assert rest[j].0 == if j % 2 == 0 then linear else full;
        assert j < 2 * m ==> rest[j].1 == if j % 2 == 0 then k - 1 else 1;
      }
    }
  }

  /** The `r` layers of `n` that are left after the pairs, as a run. */
  function Leftover(r: nat, n: nat, linear: AttnKind, lo: nat): seq<Run>
    requires r <= n
  {
    if r == 0 then [] else [Run(linear, r, lo + n - r, lo + n - 1)]
  }

  /** `n` is `q` periods of `k` and `r` more. */
  predicate Periods(n: nat, k: nat, q: nat, r: nat)
    decreases q
  {
    if q == 0 then n == r else n >= k && Periods(n - k, k, q - 1, r)
  }

  lemma {:induction false} PeriodsOf(n: nat, k: nat, q: nat, r: nat)
    requires n == k * q + r
    ensures Periods(n, k, q, r)
    decreases q
  {
    if q > 0 {
      TimesSucc(k, q - 1);
      PeriodsOf(n - k, k, q - 1, r);
    }
  }

  lemma ShapeStep(k: nat, q: nat, linear: AttnKind, full: AttnKind, lo: nat, rest: seq<Run>)
    requires Alternates(Sigs(rest), q, k, linear, full)
    ensures var runs := Pair(k, linear, full, lo) + rest;
            && Alternates(Sigs(runs), q + 1, k, linear, full)
            && runs[2 * q + 2..] == rest[2 * q..]
            && runs[2 * q + 1].to == if q == 0 then lo + k - 1 else rest[2 * q - 1].to
  {
    var runs := Pair(k, linear, full, lo) + rest;
    assert Sigs(runs) == [(linear, k - 1), (full, 1)] + Sigs(rest);
    AlternatesStep(Sigs(runs), Sigs(rest), q, k, linear, full);
  }

  /** What the runs of an interval pattern look like: `q` pairs and then `r` layers. */
  predicate Shaped(runs: seq<Run>, k: nat, n: nat, q: nat, r: nat, linear: AttnKind, full: AttnKind, lo: nat)
    requires r <= n
  {
    && Alternates(Sigs(runs), q, k, linear, full)
    && 2 * q <= |runs| && runs[2 * q..] == Leftover(r, n, linear, lo)
    && (q > 0 ==> runs[2 * q - 1].to == lo + n - r - 1)
  }

  lemma NextPair(k: nat, n: nat, q: nat, r: nat, linear: AttnKind, full: AttnKind, lo: nat, rest: seq<Run>)
    requires k >= 2 && r + k <= n && Shaped(rest, k, n - k, q, r, linear, full, lo + k) && (q == 0 ==> n - k == r)
    ensures Shaped(Pair(k, linear, full, lo) + rest, k, n, q + 1, r, linear, full, lo)
  {
    hide Alternates, Sigs;
    ShapeStep(k, q, linear, full, lo, rest);
  }

  lemma {:induction false} PeriodsLeave(n: nat, k: nat, q: nat, r: nat)
    requires Periods(n, k, q, r)
    ensures r <= n && (q > 0 ==> r + k <= n)
    decreases q
  {
    if q > 0 { PeriodsLeave(n - k, k, q - 1, r); }
  }

  lemma NoPair(k: nat, n: nat, linear: AttnKind, full: AttnKind, lo: nat)
    requires k >= 2 && n < k
    ensures Shaped(IntervalRuns(k, n, linear, full, lo), k, n, 0, n, linear, full, lo)
  {
    var runs := IntervalRuns(k, n, linear, full, lo);
    assert runs[0..] == runs;
  }

  lemma IntervalRunsStep(k: nat, n: nat, linear: AttnKind, full: AttnKind, lo: nat)
    requires 2 <= k <= n
    ensures IntervalRuns(k, n, linear, full, lo) == Pair(k, linear, full, lo) + IntervalRuns(k, n - k, linear, full, lo + k)
  {
  }

  lemma {:induction false} IntervalShape(k: nat, n: nat, q: nat, r: nat, linear: AttnKind, full: AttnKind, lo: nat)
    requires k >= 2 && Periods(n, k, q, r) && r < k && r <= n
    ensures Shaped(IntervalRuns(k, n, linear, full, lo), k, n, q, r, linear, full, lo)
    decreases q
  {
    hide Shaped, IntervalRuns, Pair;
    if q == 0 {
      NoPair(k, n, linear, full, lo);
    } else {
      PeriodsLeave(n, k, q, r);
      PeriodsLeave(n - k, k, q - 1, r);
      IntervalRunsStep(k, n, linear, full, lo);
      IntervalShape(k, n - k, q - 1, r, linear, full, lo + k);
      NextPair(k, n, q - 1, r, linear, full, lo, IntervalRuns(k, n - k, linear, full, lo + k));
    }
  }

  lemma {:induction false} PairsRepeat(sig: seq<Sig>, m: nat, k: nat, linear: AttnKind, full: AttnKind, j: nat)
    requires Alternates(sig, m, k, linear, full) && j <= m && m >= 1
    ensures RepeatsFrom(sig, 0, 2 * j, 2, m - j)
    decreases m - j
  {
    if j < m {
      PairsRepeat(sig, m, k, linear, full, j + 1);
      assert sig[0..2] == [sig[0], sig[1]] && sig[2 * j..2 * j + 2] == [sig[2 * j], sig[2 * j + 1]];
      assert SameBlock(sig, 0, 2 * j, 2);
    }
  }

  /** In an alternating pattern a repeating unit has even length. */
  lemma UnitIsEven(sig: seq<Sig>, m: nat, k: nat, linear: AttnKind, full: AttnKind, s: nat, u: nat, r: nat)
    requires Alternates(sig, m, k, linear, full) && linear != full && r >= 2 && Repeats(sig, s, u, r)
    ensures u % 2 == 0 && u >= 2 && (u * r) % 2 == 0
  {
    FirstAgain(sig, s, u, r);
    assert s % 2 == (s + u) % 2;
    var h := u / 2;
    assert u == 2 * h;
    assert u * r == 2 * (h * r);
  }

  /** The best cycle of an alternating pattern is the pair, from the first layer, as often as it fits. */
  lemma BestIsThePair(sig: seq<Sig>, m: nat, k: nat, linear: AttnKind, full: AttnKind, c: Cycle)
    requires Alternates(sig, m, k, linear, full) && linear != full && m >= 2 && Best(sig, c)
    ensures c == Cycle(0, 2, m)
  {
    assert |sig| <= 2 * m + 1;
    hide Alternates;
    PairsRepeat(sig, m, k, linear, full, 0);
    assert Repeats(sig, 0, 2, m);
    assert NoBetter(c, 0, 2, m);
    UnitIsEven(sig, m, k, linear, full, c.start, c.unitLen, c.rep);
    Fits(sig, c.start, c.start, c.unitLen, c.rep);
    hide RepeatsFrom, Best;
    var covered := c.unitLen * c.rep;
    assert 2 * m <= covered <= 2 * m + 1 && covered % 2 == 0;
    assert covered == 2 * m;
    assert c.start == 0 && c.unitLen == 2;
  }

  lemma TwoPeriods(k: nat, n: nat)
    requires k >= 2 && n >= 2 * k
    ensures n / k >= 2 && (n / k) * k == n - n % k && n % k < k && n == (n / k) * k + n % k
  {
    ModStep(n, k);
    ModStep(n - k, k);
    assert n == (n / k) * k + n % k;
  }

  /** `n / k` times `k - 1` linear layers and a full one, and the `n % k` linear layers left. */
  function PeriodGroups(k: nat, n: nat, linear: AttnKind, full: AttnKind): seq<Group>
    requires k >= 2 && n >= 2 * k
  {
    TwoPeriods(k, n);
    [CycleGroup(n / k, Pair(k, linear, full, 0), 0, (n / k) * k - 1)] + AsGroups(Leftover(n % k, n, linear, 0))
  }

  /** An interval pattern over at least two periods comes back as what it is: one cycle of
      `k - 1` linear layers and a full one, repeated as often as it fits, and the remaining
      layers as one linear run. */
  lemma IntervalRecovered(k: nat, n: nat, linear: AttnKind, full: AttnKind, runs: seq<Run>, groups: seq<Group>)
    requires k >= 2 && n >= 2 * k && linear != full
    requires Expand(runs) == Interval(k, n, linear, full) && Tile(runs, 0) && Maximal(runs) && FoldedAround(runs, groups)
    ensures groups == PeriodGroups(k, n, linear, full)
  {
    hide Interval, Expand, Tile, Maximal, Shaped, IntervalRuns, Leftover, Pair, Periods, FoldedAround, GroupsAround, Alternates;
    TwoPeriods(k, n);
    IntervalRunsFit(k, n, linear, full, 0);
    RunsAreCanonical(runs, IntervalRuns(k, n, linear, full, 0), 0);
    var q, r := n / k, n % k;
    assert n == q * k + r;
    PeriodsOf(n, k, q, r);
    IntervalShape(k, n, q, r, linear, full, 0);
    ShapedFolds(k, n, q, r, linear, full, runs, groups);
    IntervalRunsStep(k, n, linear, full, 0);
    PairGroups(k, q, linear, full, runs, IntervalRuns(k, n - k, linear, full, k));
  }

  lemma ShapedFolds(k: nat, n: nat, q: nat, r: nat, linear: AttnKind, full: AttnKind, runs: seq<Run>, groups: seq<Group>)
    requires r <= n && q >= 2 && linear != full && Shaped(runs, k, n, q, r, linear, full, 0) && FoldedAround(runs, groups)
    ensures 2 * q <= |runs| && runs[2 * q..] == Leftover(r, n, linear, 0) && runs[2 * q - 1].to == n - r - 1
    ensures groups == GroupsAround(runs, q, 0, 2, 2 * q)
  {
    hide Leftover, Alternates, FoldedAround, GroupsAround;
    PairsFold(k, q, linear, full, runs, groups);
  }

  /** The fold of an alternating pattern is around the pair. */
  lemma PairsFold(k: nat, m: nat, linear: AttnKind, full: AttnKind, runs: seq<Run>, groups: seq<Group>)
    requires m >= 2 && linear != full && Alternates(Sigs(runs), m, k, linear, full) && FoldedAround(runs, groups)
    ensures 2 * m <= |runs| && groups == GroupsAround(runs, m, 0, 2, 2 * m)
  {
    var sig := Sigs(runs);
    assert 2 * m <= |sig|;
    hide Alternates, Sigs, GroupsAround;
    PairsRepeat(sig, m, k, linear, full, 0);
    assert Repeats(sig, 0, 2, m);
    hide RepeatsFrom;
    var c :| Best(sig, c) && groups == BestGroups(runs, c);
    BestIsThePair(sig, m, k, linear, full, c);
  }

  lemma PairGroups(k: nat, m: nat, linear: AttnKind, full: AttnKind, runs: seq<Run>, rest: seq<Run>)
    requires k >= 2 && m >= 1 && runs == Pair(k, linear, full, 0) + rest && 2 * m <= |runs|
    ensures GroupsAround(runs, m, 0, 2, 2 * m) ==
            [CycleGroup(m, Pair(k, linear, full, 0), 0, runs[2 * m - 1].to)] + AsGroups(runs[2 * m..])
  {
    assert runs[..0] == [] && AsGroups(runs[..0]) == [];
    assert runs[0..2] == Pair(k, linear, full, 0);
  }
}
