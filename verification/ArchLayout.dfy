/** The geometry of the architecture figure: groups become nested boxes of cards along one
    vertical stack, with a strip on the left and panels on the right. Labels are left out. */
module ArchLayout {
  import opened Options
  import opened ArchSchematic

  const W := 260
  const H := 56
  const HN := 34
  const GAP := 26
  const X := 96
  const PAD := 16
  const STRIP_W := 26
  const STRIP_GAP := 30
  const PANEL_W := 250
  const PANEL_GAP := 90
  const PANEL_HEAD := 30
  const PANEL_ROW := 32
  const PANEL_PAD := 12
  const NOTE_H := 54
  const STRIP_X := X - PAD * 2 - STRIP_GAP - STRIP_W
  const PANEL_X := X + W + PANEL_GAP

  datatype Part = FirstNorm | Attn | SecondNorm | Ffn

  /** A card id: a node of the schematic, or a part of the n-th block. */
  datatype CardId = Named(name: string) | Blk(n: nat, part: Part)

  datatype NodeKind = EmbedNode | NormNode | AttentionNode | FfnNode | MoeNode | FinalNormNode | HeadNode

  datatype Node = Node(id: CardId, kind: NodeKind, inBlock: bool)

  datatype Card = Card(id: CardId, kind: NodeKind, x: int, y: int, w: int, h: int, attn: Option<AttnKind>)

  datatype BoxId = BlockBox(n: nat) | CycleBox(top: int) | Container

  datatype Box = Box(id: BoxId, x: int, y: int, w: int, h: int, count: nat)

  datatype Shape = Plain | Expert | More

  datatype PanelKind = AttentionPanel | MoePanel

  datatype Panel = Panel(id: string, kind: PanelKind, items: seq<Shape>, note: bool)

  datatype LaidPanel = LaidPanel(panel: Panel, anchor: CardId, x: int, y: int, w: int, h: int)

  datatype End = AtCard(id: CardId) | AtPanel(panel: string)

  datatype EdgeKind = Main | Residual | Leader

  datatype Edge = Edge(source: End, target: End, kind: EdgeKind)

  datatype Strip = Strip(x: int, y: int, w: int, h: int, cells: seq<Cell>)

  datatype Schematic = Schematic(nodes: seq<Node>, residuals: seq<(CardId, CardId)>, layers: int, layout: Option<Layout>)

  datatype Figure = Figure(cards: seq<Card>, boxes: seq<Box>, strip: Option<Strip>, edges: seq<Edge>, panels: seq<LaidPanel>)

  // ---- The FFN shown for a range of layers ---------------------------------------

  function CountIn(cells: seq<Cell>, from: nat, to: nat, kind: FfnKind): nat {
    if cells == [] then 0
    else CountIn(cells[..|cells| - 1], from, to, kind)
         + var c := cells[|cells| - 1]; if from <= c.index <= to && c.ffn == kind then 1 else 0
  }

  function FfnFor(cells: seq<Cell>, from: nat, to: nat): FfnKind {
    if CountIn(cells, from, to, Moe) >= CountIn(cells, from, to, Dense) then Moe else Dense
  }

  method FfnForRange(cells: seq<Cell>, from: nat, to: nat) returns (ffn: FfnKind)
    ensures ffn == FfnFor(cells, from, to)
    ensures ffn == Moe <==> CountIn(cells, from, to, Moe) >= CountIn(cells, from, to, Dense)
  {
    var moe, dense := 0, 0;
    for i := 0 to |cells|
      invariant moe == CountIn(cells[..i], from, to, Moe)
      invariant dense == CountIn(cells[..i], from, to, Dense)
    {
      var c := cells[i];
      assert cells[..i + 1][..i] == cells[..i];
      if c.index < from || c.index > to { continue; }
      if c.ffn == Moe { moe := moe + 1; } else { dense := dense + 1; }
    }
    assert cells[..|cells|] == cells;
    ffn := if moe >= dense then Moe else Dense;
  }

  /** A range whose layers all have one FFN is shown with it. */
  lemma {:induction false} OneFfnIsShown(cells: seq<Cell>, from: nat, to: nat, kind: FfnKind)
    requires forall c | c in cells && from <= c.index <= to :: c.ffn == kind
    requires exists c | c in cells :: from <= c.index <= to
    ensures FfnFor(cells, from, to) == kind
  {
    NoneOfTheOther(cells, from, to, kind);
    SomeOfIt(cells, from, to, kind);
  }

  lemma {:induction false} NoneOfTheOther(cells: seq<Cell>, from: nat, to: nat, kind: FfnKind)
    requires forall c | c in cells && from <= c.index <= to :: c.ffn == kind
    ensures forall other: FfnKind | other != kind :: CountIn(cells, from, to, other) == 0
  {
    if cells != [] {
      NoneOfTheOther(cells[..|cells| - 1], from, to, kind);
      assert cells[|cells| - 1] in cells;
    }
  }

  lemma {:induction false} SomeOfIt(cells: seq<Cell>, from: nat, to: nat, kind: FfnKind)
    requires forall c | c in cells && from <= c.index <= to :: c.ffn == kind
    requires exists c | c in cells :: from <= c.index <= to
    ensures CountIn(cells, from, to, kind) > 0
  {
    var last, init := cells[|cells| - 1], cells[..|cells| - 1];
    assert last in cells;
    if !(from <= last.index <= to) {
      var c :| c in cells && from <= c.index <= to;
      assert c in init;
      SomeOfIt(init, from, to, kind);
    }
  }

  // ---- Where groups go ---------------------------------------------------------------

  /** A block to draw: its operator, its FFN, its repeat count. */
  datatype Spec = Spec(attn: AttnKind, ffn: FfnKind, count: nat)

  function SpecOf(strip: seq<Cell>, r: Run): Spec {
    Spec(r.attn, FfnFor(strip, r.from, r.to), r.count)
  }

  const BLOCK_H := PAD + HN + GAP + H + GAP + HN + GAP + H + PAD

  function KindOf(ffn: FfnKind): NodeKind {
    if ffn == Moe then MoeNode else FfnNode
  }

  /** The four cards of block `n` with its box's top at `y`. */
  function BlockCards(n: nat, y: int, s: Spec): seq<Card> {
    [Card(Blk(n, FirstNorm), NormNode, X, y + PAD, W, HN, None),
     Card(Blk(n, Attn), AttentionNode, X, y + PAD + HN + GAP, W, H, Some(s.attn)),
     Card(Blk(n, SecondNorm), NormNode, X, y + PAD + HN + GAP + H + GAP, W, HN, None),
     Card(Blk(n, Ffn), KindOf(s.ffn), X, y + PAD + HN + GAP + H + GAP + HN + GAP, W, H, None)]
  }

  function BlockBoxAt(n: nat, y: int, s: Spec): Box {
    Box(BlockBox(n), X - PAD, y, W + PAD * 2, BLOCK_H, s.count)
  }

  /** Cards and boxes placed one after another, the next free block number and position. */
  datatype Placed = Placed(cards: seq<Card>, boxes: seq<Box>, n: nat, y: int)

  function PlaceBlocks(p: Placed, specs: seq<Spec>): Placed
    decreases |specs|
  {
    if specs == [] then p
    else PlaceBlocks(PlaceBlock(p, specs[0]), specs[1..])
  }

  function PlaceBlock(p: Placed, s: Spec): Placed {
    Placed(p.cards + BlockCards(p.n, p.y, s), p.boxes + [BlockBoxAt(p.n, p.y, s)], p.n + 1, p.y + BLOCK_H + GAP)
  }

  function SpecsOf(strip: seq<Cell>, runs: seq<Run>): (r: seq<Spec>)
    ensures |r| == |runs|
  {
    seq(|runs|, i requires 0 <= i < |runs| => SpecOf(strip, runs[i]))
  }

  /** The box around the blocks of a cycle that starts at `top` and whose blocks end at `y`. */
  function CycleBoxAt(top: int, y: int, rep: nat): Box {
    Box(CycleBox(top), X - PAD * 2, top, W + PAD * 4, y - GAP + PAD - top, rep)
  }

  function PlaceGroup(p: Placed, strip: seq<Cell>, g: Group): Placed {
    match g
    case RunGroup(r) => PlaceBlock(p, SpecOf(strip, r))
    case CycleGroup(rep, unit, _, _) =>
      var q := PlaceBlocks(p.(y := p.y + PAD), SpecsOf(strip, unit));
      q.(boxes := q.boxes + [CycleBoxAt(p.y, q.y, rep)], y := q.y - GAP + PAD + GAP)
  }

  function PlaceGroups(p: Placed, strip: seq<Cell>, groups: seq<Group>): Placed
    decreases |groups|
  {
    if groups == [] then p else PlaceGroups(PlaceGroup(p, strip, groups[0]), strip, groups[1..])
  }

  // ---- What the placing guarantees ----------------------------------------------------

  predicate Inside(c: Card, b: Box) {
    b.x <= c.x && c.x + c.w <= b.x + b.w && b.y <= c.y && c.y + c.h <= b.y + b.h
  }

  predicate Nested(a: Box, b: Box) {
    b.x < a.x && a.x + a.w < b.x + b.w && b.y < a.y && a.y + a.h < b.y + b.h
  }

  predicate Apart(a: Box, b: Box) {
    a.y + a.h + GAP <= b.y || b.y + b.h + GAP <= a.y
  }

  /** A box that holds blocks `a..b` and nothing else. */
  predicate Holds(b: Box, lo: nat, hi: nat, cards: seq<Card>) {
    forall c | c in cards :: Inside(c, b) <==> c.id.Blk? && lo <= c.id.n < hi
  }

  predicate Stacked(cards: seq<Card>) {
    forall i, j | 0 <= i < j < |cards| :: cards[i].y + cards[i].h + GAP <= cards[j].y
  }

  predicate Fine(boxes: seq<Box>) {
    forall i, j | 0 <= i < j < |boxes| :: Apart(boxes[i], boxes[j]) || Nested(boxes[i], boxes[j]) || Nested(boxes[j], boxes[i])
  }

  predicate InColumn(c: Card) {
    c.x == X && c.w == W && c.h > 0
  }

  predicate Framed(b: Box) {
    b.h > 0 && b.x <= X - PAD && b.x + b.w >= X + W + PAD && X - PAD * 2 <= b.x && b.x + b.w <= X + W + PAD * 2
  }

  /** Everything so far is above `p.y`, stacked, framed, and each block box holds its block. */
  predicate Sound(p: Placed) {
    && Stacked(p.cards) && Fine(p.boxes)
    && (forall c | c in p.cards :: InColumn(c) && c.y + c.h + GAP <= p.y && (c.id.Blk? ==> c.id.n < p.n))
    && (forall b | b in p.boxes :: Framed(b) && b.y + b.h + GAP <= p.y && b.id != Container)
    && (forall b | b in p.boxes && b.id.BlockBox? :: b.id.n < p.n && Holds(b, b.id.n, b.id.n + 1, p.cards))
  }

  lemma CardsOfBlock(n: nat, y: int, s: Spec)
    ensures var cs := BlockCards(n, y, s);
            && Stacked(cs)
            && (forall c | c in cs :: InColumn(c) && y + PAD <= c.y && c.y + c.h + PAD <= y + BLOCK_H && c.id.Blk? && c.id.n == n)
  {
  }

  lemma StackedAppend(a: seq<Card>, b: seq<Card>, y: int)
    requires Stacked(a) && Stacked(b)
    requires (forall c | c in a :: c.y + c.h + GAP <= y) && (forall c | c in b :: y <= c.y)
    ensures Stacked(a + b)
  {
    forall i, j | 0 <= i < j < |a + b|
      ensures (a + b)[i].y + (a + b)[i].h + GAP <= (a + b)[j].y
    {
      assert i < |a| ==> (a + b)[i] in a;
      assert j >= |a| ==> (a + b)[j] in b;
    }
  }

  lemma FineSnoc(boxes: seq<Box>, b: Box)
    requires Fine(boxes) && forall a | a in boxes :: Apart(a, b) || Nested(a, b)
    ensures Fine(boxes + [b])
  {
  }

  lemma PlaceBlockSound(p: Placed, s: Spec)
    requires Sound(p)
    ensures Sound(PlaceBlock(p, s))
  {
    var cs, b := BlockCards(p.n, p.y, s), BlockBoxAt(p.n, p.y, s);
    var q := PlaceBlock(p, s);
    CardsOfBlock(p.n, p.y, s);
    StackedAppend(p.cards, cs, p.y);
    FineSnoc(p.boxes, b);
    forall x, c | x in q.boxes && x.id.BlockBox? && c in q.cards
      ensures Inside(c, x) <==> c.id.Blk? && x.id.n <= c.id.n < x.id.n + 1
    {
      if x in p.boxes && c in p.cards {
      } else if x in p.boxes {
        assert c in cs;
      } else if c in p.cards {
        assert x == b;
      }
    }
  }

  /** What placing more blocks leaves alone, and where the new ones are. */
  predicate Extends(p: Placed, q: Placed) {
    && p.cards <= q.cards && p.boxes <= q.boxes && p.n <= q.n && p.y <= q.y
    && (forall c | c in q.cards[|p.cards|..] :: c.y >= p.y + PAD && c.id.Blk? && p.n <= c.id.n < q.n)
    && (forall b | b in q.boxes[|p.boxes|..] :: b.y >= p.y && (b.id.BlockBox? ==> p.n <= b.id.n))
  }

  lemma ExtendsTransitive(p: Placed, q: Placed, r: Placed)
    requires Extends(p, q) && Extends(q, r)
    ensures Extends(p, r)
  {
    forall c | c in r.cards[|p.cards|..]
      ensures c in q.cards[|p.cards|..] || c in r.cards[|q.cards|..]
    {
      var i :| |p.cards| <= i < |r.cards| && r.cards[i] == c;
      if i < |q.cards| { assert q.cards[i] == c; }
    }
    forall b | b in r.boxes[|p.boxes|..]
      ensures b in q.boxes[|p.boxes|..] || b in r.boxes[|q.boxes|..]
    {
      var i :| |p.boxes| <= i < |r.boxes| && r.boxes[i] == b;
      if i < |q.boxes| { assert q.boxes[i] == b; }
    }
  }

  lemma PlaceBlockExtends(p: Placed, s: Spec)
    ensures Extends(p, PlaceBlock(p, s))
  {
    var q := PlaceBlock(p, s);
    CardsOfBlock(p.n, p.y, s);
    assert q.cards[|p.cards|..] == BlockCards(p.n, p.y, s);
    assert q.boxes[|p.boxes|..] == [BlockBoxAt(p.n, p.y, s)];
  }

  lemma {:induction false} PlaceBlocksSound(p: Placed, specs: seq<Spec>)
    requires Sound(p)
    ensures var q := PlaceBlocks(p, specs);
            && Sound(q) && Extends(p, q) && q.n == p.n + |specs|
            && (specs != [] ==> q.y >= p.y + BLOCK_H + GAP) && (specs == [] ==> q.y == p.y)
            && (forall b | b in q.boxes[|p.boxes|..] ::
                  b.id.BlockBox? && p.n <= b.id.n && b.x == X - PAD && b.w == W + PAD * 2 && b.y + b.h + GAP <= q.y)
    decreases |specs|
  {
    hide Sound;
    if specs != [] {
      var m := PlaceBlock(p, specs[0]);
      PlaceBlockSound(p, specs[0]);
      PlaceBlockExtends(p, specs[0]);
      PlaceBlocksSound(m, specs[1..]);
      var q := PlaceBlocks(p, specs);
      ExtendsTransitive(p, m, q);
      assert m.boxes <= q.boxes;
      forall b | b in q.boxes[|p.boxes|..]
        ensures b == BlockBoxAt(p.n, p.y, specs[0]) || b in q.boxes[|m.boxes|..]
      {
        var i :| |p.boxes| <= i < |q.boxes| && q.boxes[i] == b;
        if i < |m.boxes| { assert m.boxes[i] == b; }
      }
    } else {
      assert p.cards[|p.cards|..] == [] && p.boxes[|p.boxes|..] == [];
    }
  }

  // ---- Groups ---------------------------------------------------------------------------

  function BlocksIn(g: Group): nat {
    match g
    case RunGroup(_) => 1
    case CycleGroup(_, unit, _, _) => |unit|
  }

  /** A cycle of no runs would draw an empty box; the folding never makes one. */
  predicate NoEmptyCycle(groups: seq<Group>) {
    forall g | g in groups && g.CycleGroup? :: g.unit != []
  }

  /** `b` is a box around exactly the blocks `lo..hi`: their cards, their boxes, nothing else. */
  predicate Wraps(b: Box, lo: nat, hi: nat, p: Placed) {
    && Holds(b, lo, hi, p.cards)
    && forall a | a in p.boxes && a.id.BlockBox? :: Nested(a, b) <==> lo <= a.id.n < hi
  }

  /** Block `n` is there and shows `s`: its box the repeat count, its cards the operator, the FFN and
      two norms, and no other box or card goes by those names. */
  predicate Shows(p: Placed, n: nat, s: Spec) {
    && (exists b | b in p.boxes :: b.id == BlockBox(n))
    && (forall b | b in p.boxes && b.id == BlockBox(n) :: b.count == s.count)
    && (exists c | c in p.cards :: c.id == Blk(n, Attn))
    && (forall c | c in p.cards && c.id == Blk(n, Attn) :: c.kind == AttentionNode && c.attn == Some(s.attn))
    && (exists c | c in p.cards :: c.id == Blk(n, Ffn))
    && (forall c | c in p.cards && c.id == Blk(n, Ffn) :: c.kind == (match s.ffn case Moe => MoeNode case Dense => FfnNode))
    && (forall c | c in p.cards && (c.id == Blk(n, FirstNorm) || c.id == Blk(n, SecondNorm)) :: c.kind == NormNode)
  }

  /** The blocks from `n` on show these specs, in order. */
  predicate ShowsAll(p: Placed, n: nat, specs: seq<Spec>) {
    forall i | 0 <= i < |specs| :: Shows(p, n + i, specs[i])
  }

  /** Every group, in order, has its own blocks, and a cycle has a box around exactly them. */
  ghost predicate Drawn(strip: seq<Cell>, groups: seq<Group>, n: nat, p: Placed) {
    groups == [] || (GroupIsDrawn(strip, groups[0], n, p) && Drawn(strip, groups[1..], n + BlocksIn(groups[0]), p))
  }

  /** One group drawn: a run as its block, a cycle as a box around exactly its blocks, each
      block with the operator, the FFN of its layers and the count of its run. */
  ghost predicate GroupIsDrawn(strip: seq<Cell>, g: Group, n: nat, p: Placed) {
    match g
    case RunGroup(r) => Shows(p, n, SpecOf(strip, r))
    case CycleGroup(rep, unit, _, _) =>
      && ShowsAll(p, n, SpecsOf(strip, unit))
      && exists b | b in p.boxes :: b.id.CycleBox? && b.count == rep && Wraps(b, n, n + |unit|, p)
  }

  lemma PlaceBlockShows(p: Placed, s: Spec)
    requires Sound(p)
    ensures Shows(PlaceBlock(p, s), p.n, s)
  {
    var q, cs, b := PlaceBlock(p, s), BlockCards(p.n, p.y, s), BlockBoxAt(p.n, p.y, s);
    assert b in q.boxes && cs[1] in q.cards && cs[3] in q.cards;
    assert forall x | x in p.boxes :: x.id != BlockBox(p.n);
    assert forall c | c in p.cards :: !(c.id.Blk? && c.id.n == p.n);
    hide Sound;
    assert forall x | x in q.boxes :: x in p.boxes || x == b;
    assert forall c | c in q.cards :: c in p.cards || c in cs;
  }

  lemma ShowsLater(p: Placed, q: Placed, n: nat, s: Spec)
    requires Shows(p, n, s) && Extends(p, q) && n < p.n
    ensures Shows(q, n, s)
  {
    OldOrNew(p, q);
    assert forall b | b in p.boxes :: b in q.boxes;
    assert forall c | c in p.cards :: c in q.cards;
  }

  lemma ShowsAllLater(p: Placed, q: Placed, n: nat, specs: seq<Spec>)
    requires ShowsAll(p, n, specs) && Extends(p, q) && n + |specs| <= p.n
    ensures ShowsAll(q, n, specs)
  {
    hide Shows, Extends;
    forall i | 0 <= i < |specs|
      ensures Shows(q, n + i, specs[i])
    {
      ShowsLater(p, q, n + i, specs[i]);
    }
  }

  lemma ShowsAllCons(q: Placed, n: nat, specs: seq<Spec>)
    requires specs != [] && Shows(q, n, specs[0]) && ShowsAll(q, n + 1, specs[1..])
    ensures ShowsAll(q, n, specs)
  {
    hide Shows;
    forall i | 0 <= i < |specs|
      ensures Shows(q, n + i, specs[i])
    {
      if i > 0 { assert Shows(q, n + 1 + (i - 1), specs[1..][i - 1]); }
    }
  }

  lemma PlaceBlocksExtend(p: Placed, specs: seq<Spec>)
    requires Sound(p)
    ensures Extends(p, PlaceBlocks(p, specs)) && PlaceBlocks(p, specs).n == p.n + |specs|
  {
    hide Sound, Extends, PlaceBlocks;
    PlaceBlocksSound(p, specs);
  }

  lemma OneBlockMore(p: Placed, specs: seq<Spec>)
    requires specs != []
    ensures PlaceBlocks(p, specs) == PlaceBlocks(PlaceBlock(p, specs[0]), specs[1..]) && PlaceBlock(p, specs[0]).n == p.n + 1
  {
  }

  lemma {:induction false} PlaceBlocksShow(p: Placed, specs: seq<Spec>)
    requires Sound(p)
    ensures ShowsAll(PlaceBlocks(p, specs), p.n, specs)
    decreases |specs|
  {
    hide Sound, Shows, Extends, PlaceBlock, PlaceBlocks;
    if specs != [] {
      hide ShowsAll;
      var m, q := PlaceBlock(p, specs[0]), PlaceBlocks(p, specs);
      OneBlockMore(p, specs);
      PlaceBlockSound(p, specs[0]);
      PlaceBlockShows(p, specs[0]);
      PlaceBlocksExtend(m, specs[1..]);
      PlaceBlocksShow(m, specs[1..]);
      ShowsLater(m, q, p.n, specs[0]);
      ShowsAllCons(q, p.n, specs);
    }
  }

  /** A box more changes nothing about what the blocks show, unless it is another block's. */
  lemma ShowsAllBoxed(q: Placed, r: Placed, b: Box, n: nat, specs: seq<Spec>)
    requires ShowsAll(q, n, specs) && r.cards == q.cards && r.boxes == q.boxes + [b] && !b.id.BlockBox?
    ensures ShowsAll(r, n, specs)
  {
    forall i | 0 <= i < |specs|
      ensures Shows(r, n + i, specs[i])
    {
      assert Shows(q, n + i, specs[i]);
      assert forall x | x in q.boxes :: x in r.boxes;
    }
  }

  /** The blocks of a cycle placed, its box still to come. */
  predicate InnerBlocks(p: Placed, q: Placed) {
    && Sound(q) && Extends(p.(y := p.y + PAD), q) && q.y >= p.y + PAD + BLOCK_H + GAP
    && (forall a | a in q.boxes[|p.boxes|..] ::
          a.id.BlockBox? && p.n <= a.id.n && a.x == X - PAD && a.w == W + PAD * 2 && a.y + a.h + GAP <= q.y)
  }

  lemma OldOrNew(p: Placed, q: Placed)
    requires Extends(p, q)
    ensures forall a | a in q.boxes :: a in p.boxes || a in q.boxes[|p.boxes|..]
    ensures forall c | c in q.cards :: c in p.cards || c in q.cards[|p.cards|..]
  {
    forall a | a in q.boxes
      ensures a in p.boxes || a in q.boxes[|p.boxes|..]
    {
      var i :| 0 <= i < |q.boxes| && q.boxes[i] == a;
      if i < |p.boxes| { assert p.boxes[i] == a; }
    }
    forall c | c in q.cards
      ensures c in p.cards || c in q.cards[|p.cards|..]
    {
      var i :| 0 <= i < |q.cards| && q.cards[i] == c;
      if i < |p.cards| { assert p.cards[i] == c; }
    }
  }

  function Closed(p: Placed, q: Placed, rep: nat): Placed {
    q.(boxes := q.boxes + [CycleBoxAt(p.y, q.y, rep)], y := q.y - GAP + PAD + GAP)
  }

  /** The last box is a cycle's, ends where the stack ends and wraps the blocks since `p`. */
  predicate LastIsCycle(p: Placed, r: Placed, rep: nat)
    requires r.boxes != []
  {
    var b := r.boxes[|r.boxes| - 1];
    b.id.CycleBox? && b.count == rep && Wraps(b, p.n, r.n, r) && b.y + b.h + GAP == r.y && b.y == p.y
  }

  lemma ClosedSound(p: Placed, q: Placed, rep: nat)
    requires Sound(p) && InnerBlocks(p, q)
    ensures var r := Closed(p, q, rep);
            && Sound(r) && Extends(p, r) && r.n == q.n && r.y >= p.y + BLOCK_H + GAP && r.boxes != []
            && LastIsCycle(p, r, rep)
  {
    var b := CycleBoxAt(p.y, q.y, rep);
    OldOrNew(p.(y := p.y + PAD), q);
    CycleWraps(p, q, b);
    FineSnoc(q.boxes, b);
    var r := Closed(p, q, rep);
    assert r.boxes[|p.boxes|..] == q.boxes[|p.boxes|..] + [b];
    forall a | a in r.boxes
      ensures a in q.boxes || a == b
    {
    }
  }

  lemma LowerIsSound(p: Placed)
    requires Sound(p)
    ensures Sound(p.(y := p.y + PAD))
  {
  }

  lemma CycleSound(p: Placed, strip: seq<Cell>, g: Group)
    requires Sound(p) && g.CycleGroup? && g.unit != []
    ensures var r := PlaceGroup(p, strip, g);
            && Sound(r) && Extends(p, r) && r.n == p.n + |g.unit| && r.y >= p.y + BLOCK_H + GAP && r.boxes != []
            && LastIsCycle(p, r, g.rep)
  {
    hide Sound, Extends, PlaceBlocks, SpecsOf, LastIsCycle, CycleBoxAt, PlaceGroup;
    var p0, specs := p.(y := p.y + PAD), SpecsOf(strip, g.unit);
    LowerIsSound(p);
    PlaceBlocksSound(p0, specs);
    var q := PlaceBlocks(p0, specs);
    assert specs != [];
    ClosedSound(p, q, g.rep);
    CycleIsClosed(p, strip, g);
  }

  lemma CycleIsClosed(p: Placed, strip: seq<Cell>, g: Group)
    requires g.CycleGroup?
    ensures PlaceGroup(p, strip, g) == Closed(p, PlaceBlocks(p.(y := p.y + PAD), SpecsOf(strip, g.unit)), g.rep)
  {
  }

  lemma CycleWraps(p: Placed, q: Placed, b: Box)
    requires Sound(p) && Sound(q) && Extends(p.(y := p.y + PAD), q) && q.y >= p.y + PAD + GAP
    requires b.y == p.y && b.h == q.y - GAP + PAD - p.y && b.x == X - PAD * 2 && b.w == W + PAD * 4
    requires forall a | a in q.boxes :: a in p.boxes || a in q.boxes[|p.boxes|..]
    requires forall c | c in q.cards :: c in p.cards || c in q.cards[|p.cards|..]
    requires forall a | a in q.boxes[|p.boxes|..] :: a.id.BlockBox? && p.n <= a.id.n && a.x == X - PAD && a.w == W + PAD * 2 && a.y + a.h + GAP <= q.y
    ensures Wraps(b, p.n, q.n, q)
    ensures forall a | a in q.boxes :: Apart(a, b) || Nested(a, b)
  {
    forall c | c in q.cards
      ensures Inside(c, b) <==> c.id.Blk? && p.n <= c.id.n < q.n
    {
      assert InColumn(c);
    }
  }

  lemma PlaceGroupSound(p: Placed, strip: seq<Cell>, g: Group)
    requires Sound(p) && (g.CycleGroup? ==> g.unit != [])
    ensures var r := PlaceGroup(p, strip, g);
            && Sound(r) && Extends(p, r) && r.n == p.n + BlocksIn(g) && r.y >= p.y + BLOCK_H + GAP
            && r.boxes != [] && r.boxes[|r.boxes| - 1].y + r.boxes[|r.boxes| - 1].h + GAP == r.y
            && r.boxes[|r.boxes| - 1].y == p.y
  {
    hide Sound, Extends;
    match g
    case RunGroup(run) =>
      PlaceBlockSound(p, SpecOf(strip, run));
      PlaceBlockExtends(p, SpecOf(strip, run));
    case CycleGroup(_, unit, _, _) =>
      CycleSound(p, strip, g);
  }

  /** What was placed earlier keeps holding exactly its blocks. */
  lemma WrapsLater(b: Box, lo: nat, hi: nat, p: Placed, q: Placed)
    requires b in p.boxes && Sound(p) && Sound(q) && Extends(p, q) && Wraps(b, lo, hi, p) && hi <= p.n
    ensures Wraps(b, lo, hi, q)
  {
    forall c | c in q.cards
      ensures Inside(c, b) <==> c.id.Blk? && lo <= c.id.n < hi
    {
      var i :| 0 <= i < |q.cards| && q.cards[i] == c;
      if i < |p.cards| {
        assert p.cards[i] == c;
      } else {
        assert c in q.cards[|p.cards|..];
      }
    }
    forall a | a in q.boxes && a.id.BlockBox?
      ensures Nested(a, b) <==> lo <= a.id.n < hi
    {
      var i :| 0 <= i < |q.boxes| && q.boxes[i] == a;
      if i < |p.boxes| {
        assert p.boxes[i] == a;
      } else {
        assert a in q.boxes[|p.boxes|..];
      }
    }
  }

  function TotalBlocks(groups: seq<Group>): nat {
    if groups == [] then 0 else BlocksIn(groups[0]) + TotalBlocks(groups[1..])
  }

  /** Placing any groups keeps the geometry sound and draws each group around its own blocks. */
  lemma {:induction false} PlaceGroupsSound(p: Placed, strip: seq<Cell>, groups: seq<Group>)
    requires Sound(p) && NoEmptyCycle(groups)
    ensures var q := PlaceGroups(p, strip, groups);
            && Sound(q) && Extends(p, q) && q.n == p.n + TotalBlocks(groups)
            && Drawn(strip, groups, p.n, q)
            && (groups != [] ==> q.boxes != [] && q.boxes[|q.boxes| - 1].y + q.boxes[|q.boxes| - 1].h + GAP == q.y)
            && (groups != [] ==> q.y >= p.y + BLOCK_H + GAP) && (groups == [] ==> q == p)
    decreases |groups|
  {
    hide Sound, Wraps, Shows, PlaceGroup, Drawn;
    if groups == [] {
      DrawnNone(strip, p.n, p);
      assert p.cards[|p.cards|..] == [] && p.boxes[|p.boxes|..] == [];
    } else {
      hide Extends, GroupIsDrawn, BlocksIn;
      var g := groups[0];
      assert g in groups;
      var m := PlaceGroup(p, strip, g);
      PlaceGroupSound(p, strip, g);
      PlaceGroupsSound(m, strip, groups[1..]);
      var q := PlaceGroups(p, strip, groups);
      assert q == PlaceGroups(m, strip, groups[1..]);
      ExtendsTransitive(p, m, q);
      GroupDrawn(p, strip, g, q);
      DrawnMore(strip, groups, p.n, q);
    }
  }

  lemma DrawnNone(strip: seq<Cell>, n: nat, p: Placed)
    ensures Drawn(strip, [], n, p)
  {
  }

  lemma DrawnMore(strip: seq<Cell>, groups: seq<Group>, n: nat, p: Placed)
    requires groups != [] && GroupIsDrawn(strip, groups[0], n, p) && Drawn(strip, groups[1..], n + BlocksIn(groups[0]), p)
    ensures Drawn(strip, groups, n, p)
  {
    hide GroupIsDrawn, BlocksIn;
  }

  /** The first group's box starts where the blocks start. */
  lemma FirstBoxAtTop(p: Placed, strip: seq<Cell>, groups: seq<Group>)
    requires Sound(p) && NoEmptyCycle(groups) && groups != []
    ensures exists b | b in PlaceGroups(p, strip, groups).boxes :: b.y == p.y
  {
    hide Sound, Wraps, PlaceGroup, Extends, Drawn;
    assert groups[0] in groups;
    var m, q := PlaceGroup(p, strip, groups[0]), PlaceGroups(p, strip, groups);
    PlaceGroupSound(p, strip, groups[0]);
    PlaceGroupsSound(m, strip, groups[1..]);
    PrefixHolds(m, q);
    assert m.boxes[|m.boxes| - 1] in m.boxes;
  }

  lemma PrefixHolds(m: Placed, q: Placed)
    requires Extends(m, q)
    ensures forall b | b in m.boxes :: b in q.boxes
  {
  }

  lemma GroupDrawn(p: Placed, strip: seq<Cell>, g: Group, q: Placed)
    requires Sound(p) && (g.CycleGroup? ==> g.unit != [])
    requires var m := PlaceGroup(p, strip, g); Sound(m) && Sound(q) && Extends(m, q)
    ensures GroupIsDrawn(strip, g, p.n, q)
  {
    var m := PlaceGroup(p, strip, g);
    hide Sound, Wraps, Shows, ShowsAll, SpecsOf, Extends;
    match g
    case RunGroup(run) =>
      PlaceBlockShows(p, SpecOf(strip, run));
      ShowsLater(m, q, p.n, SpecOf(strip, run));
    case CycleGroup(rep, unit, _, _) =>
      CycleSound(p, strip, g);
      CycleShows(p, strip, g, q);
      var b := m.boxes[|m.boxes| - 1];
      PrefixHolds(m, q);
      assert b in m.boxes && b in q.boxes;
      WrapsLater(b, p.n, m.n, m, q);
  }

  lemma CycleShows(p: Placed, strip: seq<Cell>, g: Group, q: Placed)
    requires Sound(p) && g.CycleGroup? && g.unit != [] && Extends(PlaceGroup(p, strip, g), q)
    ensures ShowsAll(q, p.n, SpecsOf(strip, g.unit))
  {
    var p0, specs, m := p.(y := p.y + PAD), SpecsOf(strip, g.unit), PlaceGroup(p, strip, g);
    LowerIsSound(p);
    CycleIsClosed(p, strip, g);
    hide Sound, ShowsAll, Extends, PlaceBlocks, PlaceGroup, Closed, SpecsOf;
    PlaceBlocksShow(p0, specs);
    PlaceBlocksExtend(p0, specs);
    var inner := PlaceBlocks(p0, specs);
    CycleBoxIsNoBlock(p, inner, g.rep);
    ShowsAllBoxed(inner, m, CycleBoxAt(p.y, inner.y, g.rep), p.n, specs);
    ShowsAllLater(m, q, p.n, specs);
  }

  lemma CycleBoxIsNoBlock(p: Placed, q: Placed, rep: nat)
    ensures CycleBoxAt(p.y, q.y, rep).id.CycleBox? && CycleBoxAt(p.y, q.y, rep).count == rep
    ensures Closed(p, q, rep).boxes == q.boxes + [CycleBoxAt(p.y, q.y, rep)] && Closed(p, q, rep).cards == q.cards && Closed(p, q, rep).n == q.n
  {
  }

  // ---- What the figure stands for -----------------------------------------------------------

  /** How often what is in `b` is there: the repeats of all the cycle boxes around it, multiplied. */
  function Repeats(b: Box, boxes: seq<Box>): nat {
    if boxes == [] then 1
    else
      var last := boxes[|boxes| - 1];
      Repeats(b, boxes[..|boxes| - 1]) * if Surrounds(last, b) then last.count else 1
  }

  predicate Surrounds(c: Box, b: Box) {
    c.id.CycleBox? && Nested(b, c)
  }

  /** The layers that the blocks among `some` stand for in a figure with these boxes: the count in
      each block's box times its repeats. */
  function LayersShown(some: seq<Box>, boxes: seq<Box>): nat {
    if some == [] then 0
    else
      var last := some[|some| - 1];
      LayersShown(some[..|some| - 1], boxes) + if last.id.BlockBox? then last.count * Repeats(last, boxes) else 0
  }

  function Counts(specs: seq<Spec>): nat {
    if specs == [] then 0 else specs[0].count + Counts(specs[1..])
  }

  lemma RepeatsSnoc(b: Box, boxes: seq<Box>, c: Box)
    ensures Repeats(b, boxes + [c]) == Repeats(b, boxes) * if Surrounds(c, b) then c.count else 1
  {
    assert (boxes + [c])[..|boxes|] == boxes;
  }

  lemma {:induction false} NotSurrounded(b: Box, boxes: seq<Box>)
    requires forall c | c in boxes :: !Surrounds(c, b)
    ensures Repeats(b, boxes) == 1
  {
    hide Surrounds;
    if boxes != [] {
      assert boxes[|boxes| - 1] in boxes;
      NotSurrounded(b, boxes[..|boxes| - 1]);
    }
  }

  lemma LayersSnoc(some: seq<Box>, b: Box, boxes: seq<Box>)
    ensures LayersShown(some + [b], boxes) == LayersShown(some, boxes) + if b.id.BlockBox? then b.count * Repeats(b, boxes) else 0
  {
    assert (some + [b])[..|some|] == some;
  }

  lemma {:induction false} LayersAppend(some: seq<Box>, more: seq<Box>, boxes: seq<Box>)
    ensures LayersShown(some + more, boxes) == LayersShown(some, boxes) + LayersShown(more, boxes)
  {
    if more == [] {
      assert some + more == some;
    } else {
      var init, last := more[..|more| - 1], more[|more| - 1];
      LayersAppend(some, init, boxes);
      LayersSnoc(some + init, last, boxes);
      assert some + more == (some + init) + [last];
    }
  }

  /** A box around none of them changes nothing; */
  lemma {:induction false} LayersBesides(some: seq<Box>, boxes: seq<Box>, c: Box)
    requires forall b | b in some :: !Surrounds(c, b)
    ensures LayersShown(some, boxes + [c]) == LayersShown(some, boxes)
  {
    hide Surrounds;
    if some != [] {
      var last := some[|some| - 1];
      assert last in some;
      LayersBesides(some[..|some| - 1], boxes, c);
      RepeatsSnoc(last, boxes, c);
    }
  }

  /** ... and a cycle's box around all of them multiplies. */
  lemma {:induction false} LayersWithin(some: seq<Box>, boxes: seq<Box>, c: Box)
    requires forall b | b in some :: Surrounds(c, b)
    ensures LayersShown(some, boxes + [c]) == c.count * LayersShown(some, boxes)
  {
    hide Surrounds;
    if some != [] {
      var init, last := some[..|some| - 1], some[|some| - 1];
      assert last in some;
      LayersWithin(init, boxes, c);
      RepeatsSnoc(last, boxes, c);
      Multiplied(c.count, LayersShown(init, boxes), last.count, Repeats(last, boxes));
    }
  }

  lemma Multiplied(c: nat, sum: nat, count: nat, reps: nat)
    ensures c * sum + count * (reps * c) == c * (sum + count * reps)
  {
  }

  lemma PlaceBlockLayers(p: Placed, s: Spec)
    requires Sound(p)
    ensures var q := PlaceBlock(p, s); LayersShown(q.boxes, q.boxes) == LayersShown(p.boxes, p.boxes) + s.count
  {
    var b, q := BlockBoxAt(p.n, p.y, s), PlaceBlock(p, s);
    assert q.boxes == p.boxes + [b];
    forall c | c in p.boxes
      ensures !Surrounds(c, b)
    {
      assert c.y + c.h + GAP <= p.y;
    }
    NotSurrounded(b, p.boxes);
    RepeatsSnoc(b, p.boxes, b);
    LayersBesides(p.boxes, p.boxes, b);
    LayersSnoc(p.boxes, b, q.boxes);
  }

  lemma {:induction false} PlaceBlocksLayers(p: Placed, specs: seq<Spec>)
    requires Sound(p)
    ensures var q := PlaceBlocks(p, specs); LayersShown(q.boxes, q.boxes) == LayersShown(p.boxes, p.boxes) + Counts(specs)
    decreases |specs|
  {
    hide Sound, LayersShown;
    if specs != [] {
      PlaceBlockSound(p, specs[0]);
      PlaceBlockLayers(p, specs[0]);
      PlaceBlocksLayers(PlaceBlock(p, specs[0]), specs[1..]);
    }
  }

  lemma {:induction false} BlocksSurroundNothing(some: seq<Box>, boxes: seq<Box>, more: seq<Box>)
    requires forall c | c in more :: c.id.BlockBox?
    ensures LayersShown(some, boxes + more) == LayersShown(some, boxes)
  {
    if more == [] {
      assert boxes + more == boxes;
    } else {
      var init, c := more[..|more| - 1], more[|more| - 1];
      assert c in more;
      BlocksSurroundNothing(some, boxes, init);
      LayersBesides(some, boxes + init, c);
      assert boxes + more == (boxes + init) + [c];
    }
  }

  /** Closing a cycle multiplies the layers of its blocks and of no others. */
  lemma ClosedLayers(p: Placed, q: Placed, rep: nat)
    requires Sound(p) && InnerBlocks(p, q)
    ensures var r := Closed(p, q, rep);
            var inner := q.boxes[|p.boxes|..];
            && LayersShown(q.boxes, q.boxes) == LayersShown(p.boxes, p.boxes) + LayersShown(inner, q.boxes)
            && LayersShown(r.boxes, r.boxes) == LayersShown(p.boxes, p.boxes) + rep * LayersShown(inner, q.boxes)
  {
    var inner, b := q.boxes[|p.boxes|..], CycleBoxAt(p.y, q.y, rep);
    var all := q.boxes + [b];
    assert q.boxes == p.boxes + inner;
    InnerSurrounded(p, q, rep);
    CycleBoxIsNoBlock(p, q, rep);
    hide Sound, InnerBlocks, LayersShown, Surrounds, CycleBoxAt, Closed;
    LayersAppend(p.boxes, inner, q.boxes);
    LayersAppend(p.boxes, inner, all);
    LayersAppendOne(q.boxes, b, all);
    BlocksSurroundNothing(p.boxes, p.boxes, inner);
    LayersBesides(p.boxes, q.boxes, b);
    LayersWithin(inner, q.boxes, b);
  }

  lemma LayersAppendOne(some: seq<Box>, b: Box, boxes: seq<Box>)
    requires b.id.CycleBox?
    ensures LayersShown(some + [b], boxes) == LayersShown(some, boxes)
  {
    LayersSnoc(some, b, boxes);
  }

  lemma InnerSurrounded(p: Placed, q: Placed, rep: nat)
    requires Sound(p) && InnerBlocks(p, q)
    ensures var b, inner := CycleBoxAt(p.y, q.y, rep), q.boxes[|p.boxes|..];
            && (forall a | a in p.boxes :: !Surrounds(b, a))
            && (forall a | a in inner :: a.id.BlockBox? && Surrounds(b, a))
  {
    forall a | a in q.boxes[|p.boxes|..]
      ensures Surrounds(CycleBoxAt(p.y, q.y, rep), a)
    {
      assert a.y >= p.y + PAD;
    }
  }

  lemma {:induction false} CountsOfUnit(strip: seq<Cell>, unit: seq<Run>)
    ensures Counts(SpecsOf(strip, unit)) == Layers(unit)
  {
    if unit != [] {
      assert SpecsOf(strip, unit)[1..] == SpecsOf(strip, unit[1..]);
      CountsOfUnit(strip, unit[1..]);
    }
  }

  lemma InnerPlaced(p: Placed, specs: seq<Spec>)
    requires Sound(p) && specs != []
    ensures InnerBlocks(p, PlaceBlocks(p.(y := p.y + PAD), specs))
  {
    LowerIsSound(p);
    hide Sound, Extends, PlaceBlocks, InnerBlocks;
    var p0 := p.(y := p.y + PAD);
    PlaceBlocksSound(p0, specs);
    BlocksAreInner(p, PlaceBlocks(p0, specs));
  }

  lemma BlocksAreInner(p: Placed, q: Placed)
    requires Sound(q) && Extends(p.(y := p.y + PAD), q) && q.y >= p.y + PAD + BLOCK_H + GAP
    requires forall b | b in q.boxes[|p.boxes|..] ::
               b.id.BlockBox? && p.n <= b.id.n && b.x == X - PAD && b.w == W + PAD * 2 && b.y + b.h + GAP <= q.y
    ensures InnerBlocks(p, q)
  {
    hide Sound;
  }

  lemma CycleLayers(p: Placed, strip: seq<Cell>, g: Group)
    requires Sound(p) && g.CycleGroup? && g.unit != []
    ensures var r := PlaceGroup(p, strip, g); LayersShown(r.boxes, r.boxes) == LayersShown(p.boxes, p.boxes) + g.rep * Layers(g.unit)
  {
    var p0, specs := p.(y := p.y + PAD), SpecsOf(strip, g.unit);
    LowerIsSound(p);
    CycleIsClosed(p, strip, g);
    CountsOfUnit(strip, g.unit);
    hide Sound, LayersShown, Extends, PlaceBlocks, PlaceGroup, Closed, SpecsOf, Counts, Layers, InnerBlocks;
    InnerPlaced(p, specs);
    PlaceBlocksLayers(p0, specs);
    var q := PlaceBlocks(p0, specs);
    ClosedLayers(p, q, g.rep);
    var inner := LayersShown(q.boxes[|p.boxes|..], q.boxes);
    assert inner == Layers(g.unit);
  }

  /** A group adds the layers it stands for. */
  lemma PlaceGroupLayers(p: Placed, strip: seq<Cell>, g: Group)
    requires Sound(p) && (g.CycleGroup? ==> g.unit != [])
    ensures var r := PlaceGroup(p, strip, g); LayersShown(r.boxes, r.boxes) == LayersShown(p.boxes, p.boxes) + GroupLayers(g)
  {
    hide Sound, LayersShown, PlaceBlock, PlaceBlocks, Layers;
    match g
    case RunGroup(run) => PlaceBlockLayers(p, SpecOf(strip, run));
    case CycleGroup(rep, unit, _, _) => CycleLayers(p, strip, g);
  }

  /** The figure shows as many layers as its groups have. */
  lemma {:induction false} PlaceGroupsLayers(p: Placed, strip: seq<Cell>, groups: seq<Group>)
    requires Sound(p) && NoEmptyCycle(groups)
    ensures var q := PlaceGroups(p, strip, groups); LayersShown(q.boxes, q.boxes) == LayersShown(p.boxes, p.boxes) + TotalLayers(groups)
    decreases |groups|
  {
    hide Sound, LayersShown, PlaceGroup, GroupLayers, Extends, BlocksIn;
    if groups != [] {
      assert groups[0] in groups;
      PlaceGroupSound(p, strip, groups[0]);
      PlaceGroupLayers(p, strip, groups[0]);
      PlaceGroupsLayers(PlaceGroup(p, strip, groups[0]), strip, groups[1..]);
    }
  }

  // ---- The flow and its edges -------------------------------------------------------------

  function Ids(cards: seq<Card>): (r: seq<CardId>)
    ensures |r| == |cards|
  {
    seq(|cards|, i requires 0 <= i < |cards| => cards[i].id)
  }

  /** The card ids of blocks `0..n`, in drawing order. */
  function BlockIds(n: nat): (r: seq<CardId>)
    ensures |r| == 4 * n
  {
    if n == 0 then [] else BlockIds(n - 1) + [Blk(n - 1, FirstNorm), Blk(n - 1, Attn), Blk(n - 1, SecondNorm), Blk(n - 1, Ffn)]
  }

  lemma {:induction false} BlockIdAt(n: nat, k: nat)
    requires k < n
    ensures BlockIds(n)[4 * k] == Blk(k, FirstNorm) && BlockIds(n)[4 * k + 2] == Blk(k, SecondNorm)
    ensures forall i | 0 <= i < 4 * k + 2 :: BlockIds(n)[i] != Blk(k, SecondNorm)
  {
    if k < n - 1 {
      BlockIdAt(n - 1, k);
    } else {
      NumbersBelow(n - 1);
    }
  }

  lemma {:induction false} NumbersBelow(n: nat)
    ensures forall id | id in BlockIds(n) :: id.Blk? && id.n < n
  {
    if n > 0 { NumbersBelow(n - 1); }
  }

  lemma IdsAppend(a: seq<Card>, b: seq<Card>)
    ensures Ids(a + b) == Ids(a) + Ids(b)
  {
  }

  /** The flow so far is what came before the blocks and then the blocks in order. */
  predicate FlowIs(pre: seq<CardId>, p: Placed) {
    Ids(p.cards) == pre + BlockIds(p.n)
  }

  lemma PlaceBlockFlow(pre: seq<CardId>, p: Placed, s: Spec)
    requires FlowIs(pre, p)
    ensures FlowIs(pre, PlaceBlock(p, s))
  {
    var cs := BlockCards(p.n, p.y, s);
    IdsAppend(p.cards, cs);
    assert Ids(cs) == [Blk(p.n, FirstNorm), Blk(p.n, Attn), Blk(p.n, SecondNorm), Blk(p.n, Ffn)];
    assert (pre + BlockIds(p.n)) + Ids(cs) == pre + (BlockIds(p.n) + Ids(cs));
  }

  lemma {:induction false} PlaceBlocksFlow(pre: seq<CardId>, p: Placed, specs: seq<Spec>)
    requires FlowIs(pre, p)
    ensures FlowIs(pre, PlaceBlocks(p, specs))
    decreases |specs|
  {
    hide FlowIs, PlaceBlock;
    if specs != [] {
      PlaceBlockFlow(pre, p, specs[0]);
      PlaceBlocksFlow(pre, PlaceBlock(p, specs[0]), specs[1..]);
    }
  }

  lemma {:induction false} PlaceGroupsFlow(pre: seq<CardId>, p: Placed, strip: seq<Cell>, groups: seq<Group>)
    requires FlowIs(pre, p)
    ensures FlowIs(pre, PlaceGroups(p, strip, groups))
    decreases |groups|
  {
    if groups != [] {
      match groups[0] {
        case RunGroup(r) => PlaceBlockFlow(pre, p, SpecOf(strip, r));
        case CycleGroup(_, unit, _, _) => PlaceBlocksFlow(pre, p.(y := p.y + PAD), SpecsOf(strip, unit));
      }
      hide FlowIs, PlaceBlock;
      assert FlowIs(pre, PlaceGroup(p, strip, groups[0])) by { SameCards(pre, p, strip, groups[0]); }
      PlaceGroupsFlow(pre, PlaceGroup(p, strip, groups[0]), strip, groups[1..]);
    }
  }

  lemma SameCards(pre: seq<CardId>, p: Placed, strip: seq<Cell>, g: Group)
    requires g.RunGroup? ==> FlowIs(pre, PlaceBlock(p, SpecOf(strip, g.run)))
    requires g.CycleGroup? ==> FlowIs(pre, PlaceBlocks(p.(y := p.y + PAD), SpecsOf(strip, g.unit)))
    ensures FlowIs(pre, PlaceGroup(p, strip, g))
  {
  }

  function IndexOf(flow: seq<CardId>, id: CardId): (i: nat)
    ensures i <= |flow| && (i < |flow| ==> flow[i] == id)
    ensures forall j | 0 <= j < i :: flow[j] != id
  {
    if flow == [] || flow[0] == id then 0 else 1 + IndexOf(flow[1..], id)
  }

  function MainEdges(flow: seq<CardId>): seq<Edge> {
    if |flow| < 2 then [] else seq(|flow| - 1, i requires 0 <= i < |flow| - 1 => Edge(AtCard(flow[i]), AtCard(flow[i + 1]), Main))
  }

  /** The two skips of block `k`: around its attention, and around its FFN into whatever
      follows the block, when anything does. */
  function Skips(flow: seq<CardId>, k: nat): seq<Edge> {
    var i := IndexOf(flow, Blk(k, SecondNorm));
    [Edge(AtCard(Blk(k, FirstNorm)), AtCard(Blk(k, SecondNorm)), Residual)]
    + if i + 2 < |flow| then [Edge(AtCard(Blk(k, SecondNorm)), AtCard(flow[i + 2]), Residual)] else []
  }

  function AllSkips(flow: seq<CardId>, n: nat): seq<Edge> {
    if n == 0 then [] else AllSkips(flow, n - 1) + Skips(flow, n - 1)
  }

  predicate AllNamed(ids: seq<CardId>) {
    forall id | id in ids :: id.Named?
  }

  /** Where the skip around block `k`'s FFN lands: the next block, or what comes after the last. */
  function ExitOf(n: nat, post: seq<CardId>, k: nat): Option<CardId> {
    if k + 1 < n then Some(Blk(k + 1, FirstNorm)) else if post != [] then Some(post[0]) else None
  }

  /** The skip lands where it should. */
  lemma SkipsResolve(pre: seq<CardId>, n: nat, post: seq<CardId>, k: nat)
    requires k < n && AllNamed(pre)
    ensures var flow := pre + BlockIds(n) + post;
            Skips(flow, k) ==
              [Edge(AtCard(Blk(k, FirstNorm)), AtCard(Blk(k, SecondNorm)), Residual)]
              + match ExitOf(n, post, k)
                case Some(id) => [Edge(AtCard(Blk(k, SecondNorm)), AtCard(id), Residual)]
                case None => []
  {
    var flow := pre + BlockIds(n) + post;
    var at := |pre| + 4 * k + 2;
    BlockIdAt(n, k);
    assert flow[at] == Blk(k, SecondNorm);
    forall j | 0 <= j < at
      ensures flow[j] != Blk(k, SecondNorm)
    {
      if j < |pre| {
        assert flow[j] == pre[j] && pre[j] in pre;
      } else {
        assert flow[j] == BlockIds(n)[j - |pre|];
      }
    }
    assert IndexOf(flow, Blk(k, SecondNorm)) == at;
    if k + 1 < n {
      BlockIdAt(n, k + 1);
      assert flow[at + 2] == BlockIds(n)[4 * (k + 1)];
    } else if post != [] {
      assert flow[at + 2] == post[0];
    }
  }

  predicate Laid(flow: seq<CardId>, e: Edge) {
    e.source.AtCard? && e.target.AtCard? && e.source.id in flow && e.target.id in flow
  }

  lemma {:induction false} SkipsLaid(pre: seq<CardId>, n: nat, post: seq<CardId>, m: nat)
    requires m <= n && AllNamed(pre)
    ensures var flow := pre + BlockIds(n) + post;
            forall e | e in AllSkips(flow, m) :: Laid(flow, e)
  {
    if m > 0 {
      var flow, k := pre + BlockIds(n) + post, m - 1;
      SkipsLaid(pre, n, post, k);
      SkipsResolve(pre, n, post, k);
      BlockIdAt(n, k);
      assert flow[|pre| + 4 * k] == BlockIds(n)[4 * k] && flow[|pre| + 4 * k + 2] == BlockIds(n)[4 * k + 2];
      if k + 1 < n {
        BlockIdAt(n, k + 1);
        assert flow[|pre| + 4 * (k + 1)] == BlockIds(n)[4 * (k + 1)];
      } else if post != [] {
        assert flow[|pre| + 4 * n] == post[0];
      }
    }
  }

  // ---- Panels --------------------------------------------------------------------------------

  function Chips(items: seq<Shape>): nat {
    if items == [] then 0 else Chips(items[1..]) + if items[0].Plain? then 0 else 1
  }

  /** Every item is a row of its own, and all the chips together share one. */
  function PanelRows(p: Panel): int {
    |p.items| - Chips(p.items) + if Chips(p.items) > 0 then 1 else 0
  }

  lemma {:induction false} ChipsBound(items: seq<Shape>)
    ensures Chips(items) <= |items|
  {
    if items != [] { ChipsBound(items[1..]); }
  }

  function Plains(items: seq<Shape>): nat {
    if items == [] then 0 else Plains(items[1..]) + if items[0].Plain? then 1 else 0
  }

  /** A panel has a row for each plain item and one more if there is any chip. */
  lemma {:induction false} RowsOfPanel(p: Panel)
    ensures PanelRows(p) == Plains(p.items) + if exists x | x in p.items :: !x.Plain? then 1 else 0
  {
    PlainsAndChips(p.items);
  }

  lemma {:induction false} PlainsAndChips(items: seq<Shape>)
    ensures Plains(items) + Chips(items) == |items|
    ensures Chips(items) > 0 <==> exists x | x in items :: !x.Plain?
  {
    if items != [] {
      PlainsAndChips(items[1..]);
      assert items == [items[0]] + items[1..];
    }
  }

  function PanelHeight(p: Panel): int {
    PANEL_HEAD + PanelRows(p) * PANEL_ROW + (if p.note then NOTE_H else 0) + PANEL_PAD * 2
  }

  function FirstOf(cards: seq<Card>, kind: NodeKind): (r: Option<Card>)
    ensures r.Some? ==> r.value in cards && r.value.kind == kind
    ensures r.None? ==> forall c | c in cards :: c.kind != kind
  {
    if cards == [] then None else if cards[0].kind == kind then Some(cards[0]) else FirstOf(cards[1..], kind)
  }

  function AnchorOf(cards: seq<Card>, p: Panel): Option<Card> {
    FirstOf(cards, if p.kind == AttentionPanel then AttentionNode else MoeNode)
  }

  predicate Has(cards: seq<Card>, kind: NodeKind) {
    exists c | c in cards :: c.kind == kind
  }

  predicate FirstAt(cards: seq<Card>, kind: NodeKind, k: nat) {
    k < |cards| && cards[k].kind == kind && forall j | 0 <= j < k :: cards[j].kind != kind
  }

  /** The panels that have a card to expand: an attention panel an attention card, any other panel a
      mixture-of-experts card. */
  function Anchored(panels: seq<Panel>, cards: seq<Card>): seq<Panel> {
    if panels == [] then []
    else
      var p := panels[|panels| - 1];
      Anchored(panels[..|panels| - 1], cards)
      + if (p.kind == AttentionPanel && Has(cards, AttentionNode)) || (p.kind == MoePanel && Has(cards, MoeNode)) then [p] else []
  }

  /** Beside the card or below it, and below the panel before. */
  predicate Beside(c: Card, out: seq<LaidPanel>, i: nat)
    requires i < |out|
  {
    var l := out[i];
    && l.anchor == c.id
    && l.x == PANEL_X && l.w == PANEL_W && l.h == PanelHeight(l.panel)
    && l.y >= c.y
    && (i > 0 ==> out[i - 1].y + out[i - 1].h + GAP <= l.y)
    && (l.y == c.y || (i > 0 && l.y == out[i - 1].y + out[i - 1].h + GAP))
  }

  /** A panel as placed: an attention panel beside the first attention card or below, any other
      beside the first mixture-of-experts card or below, and below every earlier panel. */
  ghost predicate PlacedRight(cards: seq<Card>, out: seq<LaidPanel>, i: nat)
    requires i < |out|
  {
    match out[i].panel.kind
    case AttentionPanel => exists k: nat | FirstAt(cards, AttentionNode, k) :: Beside(cards[k], out, i)
    case MoePanel => exists k: nat | FirstAt(cards, MoeNode, k) :: Beside(cards[k], out, i)
  }

  lemma {:induction false} FirstIsFirst(cards: seq<Card>, kind: NodeKind)
    ensures FirstOf(cards, kind).Some? <==> Has(cards, kind)
    ensures FirstOf(cards, kind).Some? ==> exists k: nat | FirstAt(cards, kind, k) :: cards[k] == FirstOf(cards, kind).value
  {
    if cards != [] && cards[0].kind == kind {
      assert FirstAt(cards, kind, 0);
    } else if cards != [] {
      FirstIsFirst(cards[1..], kind);
      if FirstOf(cards, kind).Some? {
        var k: nat :| FirstAt(cards[1..], kind, k) && cards[1..][k] == FirstOf(cards, kind).value;
        assert FirstAt(cards, kind, k + 1);
      }
    }
  }

  /** The card a placed panel hangs off. */
  lemma AnchorCard(cards: seq<Card>, out: seq<LaidPanel>, i: nat) returns (k: nat)
    requires i < |out| && PlacedRight(cards, out, i)
    ensures k < |cards| && Beside(cards[k], out, i)
  {
    hide Beside;
    if out[i].panel.kind == AttentionPanel {
      k :| FirstAt(cards, AttentionNode, k) && Beside(cards[k], out, i);
    } else {
      k :| FirstAt(cards, MoeNode, k) && Beside(cards[k], out, i);
    }
  }

  lemma PlacedBeside(cards: seq<Card>, out: seq<LaidPanel>, i: nat)
    requires i < |out| && AnchorOf(cards, out[i].panel).Some? && Beside(AnchorOf(cards, out[i].panel).value, out, i)
    ensures PlacedRight(cards, out, i)
  {
    hide Beside, FirstOf;
    FirstIsFirst(cards, if out[i].panel.kind == AttentionPanel then AttentionNode else MoeNode);
  }

  lemma AnchoredMore(panels: seq<Panel>, cards: seq<Card>, k: nat)
    requires k < |panels|
    ensures Anchored(panels[..k + 1], cards) ==
            Anchored(panels[..k], cards) + if AnchorOf(cards, panels[k]).Some? then [panels[k]] else []
  {
    assert panels[..k + 1][..k] == panels[..k];
    FirstIsFirst(cards, if panels[k].kind == AttentionPanel then AttentionNode else MoeNode);
    hide FirstOf;
  }

  function PanelsOf(out: seq<LaidPanel>): (r: seq<Panel>)
    ensures |r| == |out|
  {
    seq(|out|, i requires 0 <= i < |out| => out[i].panel)
  }

  /** One leader to each panel, from the card it hangs off. */
  predicate LeadersTo(panels: seq<LaidPanel>, leaders: seq<Edge>) {
    && |leaders| == |panels|
    && forall i | 0 <= i < |leaders| :: leaders[i] == Edge(AtCard(panels[i].anchor), AtPanel(panels[i].panel.id), Leader)
  }

  method PlacePanels(panels: seq<Panel>, cards: seq<Card>) returns (out: seq<LaidPanel>, leaders: seq<Edge>)
    ensures PanelsOf(out) == Anchored(panels, cards)
    ensures forall i: nat | i < |out| :: PlacedRight(cards, out, i)
    ensures LeadersTo(out, leaders)
  {
    out, leaders := [], [];
    assert panels[..0] == [] && Anchored(panels[..0], cards) == [];
    hide PlacedRight, Anchored, AnchorOf;
    var floor: Option<int> := None;
    for k := 0 to |panels|
      invariant PanelsOf(out) == Anchored(panels[..k], cards)
      invariant forall i: nat | i < |out| :: PlacedRight(cards, out, i)
      invariant LeadersTo(out, leaders)
      invariant floor == if out == [] then None else Some(out[|out| - 1].y + out[|out| - 1].h + GAP)
    {
      var p := panels[k];
      AnchoredMore(panels, cards, k);
      var anchor := AnchorOf(cards, p);
      if anchor.None? { continue; }
      var h := PanelHeight(p);
      var y := if floor.None? || anchor.value.y >= floor.value then anchor.value.y else floor.value;
      var laid := LaidPanel(p, anchor.value.id, PANEL_X, y, PANEL_W, h);
      assert Beside(anchor.value, out + [laid], |out|);
      PlacedBeside(cards, out + [laid], |out|);
      PlacedMore(cards, out, laid);
      assert PanelsOf(out + [laid]) == PanelsOf(out) + [p];
      out := out + [laid];
      leaders := leaders + [Edge(AtCard(anchor.value.id), AtPanel(p.id), Leader)];
      floor := Some(y + h + GAP);
    }
    assert panels[..|panels|] == panels;
  }

  lemma PlacedEarlier(cards: seq<Card>, out: seq<LaidPanel>, l: LaidPanel, i: nat)
    requires i < |out| && PlacedRight(cards, out, i)
    ensures PlacedRight(cards, out + [l], i)
  {
    assert forall c :: Beside(c, out, i) ==> Beside(c, out + [l], i);
    hide Beside;
  }

  lemma PlacedMore(cards: seq<Card>, out: seq<LaidPanel>, l: LaidPanel)
    requires forall i: nat | i < |out| :: PlacedRight(cards, out, i)
    requires PlacedRight(cards, out + [l], |out|)
    ensures forall i: nat | i < |out + [l]| :: PlacedRight(cards, out + [l], i)
  {
    forall i: nat | i < |out + [l]|
      ensures PlacedRight(cards, out + [l], i)
    {
      if i < |out| { PlacedEarlier(cards, out, l, i); }
    }
  }

  lemma {:induction false} PanelsApart(cards: seq<Card>, out: seq<LaidPanel>, i: nat, j: nat)
    requires i < j < |out| && forall k: nat | k < |out| :: PlacedRight(cards, out, k)
    ensures out[i].y + out[i].h + GAP <= out[j].y
  {
    hide PlacedRight;
    var c := AnchorCard(cards, out, j);
    if i < j - 1 {
      PanelsApart(cards, out, i, j - 1);
      PositiveHeight(out[j - 1].panel);
      var d := AnchorCard(cards, out, j - 1);
    }
  }

  lemma PositiveHeight(p: Panel)
    ensures PanelHeight(p) > 0
  {
    ChipsBound(p.items);
  }

  // ---- The builders ------------------------------------------------------------------------

  function FindNode(nodes: seq<Node>, name: string): (r: Option<Node>)
    ensures r.Some? ==> r.value.id == Named(name)
  {
    if nodes == [] then None else if nodes[0].id == Named(name) then Some(nodes[0]) else FindNode(nodes[1..], name)
  }

  /** A named node is found if the schematic has one. */
  lemma {:induction false} NodeIsFound(nodes: seq<Node>, name: string)
    ensures FindNode(nodes, name).Some? ==> FindNode(nodes, name).value in nodes
    ensures FindNode(nodes, name).None? ==> forall n | n in nodes :: n.id != Named(name)
  {
    if nodes != [] && nodes[0].id != Named(name) { NodeIsFound(nodes[1..], name); }
  }

  function CardFor(node: Node, y: int): Card {
    Card(node.id, node.kind, X, y, W, if node.kind == NormNode then HN else H, None)
  }

  /** One more plain card at the bottom of the stack. */
  function PushCard(p: Placed, node: Option<Node>): Placed {
    match node
    case None => p
    case Some(n) => p.(cards := p.cards + [CardFor(n, p.y)], y := p.y + CardFor(n, p.y).h + GAP)
  }

  /** The figure's column: embedding, groups, final norm, head. */
  function Column(s: Schematic, layout: Layout): Placed {
    PushCard(PushCard(BlocksColumn(s, layout), FindNode(s.nodes, "finalnorm")), FindNode(s.nodes, "head"))
  }

  function TopColumn(s: Schematic): Placed {
    PushCard(Placed([], [], 0, 0), FindNode(s.nodes, "embed"))
  }

  function BlocksColumn(s: Schematic, layout: Layout): Placed {
    PlaceGroups(TopColumn(s), layout.strip, layout.groups)
  }

  function NamedId(node: Option<Node>): seq<CardId> {
    if node.Some? then [node.value.id] else []
  }

  function NormPairs(n: nat): (r: seq<(CardId, CardId)>)
    ensures |r| == n
  {
    seq(n, i requires 0 <= i < n => (Blk(i, FirstNorm), Blk(i, SecondNorm)))
  }

  class Builder {
    var cards: seq<Card>
    var boxes: seq<Box>
    var flow: seq<CardId>
    var pairs: seq<(CardId, CardId)>
    var y: int
    var n: nat

    ghost function At(): Placed
      reads this
    {
      Placed(cards, boxes, n, y)
    }

    /** The flow lists the cards, and there is a residual pair for every block. */
    ghost predicate Valid()
      reads this
    {
      && flow == Ids(cards)
      && pairs == NormPairs(n)
    }

    constructor ()
      ensures Valid() && At() == Placed([], [], 0, 0)
    {
      cards, boxes, flow, pairs, y, n := [], [], [], [], 0, 0;
    }

    method Push(c: Card)
      requires Valid() && c.y == y
      modifies this
      ensures Valid() && At() == old(At()).(cards := old(cards) + [c], y := old(y) + c.h + GAP)
    {
      cards := cards + [c];
      flow := flow + [c.id];
      y := y + c.h + GAP;
    }

    method PushNode(node: Option<Node>)
      requires Valid()
      modifies this
      ensures Valid() && At() == PushCard(old(At()), node)
    {
      if node.Some? {
        Push(CardFor(node.value, y));
      }
    }

    /** One decoder block of four cards inside its own box. */
    method EmitBlock(s: Spec)
      requires Valid()
      modifies this
      ensures Valid() && At() == PlaceBlock(old(At()), s)
    {
      var top := y;
      y := y + PAD;
      Push(Card(Blk(n, FirstNorm), NormNode, X, y, W, HN, None));
      Push(Card(Blk(n, Attn), AttentionNode, X, y, W, H, Some(s.attn)));
      Push(Card(Blk(n, SecondNorm), NormNode, X, y, W, HN, None));
      Push(Card(Blk(n, Ffn), KindOf(s.ffn), X, y, W, H, None));
      y := y - GAP + PAD;
      boxes := boxes + [Box(BlockBox(n), X - PAD, top, W + PAD * 2, y - top, s.count)];
      pairs := pairs + [(Blk(n, FirstNorm), Blk(n, SecondNorm))];
      n := n + 1;
      y := y + GAP;
      assert cards == old(cards) + BlockCards(old(n), old(y), s);
    }

    method EmitRun(strip: seq<Cell>, r: Run)
      requires Valid()
      modifies this
      ensures Valid() && At() == PlaceBlock(old(At()), SpecOf(strip, r))
    {
      var ffn := FfnForRange(strip, r.from, r.to);
      EmitBlock(Spec(r.attn, ffn, r.count));
    }

    /** The blocks of a cycle inside one more, wider box. */
    method EmitCycle(strip: seq<Cell>, g: Group)
      requires Valid() && g.CycleGroup?
      modifies this
      ensures Valid() && At() == PlaceGroup(old(At()), strip, g)
    {
      var top := y;
      y := y + PAD;
      ghost var specs, p0 := SpecsOf(strip, g.unit), At();
      assert specs[0..] == specs;
      for i := 0 to |g.unit|
        invariant Valid()
        invariant PlaceBlocks(At(), specs[i..]) == PlaceBlocks(p0, specs)
      {
        EmitRun(strip, g.unit[i]);
        assert specs[i..][0] == specs[i] && specs[i..][1..] == specs[i + 1..];
      }
      y := y - GAP;
      y := y + PAD;
      boxes := boxes + [Box(CycleBox(top), X - PAD * 2, top, W + PAD * 4, y - top, g.rep)];
      y := y + GAP;
    }

    method EmitGroups(strip: seq<Cell>, groups: seq<Group>)
      requires Valid()
      modifies this
      ensures Valid() && At() == PlaceGroups(old(At()), strip, groups)
    {
      assert groups[0..] == groups;
      for i := 0 to |groups|
        invariant Valid()
        invariant PlaceGroups(At(), strip, groups[i..]) == PlaceGroups(old(At()), strip, groups)
      {
        var g := groups[i];
        assert groups[i..][0] == g && groups[i..][1..] == groups[i + 1..];
        if g.RunGroup? {
          EmitRun(strip, g.run);
        } else {
          EmitCycle(strip, g);
        }
      }
    }

    method Edges() returns (edges: seq<Edge>)
      requires Valid()
      ensures edges == MainEdges(flow) + AllSkips(flow, n)
    {
      edges := ChainEdges(flow);
      assert edges + [] == edges;
      for k := 0 to |pairs|
        invariant edges == MainEdges(flow) + AllSkips(flow, k)
      {
        var (norm1, norm2) := pairs[k];
        var skips := [Edge(AtCard(norm1), AtCard(norm2), Residual)];
        var at := IndexOf(flow, norm2) + 2;
        if at < |flow| {
          skips := skips + [Edge(AtCard(norm2), AtCard(flow[at]), Residual)];
        }
        Chained(MainEdges(flow), AllSkips(flow, k), skips);
        edges := edges + skips;
      }
    }
  }

  lemma Chained(a: seq<Edge>, b: seq<Edge>, c: seq<Edge>)
    ensures a + b + c == a + (b + c)
  {
  }

  lemma PushCardSound(p: Placed, node: Option<Node>)
    requires Sound(p) && (node.Some? ==> node.value.id.Named?)
    ensures Sound(PushCard(p, node)) && PushCard(p, node).n == p.n && p.boxes == PushCard(p, node).boxes && p.cards <= PushCard(p, node).cards
    ensures PushCard(p, node).y >= p.y
    ensures forall c | c in PushCard(p, node).cards[|p.cards|..] :: c.id.Named? && c.y >= p.y
  {
    if node.Some? {
      var c := CardFor(node.value, p.y);
      StackedAppend(p.cards, [c], p.y);
      assert (p.cards + [c])[|p.cards|..] == [c];
    }
  }

  lemma WrapsBelow(b: Box, lo: nat, hi: nat, p: Placed, q: Placed)
    requires b in p.boxes && Sound(p) && Wraps(b, lo, hi, p) && p.boxes == q.boxes && p.cards <= q.cards
    requires forall c | c in q.cards[|p.cards|..] :: c.id.Named? && c.y >= p.y && c.h > 0
    ensures Wraps(b, lo, hi, q)
  {
    forall c | c in q.cards
      ensures Inside(c, b) <==> c.id.Blk? && lo <= c.id.n < hi
    {
      var i :| 0 <= i < |q.cards| && q.cards[i] == c;
      if i < |p.cards| {
        assert p.cards[i] == c;
      } else {
        assert c in q.cards[|p.cards|..];
      }
    }
  }

  lemma ShowsBelow(p: Placed, q: Placed, n: nat, s: Spec)
    requires Shows(p, n, s) && p.boxes == q.boxes && p.cards <= q.cards
    requires forall c | c in q.cards[|p.cards|..] :: c.id.Named?
    ensures Shows(q, n, s)
  {
    forall c | c in q.cards
      ensures c in p.cards || c.id.Named?
    {
      var i :| 0 <= i < |q.cards| && q.cards[i] == c;
      if i < |p.cards| { assert p.cards[i] == c; } else { assert c in q.cards[|p.cards|..]; }
    }
    assert forall c | c in p.cards :: c in q.cards;
  }

  lemma ShowsAllBelow(p: Placed, q: Placed, n: nat, specs: seq<Spec>)
    requires ShowsAll(p, n, specs) && p.boxes == q.boxes && p.cards <= q.cards
    requires forall c | c in q.cards[|p.cards|..] :: c.id.Named?
    ensures ShowsAll(q, n, specs)
  {
    hide Shows;
    forall i | 0 <= i < |specs|
      ensures Shows(q, n + i, specs[i])
    {
      ShowsBelow(p, q, n + i, specs[i]);
    }
  }

  lemma {:induction false} DrawnBelow(strip: seq<Cell>, groups: seq<Group>, n: nat, p: Placed, q: Placed)
    requires Drawn(strip, groups, n, p) && Sound(p) && p.boxes == q.boxes && p.cards <= q.cards
    requires forall c | c in q.cards[|p.cards|..] :: c.id.Named? && c.y >= p.y && c.h > 0
    ensures Drawn(strip, groups, n, q)
  {
    hide Sound, Wraps, Shows, ShowsAll, SpecsOf;
    if groups != [] {
      DrawnBelow(strip, groups[1..], n + BlocksIn(groups[0]), p, q);
      match groups[0]
      case RunGroup(r) => ShowsBelow(p, q, n, SpecOf(strip, r));
      case CycleGroup(rep, unit, _, _) =>
        ShowsAllBelow(p, q, n, SpecsOf(strip, unit));
        var b :| b in p.boxes && b.id.CycleBox? && b.count == rep && Wraps(b, n, n + |unit|, p);
        WrapsBelow(b, n, n + |unit|, p, q);
    }
  }

  /** The strip spans the blocks: from the top of the first box to the bottom of the last. */
  predicate Spans(st: Strip, top: int, boxes: seq<Box>) {
    && st.x == STRIP_X && st.w == STRIP_W && st.y == top
    && (boxes != [] ==> st.y + st.h == boxes[|boxes| - 1].y + boxes[|boxes| - 1].h)
    && (boxes != [] ==> exists b | b in boxes :: b.y == st.y)
    && (boxes == [] ==> st.h == H)
    && forall b | b in boxes :: st.y <= b.y && b.y + b.h <= st.y + st.h && st.x + st.w < b.x
  }

  predicate ClearOfStack(l: LaidPanel, cards: seq<Card>, boxes: seq<Box>) {
    (forall c | c in cards :: c.x + c.w < l.x) && (forall b | b in boxes :: b.x + b.w < l.x)
  }

  /** The figure of a mixed stack is sound geometry drawn around the right things. */
  ghost predicate GoodFigure(s: Schematic, layout: Layout, fig: Figure) {
    var col := Column(s, layout);
    && fig.cards == col.cards && fig.boxes == col.boxes && Sound(col)
    && LayersShown(fig.boxes, fig.boxes) == TotalLayers(layout.groups)
    && Drawn(layout.strip, layout.groups, 0, col) && col.n == TotalBlocks(layout.groups)
    && fig.strip.Some? && Spans(fig.strip.value, TopColumn(s).y, fig.boxes) && fig.strip.value.cells == layout.strip
    && (forall l | l in fig.panels :: ClearOfStack(l, fig.cards, fig.boxes))
  }

  lemma FirstBoxTop(p: Placed)
    requires Sound(p)
    ensures forall b | b in p.boxes :: b.y + b.h + GAP <= p.y
  {
  }

  /** The column down to the last block. */
  predicate BlocksGood(top: Placed, mid: Placed, groups: seq<Group>) {
    && mid.n == TotalBlocks(groups) && top.boxes == [] && mid.y >= top.y
    && (forall b | b in mid.boxes :: b.y >= top.y && b.y + b.h + GAP <= mid.y)
    && (groups != [] ==> mid.boxes != [] && mid.boxes[|mid.boxes| - 1].y + mid.boxes[|mid.boxes| - 1].h + GAP == mid.y
                         && mid.y >= top.y + BLOCK_H + GAP)
    && (groups != [] ==> exists b | b in mid.boxes :: b.y == top.y)
    && (groups == [] ==> mid == top)
    && LayersShown(mid.boxes, mid.boxes) == TotalLayers(groups)
  }

  lemma BlocksColumnSound(s: Schematic, layout: Layout)
    requires NoEmptyCycle(layout.groups)
    ensures var top, mid := TopColumn(s), BlocksColumn(s, layout);
            && Sound(mid) && Drawn(layout.strip, layout.groups, 0, mid) && BlocksGood(top, mid, layout.groups)
            && FlowIs(NamedId(FindNode(s.nodes, "embed")), mid)
  {
    TopColumnSound(s);
    hide TopColumn, FlowIs, PushCard, Sound, Drawn, Extends, PlaceGroups;
    var top := TopColumn(s);
    PlaceGroupsFlow(NamedId(FindNode(s.nodes, "embed")), top, layout.strip, layout.groups);
    PlaceGroupsSound(top, layout.strip, layout.groups);
    PlaceGroupsLayers(top, layout.strip, layout.groups);
    if layout.groups != [] { FirstBoxAtTop(top, layout.strip, layout.groups); }
    FirstBoxTop(BlocksColumn(s, layout));
    ExtendsBoxes(top, BlocksColumn(s, layout));
  }

  lemma TopColumnSound(s: Schematic)
    ensures var top := TopColumn(s);
            Sound(top) && top.boxes == [] && top.n == 0 && FlowIs(NamedId(FindNode(s.nodes, "embed")), top)
  {
    PushCardSound(Placed([], [], 0, 0), FindNode(s.nodes, "embed"));
  }

  lemma ColumnSound(s: Schematic, layout: Layout)
    requires NoEmptyCycle(layout.groups)
    ensures var mid, col := BlocksColumn(s, layout), Column(s, layout);
            && Sound(col) && Drawn(layout.strip, layout.groups, 0, col) && col.n == mid.n && col.boxes == mid.boxes
            && Ids(col.cards) == NamedId(FindNode(s.nodes, "embed")) + BlockIds(col.n)
                                 + (NamedId(FindNode(s.nodes, "finalnorm")) + NamedId(FindNode(s.nodes, "head")))
  {
    hide Sound, FlowIs, BlocksColumn, BlocksGood, PushCard;
    BlocksColumnSound(s, layout);
    var fin, head, mid := FindNode(s.nodes, "finalnorm"), FindNode(s.nodes, "head"), BlocksColumn(s, layout);
    var fin_, col := PushCard(mid, fin), Column(s, layout);
    PushCardSound(mid, fin);
    PushCardSound(fin_, head);
    Pushed(mid, fin);
    Pushed(fin_, head);
    DrawnBelow(layout.strip, layout.groups, 0, mid, fin_);
    DrawnBelow(layout.strip, layout.groups, 0, fin_, col);
    ColumnIds(NamedId(FindNode(s.nodes, "embed")), mid, fin, head);
  }

  lemma ExtendsBoxes(p: Placed, q: Placed)
    requires Extends(p, q) && p.boxes == []
    ensures p.y <= q.y && forall b | b in q.boxes :: b.y >= p.y
  {
    assert q.boxes[0..] == q.boxes;
  }

  /** The node, if there is one, has a card that shows its kind. */
  predicate HasCard(cards: seq<Card>, node: Option<Node>) {
    node.Some? ==> exists c | c in cards :: c.id == node.value.id && c.kind == node.value.kind
  }

  lemma PushedHasCard(p: Placed, node: Option<Node>, earlier: Option<Node>)
    ensures HasCard(PushCard(p, node).cards, node)
    ensures HasCard(p.cards, earlier) ==> HasCard(PushCard(p, node).cards, earlier)
  {
    var q := PushCard(p, node);
    if node.Some? { assert CardFor(node.value, p.y) in q.cards; }
    if HasCard(p.cards, earlier) && earlier.Some? {
      var c :| c in p.cards && c.id == earlier.value.id && c.kind == earlier.value.kind;
      assert c in q.cards;
    }
  }

  lemma LongerHasCard(a: seq<Card>, b: seq<Card>, node: Option<Node>)
    requires HasCard(a, node) && a <= b
    ensures HasCard(b, node)
  {
    if node.Some? {
      var c :| c in a && c.id == node.value.id && c.kind == node.value.kind;
      assert c in b;
    }
  }

  /** Embedding, final norm and head are drawn as what they are. */
  lemma NamedNodesAreShown(s: Schematic, layout: Layout)
    requires NoEmptyCycle(layout.groups)
    ensures var cards := Column(s, layout).cards;
            HasCard(cards, FindNode(s.nodes, "embed")) && HasCard(cards, FindNode(s.nodes, "finalnorm")) && HasCard(cards, FindNode(s.nodes, "head"))
  {
    var embed, fin, head := FindNode(s.nodes, "embed"), FindNode(s.nodes, "finalnorm"), FindNode(s.nodes, "head");
    TopColumnSound(s);
    PushedHasCard(Placed([], [], 0, 0), embed, None);
    var top, mid := TopColumn(s), BlocksColumn(s, layout);
    PlaceGroupsSound(top, layout.strip, layout.groups);
    assert top.cards <= mid.cards by { hide Sound, Drawn, FlowIs; }
    hide PlaceGroups, Sound, HasCard, PushCard, Drawn, FlowIs, Extends;
    LongerHasCard(top.cards, mid.cards, embed);
    var m := PushCard(mid, fin);
    PushedHasCard(mid, fin, embed);
    PushedHasCard(m, head, embed);
    PushedHasCard(m, head, fin);
  }

  lemma Pushed(p: Placed, node: Option<Node>)
    ensures forall c | c in PushCard(p, node).cards[|p.cards|..] :: c.h > 0
  {
  }

  lemma ColumnIds(pre: seq<CardId>, mid: Placed, fin: Option<Node>, head: Option<Node>)
    requires FlowIs(pre, mid)
    ensures Ids(PushCard(PushCard(mid, fin), head).cards) == pre + BlockIds(mid.n) + (NamedId(fin) + NamedId(head))
  {
    var a := PushCard(mid, fin);
    assert Ids(a.cards) == Ids(mid.cards) + NamedId(fin);
    assert Ids(PushCard(a, head).cards) == Ids(a.cards) + NamedId(head);
  }

  // ---- The two layouts -------------------------------------------------------------------------

  function Post(s: Schematic): seq<CardId> {
    NamedId(FindNode(s.nodes, "finalnorm")) + NamedId(FindNode(s.nodes, "head"))
  }

  /** The edges of a mixed stack's figure: the main chain, the skips of every block and the
      leaders of the panels, all between things that were laid. */
  ghost predicate GoodEdges(s: Schematic, n: nat, fig: Figure) {
    var flow := Ids(fig.cards);
    var pre := NamedId(FindNode(s.nodes, "embed"));
    && flow == pre + BlockIds(n) + Post(s)
    && (exists leaders ::
          LeadersTo(fig.panels, leaders) && fig.edges == MainEdges(flow) + AllSkips(flow, n) + leaders)
    && (forall e | e in fig.edges :: EdgeGood(flow, fig.panels, e))
  }

  /** Both ends were laid: cards, or for a leader the panel it goes to. */
  predicate EdgeGood(flow: seq<CardId>, panels: seq<LaidPanel>, e: Edge) {
    && e.source.AtCard? && e.source.id in flow
    && (if e.target.AtCard? then e.target.id in flow else e.kind == Leader && exists l | l in panels :: l.panel.id == e.target.panel)
  }

  method LayoutGrouped(s: Schematic, panels: seq<Panel>) returns (fig: Figure)
    requires s.layout.Some? && NoEmptyCycle(s.layout.value.groups)
    ensures GoodFigure(s, s.layout.value, fig)
    ensures GoodEdges(s, TotalBlocks(s.layout.value.groups), fig)
    ensures PanelsOf(fig.panels) == Anchored(panels, fig.cards)
    ensures forall i: nat | i < |fig.panels| :: PlacedRight(fig.cards, fig.panels, i)
  {
    var layout := s.layout.value;
    var b := new Builder();
    b.PushNode(FindNode(s.nodes, "embed"));
    var blockTop := b.y;
    b.EmitGroups(layout.strip, layout.groups);
    var blockBottom := b.y - GAP;
    b.PushNode(FindNode(s.nodes, "finalnorm"));
    b.PushNode(FindNode(s.nodes, "head"));
    var edges := b.Edges();
    var strip := Strip(STRIP_X, blockTop, STRIP_W, if blockBottom - blockTop >= H then blockBottom - blockTop else H, layout.strip);
    var placed, leaders := PlacePanels(panels, b.cards);
    fig := Figure(b.cards, b.boxes, Some(strip), edges + leaders, placed);
    GroupedIsGood(s, layout, fig, strip);
    GroupedEdgesGood(s, layout, fig, leaders);
  }

  lemma PanelsClear(col: Placed, panels: seq<LaidPanel>)
    requires Sound(col) && forall i: nat | i < |panels| :: PlacedRight(col.cards, panels, i)
    ensures forall l | l in panels :: ClearOfStack(l, col.cards, col.boxes)
  {
    forall l | l in panels
      ensures ClearOfStack(l, col.cards, col.boxes)
    {
      var i: nat :| i < |panels| && panels[i] == l;
      var k := AnchorCard(col.cards, panels, i);
      assert l.x == PANEL_X;
      hide PlacedRight;
      assert forall c | c in col.cards :: InColumn(c);
    }
  }

  lemma GroupedIsGood(s: Schematic, layout: Layout, fig: Figure, strip: Strip)
    requires NoEmptyCycle(layout.groups)
    requires fig.cards == Column(s, layout).cards && fig.boxes == Column(s, layout).boxes && fig.strip == Some(strip)
    requires var top, bottom := TopColumn(s).y, BlocksColumn(s, layout).y - GAP;
             strip == Strip(STRIP_X, top, STRIP_W, if bottom - top >= H then bottom - top else H, layout.strip)
    requires forall i: nat | i < |fig.panels| :: PlacedRight(fig.cards, fig.panels, i)
    ensures GoodFigure(s, layout, fig)
  {
    hide FlowIs, Column, BlocksColumn, TopColumn, PushCard;
    BlocksColumnSound(s, layout);
    ColumnSound(s, layout);
    PanelsClear(Column(s, layout), fig.panels);
    hide PlacedRight, ClearOfStack, Drawn;
    assert layout.groups == [] ==> fig.boxes == [];
  }

  lemma GroupedEdgesGood(s: Schematic, layout: Layout, fig: Figure, leaders: seq<Edge>)
    requires NoEmptyCycle(layout.groups) && fig.cards == Column(s, layout).cards
    requires fig.edges == MainEdges(Ids(fig.cards)) + AllSkips(Ids(fig.cards), TotalBlocks(layout.groups)) + leaders
    requires LeadersTo(fig.panels, leaders)
    requires forall i: nat | i < |fig.panels| :: PlacedRight(fig.cards, fig.panels, i)
    ensures GoodEdges(s, TotalBlocks(layout.groups), fig)
  {
    BlocksColumnSound(s, layout);
    ColumnSound(s, layout);
    hide FlowIs, Column, BlocksColumn, TopColumn, PushCard, Sound, Drawn, PlacedRight;
    var flow, n := Ids(fig.cards), TotalBlocks(layout.groups);
    SkipsLaid(NamedId(FindNode(s.nodes, "embed")), n, Post(s), n);
    LeadersLaid(fig, leaders);
    hide EdgeGood, Laid, MainEdges, AllSkips, Ids;
    AllEdgesGood(flow, n, leaders, fig);
  }

  lemma AllEdgesGood(flow: seq<CardId>, n: nat, leaders: seq<Edge>, fig: Figure)
    requires fig.edges == MainEdges(flow) + AllSkips(flow, n) + leaders
    requires forall e | e in AllSkips(flow, n) :: Laid(flow, e)
    requires forall e | e in leaders :: EdgeGood(flow, fig.panels, e)
    ensures forall e | e in fig.edges :: EdgeGood(flow, fig.panels, e)
  {
    forall e | e in fig.edges
      ensures EdgeGood(flow, fig.panels, e)
    {
      if e in leaders {
      } else if e in AllSkips(flow, n) {
        assert Laid(flow, e);
      } else {
        assert e in MainEdges(flow);
      }
    }
  }

  lemma LeadersLaid(fig: Figure, leaders: seq<Edge>)
    requires LeadersTo(fig.panels, leaders)
    requires forall i: nat | i < |fig.panels| :: PlacedRight(fig.cards, fig.panels, i)
    ensures forall e | e in leaders :: EdgeGood(Ids(fig.cards), fig.panels, e)
  {
    forall e | e in leaders
      ensures EdgeGood(Ids(fig.cards), fig.panels, e)
    {
      var i :| 0 <= i < |leaders| && leaders[i] == e;
      var j := AnchorCard(fig.cards, fig.panels, i);
      assert Ids(fig.cards)[j] == fig.cards[j].id;
      assert fig.panels[i] in fig.panels;
    }
  }

  /** The folding of a stack never makes an empty cycle. */
  lemma {:induction false} FoldedGroupsHaveBlocks(groups: seq<Group>, lo: nat)
    requires TileGroups(groups, lo)
    ensures NoEmptyCycle(groups)
  {
    if groups != [] {
      FoldedGroupsHaveBlocks(groups[1..], lo + GroupLayers(groups[0]));
      assert groups == [groups[0]] + groups[1..];
    }
  }

  function YOf(i: nat): int {
    i * (H + GAP)
  }

  function UniformCards(nodes: seq<Node>): (r: seq<Card>)
    ensures |r| == |nodes|
  {
    seq(|nodes|, i requires 0 <= i < |nodes| => Card(nodes[i].id, nodes[i].kind, X, YOf(i), W, H, None))
  }

  /** The positions of the in-block nodes, ascending. */
  function BlockIdx(nodes: seq<Node>): (r: seq<nat>)
    ensures forall i :: i in r <==> 0 <= i < |nodes| && nodes[i].inBlock
    ensures forall i, j | 0 <= i < j < |r| :: r[i] < r[j]
  {
    if nodes == [] then []
    else
      var init := BlockIdx(nodes[..|nodes| - 1]);
      assert forall j | 0 <= j < |init| :: init[j] in init;
      if nodes[|nodes| - 1].inBlock then init + [|nodes| - 1] else init
  }

  function ContainerBox(first: nat, last: nat): Box {
    Box(Container, X - PAD, YOf(first) - PAD, W + PAD * 2, YOf(last) + H + PAD - (YOf(first) - PAD), 0)
  }

  predicate Contiguous(nodes: seq<Node>) {
    forall i, j, k | 0 <= i < j < k < |nodes| && nodes[i].inBlock && nodes[k].inBlock :: nodes[j].inBlock
  }

  lemma YOrder(i: nat, j: nat)
    ensures i < j ==> YOf(i) + H + GAP <= YOf(j)
  {
    assert YOf(j) - YOf(i) == (j - i) * (H + GAP);
  }

  lemma InsideContainer(nodes: seq<Node>, first: nat, last: nat, i: nat)
    requires i < |nodes|
    ensures Inside(UniformCards(nodes)[i], ContainerBox(first, last)) <==> first <= i <= last
  {
    YOrder(i, first);
    YOrder(first, i);
    YOrder(i, last);
    YOrder(last, i);
    hide YOf;
  }

  /** The container holds exactly the in-block cards when, and only when, they are one stretch. */
  lemma ContainerHoldsTheBlock(nodes: seq<Node>)
    requires BlockIdx(nodes) != []
    ensures var idx, cards := BlockIdx(nodes), UniformCards(nodes);
            var box := ContainerBox(idx[0], idx[|idx| - 1]);
            Contiguous(nodes) <==> forall i | 0 <= i < |nodes| :: Inside(cards[i], box) <==> nodes[i].inBlock
  {
    var idx, cards := BlockIdx(nodes), UniformCards(nodes);
    var first, last := idx[0], idx[|idx| - 1];
    assert first in idx && last in idx;
    forall i: nat | i < |nodes|
      ensures Inside(cards[i], ContainerBox(first, last)) <==> first <= i <= last
      ensures nodes[i].inBlock ==> first <= i <= last
    {
      InsideContainer(nodes, first, last, i);
      if nodes[i].inBlock {
        assert i in idx;
      }
    }
    hide Inside, ContainerBox, UniformCards, BlockIdx, Contiguous;
    ContiguousMeansBetween(nodes, first, last);
  }

  /** From the first in-block node to the last there are no others exactly when they are one stretch. */
  lemma ContiguousMeansBetween(nodes: seq<Node>, first: nat, last: nat)
    requires first <= last < |nodes| && nodes[first].inBlock && nodes[last].inBlock
    requires forall i | 0 <= i < |nodes| && nodes[i].inBlock :: first <= i <= last
    ensures Contiguous(nodes) <==> forall i | first <= i <= last :: nodes[i].inBlock
  {
    if forall i | first <= i <= last :: nodes[i].inBlock {
      assert Contiguous(nodes);
    }
  }

  lemma UniformStacked(nodes: seq<Node>)
    ensures Stacked(UniformCards(nodes))
  {
    forall i: nat, j: nat | i < j < |nodes|
      ensures YOf(i) + H + GAP <= YOf(j)
    {
      YOrder(i, j);
    }
  }

  /** An edge from every card to the next. */
  method ChainEdges(flow: seq<CardId>) returns (edges: seq<Edge>)
    ensures edges == MainEdges(flow)
  {
    edges := [];
    var i := 0;
    while i + 1 < |flow|
      invariant 0 <= i && (i == 0 || i < |flow|)
      invariant i <= |MainEdges(flow)| && edges == MainEdges(flow)[..i]
    {
      edges := edges + [Edge(AtCard(flow[i]), AtCard(flow[i + 1]), Main)];
      i := i + 1;
    }
  }

  /** The classic figure: one card a node at a fixed pitch, one container. */
  method LayoutUniform(s: Schematic, panels: seq<Panel>) returns (fig: Figure)
    ensures fig.cards == UniformCards(s.nodes) && Stacked(fig.cards) && fig.strip.None?
    ensures var idx := BlockIdx(s.nodes);
            fig.boxes == if idx != [] && s.layers > 0 then [ContainerBox(idx[0], idx[|idx| - 1])] else []
    ensures PanelsOf(fig.panels) == Anchored(panels, fig.cards)
    ensures forall i: nat | i < |fig.panels| :: PlacedRight(fig.cards, fig.panels, i)
    ensures exists leaders ::
              && LeadersTo(fig.panels, leaders)
              && fig.edges == MainEdges(Ids(fig.cards)) + SkipEdges(s.residuals) + leaders
              && forall e | e in leaders :: EdgeGood(Ids(fig.cards), fig.panels, e)
  {
    hide YOf, PlacedRight, LeadersTo, EdgeGood;
    var cards := UniformCards(s.nodes);
    UniformStacked(s.nodes);
    var boxes: seq<Box> := [];
    var blockIdx := BlockIdx(s.nodes);
    if |blockIdx| > 0 && s.layers > 0 {
      var top := YOf(blockIdx[0]) - PAD;
      var bottom := YOf(blockIdx[|blockIdx| - 1]) + H + PAD;
      boxes := [Box(Container, X - PAD, top, W + PAD * 2, bottom - top, 0)];
    }
    assert boxes == if blockIdx != [] && s.layers > 0 then [ContainerBox(blockIdx[0], blockIdx[|blockIdx| - 1])] else [];
    hide ContainerBox, BlockIdx, UniformCards, Stacked, MainEdges, SkipEdges, Ids, Anchored, PanelsOf;
    var edges := ChainEdges(Ids(cards));
    edges := edges + SkipEdges(s.residuals);
    var placed, leaders := PlacePanels(panels, cards);
    fig := Figure(cards, boxes, None, edges + leaders, placed);
    LeadersLaid(fig, leaders);
  }

  function SkipEdges(residuals: seq<(CardId, CardId)>): seq<Edge> {
    seq(|residuals|, i requires 0 <= i < |residuals| => Edge(AtCard(residuals[i].0), AtCard(residuals[i].1), Residual))
  }
}
