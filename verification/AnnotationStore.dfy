/** The device-local annotation store: its rows, the two wire projections, and
    the four store operations with their bounded undo history.

    A row carries `obj`, the identity of the JavaScript object that holds it.
    Rows are never mutated in place: every change replaces the object, so
    `obj` is the generation counter the sync engine compares. */
module AnnotationStore {
  import opened Options

  datatype Kind = Highlight | Underline | Note | Text | Image | Ink

  /** The optional text columns of an annotation; a key that is present is a
      defined property, and may still hold the empty string. */
  datatype Field = Color | SortIndex | Comment | SelectedText | Author

  datatype Position = Position(page: int, shape: string)

  /** A text value: written by somebody, or the reading-order key computed from a position. */
  datatype Value = Literal(s: string) | SortKeyOf(position: Position)

  type Fields = map<Field, Value>

  datatype Content = Content(kind: Kind, page: int, position: Position, tags: seq<string>, opt: Fields)

  /** A hub id as the device stores it: the empty string, or one the hub minted. */
  datatype HubId = Blank | Minted(n: nat)

  datatype Row = Row(id: nat, ref: nat, content: Content, hubId: Option<HubId>, dirty: bool, obj: nat) {
    predicate Linked() { hubId.Some? && hubId.value.Minted? }

    function Link(): nat
      requires Linked()
    {
      hubId.value.n
    }
  }

  // ---- Wire projections -----------------------------------------------------

  /** The geometry as the hub keeps it: opaque JSON that may not be an object, or
      may be an object without a page. */
  datatype HubPosition = NotAnObject | Object(page: Option<int>, shape: string)

  datatype HubBody = HubBody(kind: Kind, page: int, position: HubPosition, tags: seq<string>, opt: Fields)

  function AnnToHubBody(c: Content): HubBody {
    HubBody(c.kind, c.page, Object(Some(c.position.page), c.position.shape), c.tags, c.opt)
  }

  /** The page column is authoritative over the page inside the geometry. */
  function HubToAnnotation(b: HubBody): Content {
    var shape := match b.position case NotAnObject => "" case Object(_, s) => s;
    Content(b.kind, b.page, Position(b.page, shape), b.tags, b.opt)
  }

  /** `add` fills in the reading-order key when the payload has none. */
  function WithSortIndex(c: Content): Content {
    if SortIndex in c.opt then c else c.(opt := c.opt[SortIndex := SortKeyOf(c.position)])
  }

  /** What a device shows for a hub row it pulls. */
  function Shown(b: HubBody): Content {
    WithSortIndex(HubToAnnotation(b))
  }

  /** The hub keeps an empty text column as NULL and omits it when read back. */
  function Stored(opt: Fields): Fields {
    map k | k in opt && opt[k] != Literal("") :: opt[k]
  }

  function Inserted(b: HubBody): HubBody {
    b.(opt := Stored(b.opt))
  }

  /** A PATCH overrides the columns whose keys are present and keeps the others;
      kind, page, position and tags are always present in the body sent. */
  function Patched(old_: HubBody, b: HubBody): HubBody {
    b.(opt := Stored(old_.opt + b.opt))
  }

  // ---- Reading a hub row, column by column ------------------------------------

  /** A text column that says something; an empty one says as little as a missing one. */
  function TextOf(opt: Fields, k: Field): Option<Value> {
    if k in opt && opt[k] != Literal("") then Some(opt[k]) else None
  }

  function ShapeOf(p: HubPosition): string {
    match p case NotAnObject => "" case Object(_, s) => s
  }

  /** The reading-order key: the one written down, or the one its place gives it. */
  function ReadingKey(opt: Fields, page: int, shape: string): Value {
    TextOf(opt, SortIndex).GetOr(SortKeyOf(Position(page, shape)))
  }

  /** The row has the very geometry of the hub row, or that geometry on the column's page. */
  predicate SamePlace(p: Position, b: HubBody) {
    p.shape == ShapeOf(b.position) && (b.position == Object(Some(p.page), p.shape) || p.page == b.page)
  }

  /** Row and hub row say the same thing, column by column. */
  ghost predicate InStep(c: Content, b: HubBody) {
    && c.kind == b.kind && c.page == b.page && c.tags == b.tags && SamePlace(c.position, b)
    && (forall k | k != SortIndex :: TextOf(c.opt, k) == TextOf(b.opt, k))
    && ReadingKey(c.opt, c.page, c.position.shape) == ReadingKey(b.opt, b.page, ShapeOf(b.position))
  }

  /** `c` is the hub row as a device that lacked it holds it: every column as it is, the geometry
      on the page of its column, and at most the reading-order key added. */
  ghost predicate ReadFrom(c: Content, b: HubBody) {
    && c.kind == b.kind && c.page == b.page && c.tags == b.tags
    && c.position == Position(b.page, ShapeOf(b.position))
    && c.opt.Keys == b.opt.Keys + {SortIndex}
    && (forall k | k in b.opt :: c.opt[k] == b.opt[k])
    && (SortIndex !in b.opt ==> c.opt[SortIndex] == SortKeyOf(c.position))
  }

  /** `c` still defines every text column the hub row holds. */
  predicate Keeps(c: Content, b: HubBody) {
    forall k | k in b.opt :: k in c.opt
  }

  lemma CreateInStep(c: Content)
    ensures InStep(c, Inserted(AnnToHubBody(c)))
    ensures Keeps(c, Inserted(AnnToHubBody(c)))
  {
  }

  /** What a device makes of a hub row: the row itself, complete or not. */
  lemma PulledIsReadFrom(b: HubBody)
    ensures ReadFrom(Shown(b), b)
  {
  }

  /** A row read from a hub row is in step with it and lacks none of its columns. */
  lemma PullInStep(c: Content, b: HubBody)
    requires ReadFrom(c, b) && Stored(b.opt) == b.opt
    ensures InStep(c, b) && Keeps(c, b) && SortIndex in c.opt
  {
    forall k | k in b.opt
      ensures b.opt[k] != Literal("")
    {
      assert k in Stored(b.opt);
    }
  }

  /** Where another device puts the annotation: the page column decides. */
  function PulledPosition(c: Content): Position {
    Position(c.page, c.position.shape)
  }

  /** Every text column the hub row holds is one `c` defines, or the reading-order key a device
      would compute for it anyway. */
  predicate Restates(c: Content, b: HubBody) {
    forall k | k in b.opt && k !in c.opt :: k == SortIndex && b.opt[k] == SortKeyOf(PulledPosition(c))
  }

  lemma StoredText(opt: Fields, k: Field)
    ensures TextOf(Stored(opt), k) == TextOf(opt, k)
    ensures k in Stored(opt) <==> TextOf(opt, k).Some?
  {
  }

  lemma PatchKeepsColumns(c: Content, b: HubBody)
    requires Keeps(c, b)
    ensures Keeps(c, Patched(b, AnnToHubBody(c)))
    ensures Patched(b, AnnToHubBody(c)) == Inserted(AnnToHubBody(c))
    ensures Stored(Stored(c.opt)) == Stored(c.opt)
  {
    assert b.opt + c.opt == c.opt;
  }

  /** A column after the merge of a PATCH: the row's own, or the hub row's where the row has none. */
  lemma MergedText(c: Content, b: HubBody, k: Field)
    ensures TextOf(Patched(b, AnnToHubBody(c)).opt, k) == if k in c.opt then TextOf(c.opt, k) else TextOf(b.opt, k)
  {
    StoredText(b.opt + c.opt, k);
    hide Stored;
  }

  /** A PATCH brings the hub row in step with the pushed row exactly when the row still defines
      every column the hub row holds, or a device would compute it: the merge never clears one. */
  lemma PatchInStepExactly(c: Content, b: HubBody)
    requires Stored(b.opt) == b.opt
    ensures InStep(c, Patched(b, AnnToHubBody(c))) <==> Restates(c, b)
  {
    var p := Patched(b, AnnToHubBody(c));
    forall k: Field
      ensures TextOf(p.opt, k) == if k in c.opt then TextOf(c.opt, k) else TextOf(b.opt, k)
      ensures k in b.opt <==> TextOf(b.opt, k).Some?
    {
      MergedText(c, b, k);
      StoredText(b.opt, k);
    }
    assert p.kind == c.kind && p.page == c.page && p.tags == c.tags && SamePlace(c.position, p) && ShapeOf(p.position) == c.position.shape;
    hide Patched, Stored, AnnToHubBody, SamePlace;
    if Restates(c, b) {
      forall k: Field | k != SortIndex
        ensures TextOf(c.opt, k) == TextOf(p.opt, k)
      {
      }
    } else {
      var k :| k in b.opt && k !in c.opt && !(k == SortIndex && b.opt[k] == SortKeyOf(PulledPosition(c)));
      assert TextOf(p.opt, k) == TextOf(b.opt, k) && TextOf(c.opt, k) == None;
    }
  }

  // ---- Store operations -----------------------------------------------------

  datatype Store = Store(items: seq<Row>, past: seq<seq<Row>>, next: nat)

  const UNDO_CAP := 50

  function PushPast(past: seq<seq<Row>>, snapshot: seq<Row>): (r: seq<seq<Row>>)
    ensures |r| == if |past| < UNDO_CAP then |past| + 1 else UNDO_CAP
    ensures r[|r| - 1] == snapshot
    ensures r[..|r| - 1] == past[|past| + 1 - |r|..]
    ensures forall s | s in r :: s == snapshot || s in past
  {
    var all := past + [snapshot];
    if |all| > UNDO_CAP then all[|all| - UNDO_CAP..] else all
  }

  /** `pulled` says the payload carries `syncedAt`, which only a pull supplies. */
  function Add(s: Store, ref: nat, c: Content, hubId: Option<HubId>, pulled: bool): Store {
    var row := Row(s.next, ref, WithSortIndex(c), hubId, !pulled, s.next);
    Store(s.items + [row], PushPast(s.past, s.items), s.next + 1)
  }

  /** A partial row: what it sets, which text columns it sets to `undefined`, the
      link it writes and the dirty flag it carries. */
  datatype Patch = Patch(
    kind: Option<Kind>, page: Option<int>, position: Option<Position>, tags: Option<seq<string>>,
    set_: Fields, cleared: set<Field>, hubId: Option<HubId>, dirty: Option<bool>)

  function Applied(c: Content, p: Patch): Content {
    Content(p.kind.GetOr(c.kind), p.page.GetOr(c.page), p.position.GetOr(c.position), p.tags.GetOr(c.tags),
            (c.opt + p.set_) - p.cleared)
  }

  function PatchRow(r: Row, p: Patch, obj: nat): Row {
    Row(r.id, r.ref, Applied(r.content, p), if p.hubId.Some? then p.hubId else r.hubId, p.dirty.GetOr(true), obj)
  }

  function Update(s: Store, id: nat, p: Patch): Store {
    Store(seq(|s.items|, i requires 0 <= i < |s.items| =>
            if s.items[i].id == id then PatchRow(s.items[i], p, s.next) else s.items[i]),
          PushPast(s.past, s.items), s.next + 1)
  }

  function Without(items: seq<Row>, id: nat): (r: seq<Row>)
    ensures forall x :: x in r <==> x in items && x.id != id
  {
    if items == [] then []
    else if items[0].id == id then Without(items[1..], id)
    else [items[0]] + Without(items[1..], id)
  }

  function Remove(s: Store, id: nat): Store {
    Store(Without(s.items, id), PushPast(s.past, s.items), s.next)
  }

  /** Every restored row is a new object and is marked dirty. */
  function Restored(snapshot: seq<Row>, next: nat): (r: seq<Row>)
    ensures |r| == |snapshot|
  {
    seq(|snapshot|, i requires 0 <= i < |snapshot| => snapshot[i].(dirty := true, obj := next + i))
  }

  function Undo(s: Store): Store {
    if s.past == [] then s
    else
      var snapshot := s.past[|s.past| - 1];
      Store(Restored(snapshot, s.next), s.past[..|s.past| - 1], s.next + |snapshot|)
  }

  function LinkPatch(hubId: HubId, clean: bool): Patch {
    Patch(None, None, None, None, map[], {}, Some(hubId), if clean then Some(false) else None)
  }

  function Find(items: seq<Row>, id: nat): (r: Option<Row>)
    ensures r.Some? ==> r.value in items && r.value.id == id
    ensures r.None? ==> forall x | x in items :: x.id != id
  {
    if items == [] then None
    else if items[0].id == id then Some(items[0])
    else Find(items[1..], id)
  }

  /** The write-back of a push: clears `dirty` only if the row is still the very
      object the push read. */
  function WriteBack(s: Store, a: Row, hubId: HubId): Store {
    var cur := Find(s.items, a.id);
    Update(s, a.id, LinkPatch(hubId, cur.Some? && cur.value.obj == a.obj))
  }

  // ---- What the operations mean -----------------------------------------------

  /** `add` appends one row with a new id that says what the payload says, the reading-order key
      computed from its position if it had none. */
  lemma AddAppends(s: Store, ref: nat, c: Content, hubId: Option<HubId>, pulled: bool)
    ensures var t := Add(s, ref, c, hubId, pulled);
            && |t.items| == |s.items| + 1 && t.items[..|s.items|] == s.items && t.next > s.next
            && var r := t.items[|s.items|];
            && r.id == s.next && r.ref == ref && r.hubId == hubId && r.dirty == !pulled
            && r.content.kind == c.kind && r.content.page == c.page && r.content.position == c.position && r.content.tags == c.tags
            && r.content.opt.Keys == c.opt.Keys + {SortIndex}
            && forall k | k in r.content.opt :: r.content.opt[k] == if k in c.opt then c.opt[k] else SortKeyOf(c.position)
  {
  }

  /** A column after an edit: gone if the edit clears it, the edit's value if it sets one, and
      otherwise as it was. */
  predicate EditedColumn(old_: Fields, new_: Fields, p: Patch, k: Field) {
    if k in p.cleared then k !in new_
    else if k in p.set_ then k in new_ && new_[k] == p.set_[k]
    else (k in new_ <==> k in old_) && (k in old_ ==> new_[k] == old_[k])
  }

  predicate Edited(r: Row, r': Row, p: Patch) {
    && r'.id == r.id && r'.ref == r.ref
    && r'.content.kind == p.kind.GetOr(r.content.kind) && r'.content.page == p.page.GetOr(r.content.page)
    && r'.content.position == p.position.GetOr(r.content.position) && r'.content.tags == p.tags.GetOr(r.content.tags)
    && (forall k: Field :: EditedColumn(r.content.opt, r'.content.opt, p, k))
    && r'.hubId == (if p.hubId.Some? then p.hubId else r.hubId)
    && r'.dirty == (p.dirty.None? || p.dirty.value)
  }

  /** `update` changes the row with that id and no other, and in it what the patch names and
      nothing else; the row is a new object. */
  lemma UpdateEdits(s: Store, id: nat, p: Patch)
    ensures var t := Update(s, id, p);
            && |t.items| == |s.items| && t.next > s.next
            && forall i | 0 <= i < |s.items| ::
                 if s.items[i].id == id then Edited(s.items[i], t.items[i], p) && t.items[i].obj == s.next
                 else t.items[i] == s.items[i]
  {
    forall i | 0 <= i < |s.items| && s.items[i].id == id
      ensures Edited(s.items[i], Update(s, id, p).items[i], p)
    {
      PatchEdits(s.items[i], p, s.next);
    }
    hide Edited, PatchRow;
  }

  lemma PatchEdits(r: Row, p: Patch, obj: nat)
    ensures Edited(r, PatchRow(r, p, obj), p)
  {
  }

  lemma WithoutFirst(x: Row, rest: seq<Row>, id: nat)
    ensures Without([x] + rest, id) == (if x.id == id then [] else [x]) + Without(rest, id)
  {
    assert ([x] + rest)[1..] == rest;
  }

  lemma WithoutNone(id: nat)
    ensures Without([], id) == []
  {
  }

  /** `remove` drops the rows with that id and keeps the others in their order. */
  lemma {:induction false} WithoutKeepsOrder(a: seq<Row>, b: seq<Row>, id: nat)
    ensures Without(a + b, id) == Without(a, id) + Without(b, id)
    ensures |a| == 1 ==> Without(a, id) == if a[0].id == id then [] else a
  {
    hide Without;
    WithoutNone(id);
    if a == [] {
      assert a + b == b;
    } else {
      var x, rest := a[0], a[1..];
      assert a == [x] + rest && a + b == [x] + (rest + b);
      WithoutFirst(x, rest, id);
      WithoutFirst(x, rest + b, id);
      WithoutKeepsOrder(rest, b, id);
    }
  }

  /** An operation of the user or the sync that the undo stack records. */
  datatype Op =
    | DoAdd(ref: nat, content: Content, hubId: Option<HubId>, pulled: bool)
    | DoUpdate(id: nat, patch: Patch)
    | DoRemove(id: nat)

  function Do(s: Store, op: Op): Store {
    match op
    case DoAdd(ref, c, hubId, pulled) => Add(s, ref, c, hubId, pulled)
    case DoUpdate(id, p) => Update(s, id, p)
    case DoRemove(id) => Remove(s, id)
  }

  /** The first `n` operations. */
  function DoFirst(s: Store, ops: seq<Op>, n: nat): Store
    requires n <= |ops|
    decreases n
  {
    if n == 0 then s else Do(DoFirst(s, ops, n - 1), ops[n - 1])
  }

  function UndoTimes(s: Store, n: nat): Store
    decreases n
  {
    if n == 0 then s else UndoTimes(Undo(s), n - 1)
  }

  /** The same rows in the same order; the objects and the dirty flags may differ. */
  predicate SameRows(a: seq<Row>, b: seq<Row>) {
    |a| == |b| && forall i | 0 <= i < |a| :: b[i] == a[i].(dirty := b[i].dirty, obj := b[i].obj)
  }

  lemma DoRecords(s: Store, op: Op)
    ensures Do(s, op).past == PushPast(s.past, s.items)
  {
    hide PushPast;
  }

  /** The `m`-th snapshot from the top of the stack. */
  function FromTop(past: seq<seq<Row>>, m: nat): seq<Row>
    requires 1 <= m <= |past|
  {
    past[|past| - m]
  }

  lemma PushedOnTop(past: seq<seq<Row>>, snapshot: seq<Row>, m: nat)
    requires 1 <= m <= UNDO_CAP && m <= |past| + 1
    ensures m <= |PushPast(past, snapshot)|
    ensures FromTop(PushPast(past, snapshot), m) == if m == 1 then snapshot else FromTop(past, m - 1)
  {
    var r := PushPast(past, snapshot);
    if m > 1 { assert r[|r| - m] == r[..|r| - 1][|r| - m]; }
  }

  /** At most fifty operations leave the state before the first on the stack. */
  lemma {:induction false} DoFirstRecords(s: Store, ops: seq<Op>, n: nat)
    requires 1 <= n <= UNDO_CAP && n <= |ops|
    ensures n <= |DoFirst(s, ops, n).past| && FromTop(DoFirst(s, ops, n).past, n) == s.items
    decreases n
  {
    hide Do, FromTop;
    if n > 1 { DoFirstRecords(s, ops, n - 1); }
    DoneOnTop(DoFirst(s, ops, n - 1), ops[n - 1], n);
  }

  lemma DoneOnTop(s: Store, op: Op, m: nat)
    requires 1 <= m <= UNDO_CAP && m <= |s.past| + 1
    ensures m <= |Do(s, op).past|
    ensures FromTop(Do(s, op).past, m) == if m == 1 then s.items else FromTop(s.past, m - 1)
  {
    DoRecords(s, op);
    PushedOnTop(s.past, s.items, m);
    hide Do, PushPast, FromTop;
  }

  /** Undoing `n` times brings back the rows of the `n`-th snapshot from the top. */
  lemma {:induction false} UndoTimesRestores(s: Store, n: nat)
    requires 1 <= n <= |s.past|
    ensures var t := UndoTimes(s, n); SameRows(FromTop(s.past, n), t.items) && forall r | r in t.items :: r.dirty
    decreases n
  {
    var u := Undo(s);
    UndoRestores(s);
    hide Undo, SameRows;
    if n == 1 {
      assert UndoTimes(u, 0) == u && UndoTimes(s, 1) == u;
    } else {
      assert u.past[|u.past| - (n - 1)] == s.past[|s.past| - n];
      UndoTimesRestores(u, n - 1);
    }
  }

  lemma UndoRestores(s: Store)
    requires s.past != []
    ensures var t := Undo(s);
            && t.past == s.past[..|s.past| - 1] && SameRows(s.past[|s.past| - 1], t.items)
            && forall r | r in t.items :: r.dirty
  {
  }

  /** At most fifty operations, undone one by one, leave the rows as they were before the first,
      each marked dirty. */
  lemma UndoTakesBack(s: Store, ops: seq<Op>)
    requires 0 < |ops| <= UNDO_CAP
    ensures var t := UndoTimes(DoFirst(s, ops, |ops|), |ops|);
            SameRows(s.items, t.items) && forall r | r in t.items :: r.dirty
  {
    DoFirstRecords(s, ops, |ops|);
    hide Do, SameRows, UndoTimes, DoFirst, FromTop;
    UndoTimesRestores(DoFirst(s, ops, |ops|), |ops|);
  }
}
