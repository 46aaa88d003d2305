/** Writing into the user's documents: resolve, ask for consent, write, with leases for a session. */
module AuthorWrites {
  import opened Options
  import opened Approval

  // ---- Leases ----------------------------------------------------------------------------------

  const NUL := '\0'

  function LeaseKey(agent: string, doc: string): string {
    agent + [NUL] + doc
  }

  lemma {:induction false} KeysTellApart(a: string, d: string, b: string, e: string)
    requires NUL !in a && NUL !in b && LeaseKey(a, d) == LeaseKey(b, e)
    ensures a == b && d == e
  {
    var k := LeaseKey(a, d);
    assert k[|a|] == NUL && k[|b|] == NUL;
    assert forall i | 0 <= i < |a| :: k[i] == a[i] && a[i] != NUL;
    assert forall i | 0 <= i < |b| :: k[i] == b[i] && b[i] != NUL;
    assert |a| == |b|;
    assert a == k[..|a|] && b == k[..|b|] && d == k[|a| + 1..] && e == k[|b| + 1..];
  }

  predicate Held(leases: set<string>, agent: string, doc: string) {
    agent != "" && doc != "" && LeaseKey(agent, doc) in leases
  }

  function Granted(leases: set<string>, agent: string, doc: string): set<string> {
    if agent == "" || doc == "" then leases else leases + {LeaseKey(agent, doc)}
  }

  predicate OfAgent(key: string, agent: string) {
    agent + [NUL] <= key
  }

  function Revoked(leases: set<string>, agent: string): set<string> {
    set k | k in leases && !OfAgent(k, agent)
  }

  /** A revocation takes away the leases of that agent and of no other. */
  lemma RevokeTakesTheAgentsOwn(leases: set<string>, agent: string, other: string, doc: string)
    requires NUL !in agent && NUL !in other
    ensures Held(Revoked(leases, agent), other, doc) <==> Held(leases, other, doc) && other != agent
  {
    var k := LeaseKey(other, doc);
    if OfAgent(k, agent) {
      assert k == LeaseKey(agent, k[|agent| + 1..]);
      KeysTellApart(agent, k[|agent| + 1..], other, doc);
    }
  }

  // ---- Calls -------------------------------------------------------------------------------------

  datatype Via = Hub | Local

  datatype Result =
    | SharingOff
    | Unresolved
    | ApprovalUnavailable
    | RaiseRefused
    | DeniedByUser
    | NoDecision
    | WriteFailed
    | Written

  /** Where a call waits; a request to the renderer is known by its number. */
  datatype Phase =
    | Resolving(req: nat)
    | Keychain(doc: string)
    | Raising(doc: string)
    | AtHead(doc: string, card: string, deadline: int)
    | AtCard(doc: string, card: string, deadline: int)
    | Applying(req: nat, doc: string)
    | Over(result: Result)

  datatype Call = Call(agent: string, via: Via, phase: Phase)

  /** A write order sent to the renderer, with whether the lease was held when it was sent. */
  datatype Order = Order(call: nat, doc: string, held: bool)

  /** An approval read from a card. */
  datatype Consent = Consent(call: nat, doc: string, card: string, optionId: string)

  /** `pending` is the renderer's unanswered requests; `raised` logs which call got which card. */
  datatype Host = Host(
    sharing: bool, hub: bool, leases: set<string>, pending: map<nat, nat>, reqs: nat,
    calls: seq<Call>, orders: seq<Order>, consents: seq<Consent>, raised: seq<(nat, string)>)

  const QUIET := Host(false, false, {}, map[], 0, [], [], [], [])

  /** The renderer's answer: none in time or nothing usable, a refusal, or a document id. */
  datatype Answer = Nothing | Refused | Document(id: string)

  /** `shell` says whether there is a subscribed window to ask. */
  datatype Event =
    | SetSharing(on: bool)
    | SetHub(on: bool)
    | Revoke(agent: string)
    | Ask(agent: string, via: Via, shell: bool)
    | Replied(req: nat, answer: Answer, shell: bool)
    | TokenRead(i: nat, token: Option<string>)
    | CardRaised(i: nat, card: Option<string>, now: int)
    | Head(i: nat, now: int)
    | RowRead(i: nat, row: Option<Row>, shell: bool)

  predicate Possible(h: Host, e: Event) {
    match e
    case Replied(req, _, _) => req in h.pending && h.pending[req] < |h.calls|
    case TokenRead(i, _) => i < |h.calls| && h.calls[i].phase.Keychain?
    case CardRaised(i, _, _) => i < |h.calls| && h.calls[i].phase.Raising?
    case Head(i, _) => i < |h.calls| && h.calls[i].phase.AtHead?
    case RowRead(i, _, _) => i < |h.calls| && h.calls[i].phase.AtCard?
    case _ => true
  }

  function Move(h: Host, i: nat, p: Phase): Host
    requires i < |h.calls|
  {
    h.(calls := h.calls[i := h.calls[i].(phase := p)])
  }

  /** The third step: order the write, if there is a window to order it from. */
  function Write(h: Host, i: nat, doc: string, shell: bool): Host
    requires i < |h.calls|
  {
    if !shell then Move(h, i, Over(WriteFailed))
    else
      Move(h, i, Applying(h.reqs + 1, doc)).(
        reqs := h.reqs + 1, pending := h.pending[h.reqs + 1 := i],
        orders := h.orders + [Order(i, doc, Held(h.leases, h.calls[i].agent, doc))])
  }

  /** The second step: a hub-relayed call and a lease need no card. */
  function AskConsent(h: Host, i: nat, doc: string, shell: bool): Host
    requires i < |h.calls|
  {
    if h.calls[i].via == Hub || Held(h.leases, h.calls[i].agent, doc) then Write(h, i, doc, shell)
    else if !h.hub then Move(h, i, Over(ApprovalUnavailable))
    else Move(h, i, Keychain(doc))
  }

  function Resume(h: Host, req: nat, answer: Answer, shell: bool): Host
    requires req in h.pending && h.pending[req] < |h.calls|
  {
    var i := h.pending[req];
    var taken := h.(pending := h.pending - {req});
    match h.calls[i].phase
    case Resolving(_) =>
      if answer.Document? && answer.id != "" then AskConsent(taken, i, answer.id, shell) else Move(taken, i, Over(Unresolved))
    case Applying(_, _) => Move(taken, i, Over(if answer.Document? then Written else WriteFailed))
    case _ => taken
  }

  function Decide(h: Host, i: nat, row: Option<Row>, shell: bool): Host
    requires i < |h.calls| && h.calls[i].phase.AtCard?
  {
    var p := h.calls[i].phase;
    var reading := Polled(row);
    match reading.outcome
    case Pending => Move(h, i, AtHead(p.doc, p.card, p.deadline))
    case Deny => Move(h, i, Over(DeniedByUser))
    case Approve =>
      var leases := if reading.optionId == "session" then Granted(h.leases, h.calls[i].agent, p.doc) else h.leases;
      Write(h.(leases := leases, consents := h.consents + [Consent(i, p.doc, p.card, reading.optionId)]), i, p.doc, shell)
  }

  function Step(h: Host, e: Event): Host
    requires Possible(h, e)
  {
    match e
    case SetSharing(on) => h.(sharing := on, leases := if on then h.leases else {})
    case SetHub(on) => h.(hub := on)
    case Revoke(agent) => h.(leases := Revoked(h.leases, agent))
    case Ask(agent, via, shell) =>
      if !h.sharing then h.(calls := h.calls + [Call(agent, via, Over(SharingOff))])
      else if !shell then h.(calls := h.calls + [Call(agent, via, Over(Unresolved))])
      else
        h.(calls := h.calls + [Call(agent, via, Resolving(h.reqs + 1))], reqs := h.reqs + 1, pending := h.pending[h.reqs + 1 := |h.calls|])
    case Replied(req, answer, shell) => Resume(h, req, answer, shell)
    case TokenRead(i, token) => Move(h, i, if token.GetOr("") == "" then Over(ApprovalUnavailable) else Raising(h.calls[i].phase.doc))
    case CardRaised(i, card, now) =>
      if card.GetOr("") == "" then Move(h, i, Over(RaiseRefused))
      else Move(h, i, AtHead(h.calls[i].phase.doc, card.value, now + TIMEOUT_MS)).(raised := h.raised + [(i, card.value)])
    case Head(i, now) =>
      var p := h.calls[i].phase;
      Move(h, i, if now >= p.deadline then Over(NoDecision) else AtCard(p.doc, p.card, p.deadline))
    case RowRead(i, row, shell) => Decide(h, i, row, shell)
  }

  // ---- The invariant --------------------------------------------------------------------------------

  function RequestOf(p: Phase): Option<nat> {
    match p
    case Resolving(req) => Some(req)
    case Applying(req, _) => Some(req)
    case _ => None
  }

  /** Each call that waits for the renderer is in the table under its own number, and nobody else is. */
  predicate PendingOk(h: Host) {
    && (forall req | req in h.pending :: 1 <= req <= h.reqs && h.pending[req] < |h.calls| && RequestOf(h.calls[h.pending[req]].phase) == Some(req))
    && (forall i | 0 <= i < |h.calls| && RequestOf(h.calls[i].phase).Some? ::
          RequestOf(h.calls[i].phase).value in h.pending && h.pending[RequestOf(h.calls[i].phase).value] == i)
  }

  predicate ConsentedTo(h: Host, call: nat, doc: string) {
    exists k | 0 <= k < |h.consents| :: h.consents[k].call == call && h.consents[k].doc == doc
  }

  /** A lease comes from an approval "for this session", of a call of that agent. */
  predicate Traced(h: Host, key: string) {
    exists k | 0 <= k < |h.consents| ::
      && h.consents[k].call < |h.calls| && h.consents[k].optionId == "session"
      && key == LeaseKey(h.calls[h.consents[k].call].agent, h.consents[k].doc)
  }

  /** Hub-relayed, under a lease, or after an approval of this very call for this document. */
  predicate Authorised(h: Host, o: Order) {
    && o.call < |h.calls|
    && (o.held ==> Traced(h, LeaseKey(h.calls[o.call].agent, o.doc)))
    && (h.calls[o.call].via == Hub || o.held || ConsentedTo(h, o.call, o.doc))
  }

  /** An approval was read from the card this call had raised. */
  predicate OwnCard(h: Host, c: Consent) {
    c.call < |h.calls| && (c.call, c.card) in h.raised
  }

  predicate CardOk(h: Host, i: nat)
    requires i < |h.calls|
  {
    var p := h.calls[i].phase;
    && (p.AtHead? ==> (i, p.card) in h.raised)
    && (p.AtCard? ==> (i, p.card) in h.raised)
  }

  /** Whether a call has come as far as ordering its write. */
  predicate Ordered(p: Phase) {
    p.Applying? || p == Over(Written)
  }

  predicate NotYet(p: Phase) {
    !p.Applying? && p != Over(Written) && p != Over(WriteFailed)
  }

  /** A call orders at most one write, and none unless it comes to that step. */
  predicate OrdersOnce(h: Host) {
    && (forall a, b | 0 <= a < b < |h.orders| :: h.orders[a].call != h.orders[b].call)
    && (forall a | 0 <= a < |h.orders| :: h.orders[a].call < |h.calls| && !NotYet(h.calls[h.orders[a].call].phase))
    && (forall i | 0 <= i < |h.calls| && Ordered(h.calls[i].phase) :: exists a | 0 <= a < |h.orders| :: h.orders[a].call == i)
  }

  /** The parts of the invariant that speak of the logs. */
  predicate LogsOk(h: Host) {
    && (forall a | 0 <= a < |h.orders| :: Authorised(h, h.orders[a]))
    && (forall key | key in h.leases :: Traced(h, key))
    && (forall k | 0 <= k < |h.consents| :: OwnCard(h, h.consents[k]))
  }

  predicate CardsOk(h: Host) {
    forall i | 0 <= i < |h.calls| :: CardOk(h, i)
  }

  predicate Inv(h: Host) {
    PendingOk(h) && OrdersOnce(h) && LogsOk(h) && CardsOk(h)
  }

  /** Logs and calls only grow, and a call keeps its agent and its origin. */
  predicate Grows(h: Host, n: Host) {
    && |h.calls| <= |n.calls| && h.consents <= n.consents
    && (forall i | 0 <= i < |h.calls| :: n.calls[i].agent == h.calls[i].agent && n.calls[i].via == h.calls[i].via)
    && (forall r | r in h.raised :: r in n.raised)
  }

  lemma GrowingKeeps(h: Host, n: Host)
    requires Grows(h, n)
    ensures forall key: string | Traced(h, key) :: Traced(n, key)
    ensures forall o: Order | Authorised(h, o) :: Authorised(n, o)
    ensures forall c: Consent | OwnCard(h, c) :: OwnCard(n, c)
  {
    forall key: string | Traced(h, key)
      ensures Traced(n, key)
    {
      var k :| 0 <= k < |h.consents| && h.consents[k].call < |h.calls| && h.consents[k].optionId == "session"
        && key == LeaseKey(h.calls[h.consents[k].call].agent, h.consents[k].doc);
      assert n.consents[k] == h.consents[k];
    }
    hide Traced, LeaseKey;
    forall o: Order | Authorised(h, o)
      ensures Authorised(n, o)
    {
      if ConsentedTo(h, o.call, o.doc) {
        var k :| 0 <= k < |h.consents| && h.consents[k].call == o.call && h.consents[k].doc == o.doc;
        assert n.consents[k] == h.consents[k];
      }
    }
  }

  lemma LogsStay(h: Host, n: Host)
    requires LogsOk(h) && Grows(h, n) && n.orders == h.orders && n.consents == h.consents && n.leases <= h.leases
    ensures LogsOk(n)
  {
    GrowingKeeps(h, n);
    hide Authorised, Traced, OwnCard;
    forall a | 0 <= a < |n.orders|
      ensures Authorised(n, n.orders[a])
    {
      assert Authorised(h, h.orders[a]);
    }
    forall k | 0 <= k < |n.consents|
      ensures OwnCard(n, n.consents[k])
    {
      assert OwnCard(h, h.consents[k]);
    }
  }

  lemma CardsStay(h: Host, n: Host, i: nat)
    requires CardsOk(h) && Grows(h, n) && |n.calls| <= |h.calls| + 1
    requires forall j | 0 <= j < |n.calls| && j != i :: j < |h.calls| && n.calls[j].phase == h.calls[j].phase
    requires i < |n.calls| ==> CardOk(n, i)
    ensures CardsOk(n)
  {
    forall j | 0 <= j < |n.calls|
      ensures CardOk(n, j)
    {
      if j != i {
        assert n.calls[j].phase == h.calls[j].phase;
        assert CardOk(h, j);
      }
    }
  }

  /** What a call on its way keeps when it moves to a phase that waits for no renderer. */
  lemma MoveKeeps(h: Host, i: nat, p: Phase)
    requires Inv(h) && i < |h.calls| && RequestOf(h.calls[i].phase).None? && RequestOf(p).None?
    requires NotYet(h.calls[i].phase) && (NotYet(p) || p == Over(WriteFailed))
    requires (p.AtHead? || p.AtCard?) ==> (i, p.card) in h.raised
    ensures Inv(Move(h, i, p))
  {
    var n := Move(h, i, p);
    assert Grows(h, n);
    LogsStay(h, n);
    CardsStay(h, n, i);
    hide LogsOk;
    assert OrdersOnce(n);
  }

  lemma OrderedOnce(h: Host, n: Host, i: nat)
    requires OrdersOnce(h) && i < |h.calls| == |n.calls| && |n.orders| == |h.orders| + 1 && n.orders[..|h.orders|] == h.orders
    requires n.orders[|h.orders|].call == i && n.calls[i].phase.Applying? && NotYet(h.calls[i].phase)
    requires forall j | 0 <= j < |h.calls| && j != i :: n.calls[j] == h.calls[j]
    ensures OrdersOnce(n)
  {
    assert forall a | 0 <= a < |h.orders| :: n.orders[a] == h.orders[a] && h.orders[a].call != i;
    forall j | 0 <= j < |n.calls| && Ordered(n.calls[j].phase)
      ensures exists a | 0 <= a < |n.orders| :: n.orders[a].call == j
    {
      if j != i {
        var a :| 0 <= a < |h.orders| && h.orders[a].call == j;
        assert n.orders[a].call == j;
      }
    }
  }

  lemma WritePending(h: Host, n: Host, i: nat)
    requires PendingOk(h) && i < |h.calls| == |n.calls| && RequestOf(h.calls[i].phase).None?
    requires n.reqs == h.reqs + 1 && n.pending == h.pending[h.reqs + 1 := i] && RequestOf(n.calls[i].phase) == Some(h.reqs + 1)
    requires forall j | 0 <= j < |h.calls| && j != i :: n.calls[j].phase == h.calls[j].phase
    ensures PendingOk(n)
  {
    forall req | req in n.pending
      ensures 1 <= req <= n.reqs && n.pending[req] < |n.calls| && RequestOf(n.calls[n.pending[req]].phase) == Some(req)
    {
      if req in h.pending { assert h.pending[req] != i; }
    }
  }

  lemma WriteLogs(h: Host, n: Host, i: nat, o: Order)
    requires LogsOk(h) && Grows(h, n) && i < |h.calls| && o.call == i && n.consents == h.consents && n.leases == h.leases
    requires n.orders == h.orders + [o] && o.held == Held(h.leases, h.calls[i].agent, o.doc)
    requires h.calls[i].via == Hub || o.held || ConsentedTo(h, i, o.doc)
    ensures LogsOk(n)
  {
    assert Authorised(h, o);
    GrowingKeeps(h, n);
    hide Authorised, Traced, OwnCard, Grows;
    forall a | 0 <= a < |n.orders|
      ensures Authorised(n, n.orders[a])
    {
      if a < |h.orders| { assert Authorised(h, h.orders[a]); }
    }
    forall k | 0 <= k < |n.consents|
      ensures OwnCard(n, n.consents[k])
    {
      assert OwnCard(h, h.consents[k]);
    }
  }

  lemma WriteKeeps(h: Host, i: nat, doc: string, shell: bool)
    requires Inv(h) && i < |h.calls| && RequestOf(h.calls[i].phase).None? && NotYet(h.calls[i].phase)
    requires h.calls[i].via == Hub || Held(h.leases, h.calls[i].agent, doc) || ConsentedTo(h, i, doc)
    ensures Inv(Write(h, i, doc, shell))
  {
    if !shell {
      MoveKeeps(h, i, Over(WriteFailed));
    } else {
      hide Held, ConsentedTo, LogsOk, PendingOk, OrdersOnce, CardsOk;
      var n := Write(h, i, doc, shell);
      var o := Order(i, doc, Held(h.leases, h.calls[i].agent, doc));
      assert Grows(h, n);
      WritePending(h, n, i);
      WriteLogs(h, n, i, o);
      CardsStay(h, n, i);
      OrderedOnce(h, n, i);
    }
  }

  lemma AskConsentKeeps(h: Host, i: nat, doc: string, shell: bool)
    requires Inv(h) && i < |h.calls| && RequestOf(h.calls[i].phase).None? && NotYet(h.calls[i].phase)
    ensures Inv(AskConsent(h, i, doc, shell))
  {
    hide Inv, Move, Write;
    if h.calls[i].via == Hub || Held(h.leases, h.calls[i].agent, doc) {
      WriteKeeps(h, i, doc, shell);
    } else {
      MoveKeeps(h, i, if h.hub then Keychain(doc) else Over(ApprovalUnavailable));
    }
  }

  lemma AnsweredPending(h: Host, n: Host, req: nat)
    requires PendingOk(h) && req in h.pending && |n.calls| == |h.calls| && n.reqs == h.reqs && n.pending == h.pending - {req}
    requires RequestOf(n.calls[h.pending[req]].phase).None?
    requires forall j | 0 <= j < |h.calls| && j != h.pending[req] :: n.calls[j].phase == h.calls[j].phase
    ensures PendingOk(n)
  {
  }

  lemma AnsweredOrders(h: Host, n: Host, i: nat)
    requires OrdersOnce(h) && i < |h.calls| == |n.calls| && n.orders == h.orders
    requires forall j | 0 <= j < |h.calls| && j != i :: n.calls[j].phase == h.calls[j].phase
    requires (h.calls[i].phase.Resolving? && NotYet(n.calls[i].phase)) || (h.calls[i].phase.Applying? && !NotYet(n.calls[i].phase) && !n.calls[i].phase.Applying?)
    ensures OrdersOnce(n)
  {
    forall j | 0 <= j < |n.calls| && Ordered(n.calls[j].phase)
      ensures exists a | 0 <= a < |n.orders| :: n.orders[a].call == j
    {
      assert Ordered(h.calls[j].phase);
    }
  }

  /** An answered request leaves the table; its call no longer waits. */
  lemma AnswerKeeps(h: Host, req: nat, p: Phase)
    requires Inv(h) && req in h.pending && RequestOf(p).None?
    requires var q := h.calls[h.pending[req]].phase; (q.Resolving? && NotYet(p)) || (q.Applying? && (p == Over(Written) || p == Over(WriteFailed)))
    requires !p.AtHead? && !p.AtCard?
    ensures Inv(Move(h.(pending := h.pending - {req}), h.pending[req], p))
  {
    var i := h.pending[req];
    var n := Move(h.(pending := h.pending - {req}), i, p);
    assert Grows(h, n);
    LogsStay(h, n);
    CardsStay(h, n, i);
    AnsweredPending(h, n, req);
    AnsweredOrders(h, n, i);
    hide LogsOk, PendingOk, OrdersOnce, CardsOk;
  }

  lemma ResumeKeeps(h: Host, req: nat, answer: Answer, shell: bool)
    requires Inv(h) && req in h.pending
    ensures Inv(Resume(h, req, answer, shell))
  {
    var i := h.pending[req];
    assert RequestOf(h.calls[i].phase) == Some(req);
    var taken := h.(pending := h.pending - {req});
    if h.calls[i].phase.Applying? {
      AnswerKeeps(h, req, if answer.Document? then Over(Written) else Over(WriteFailed));
    } else if answer.Document? && answer.id != "" {
      // Between the answer and the next step the call waits for nothing.
      AnswerKeeps(h, req, Keychain(answer.id));
      var there := Move(taken, i, Keychain(answer.id));
      AskConsentKeeps(there, i, answer.id, shell);
      SameFromThere(taken, i, answer.id, shell);
    } else {
      AnswerKeeps(h, req, Over(Unresolved));
    }
  }

  lemma SameFromThere(h: Host, i: nat, doc: string, shell: bool)
    requires i < |h.calls|
    ensures AskConsent(Move(h, i, Keychain(doc)), i, doc, shell) == AskConsent(h, i, doc, shell)
  {
    hide Held;
    var there := Move(h, i, Keychain(doc));
    assert forall p :: there.calls[i := there.calls[i].(phase := p)] == h.calls[i := h.calls[i].(phase := p)];
  }

  lemma DecideKeeps(h: Host, i: nat, row: Option<Row>, shell: bool)
    requires Inv(h) && i < |h.calls| && h.calls[i].phase.AtCard?
    ensures Inv(Decide(h, i, row, shell))
  {
    hide ReadCardDecision;
    var p := h.calls[i].phase;
    assert CardOk(h, i);
    var reading := Polled(row);
    if reading.outcome == Approve {
      var c := Consent(i, p.doc, p.card, reading.optionId);
      var leases := if reading.optionId == "session" then Granted(h.leases, h.calls[i].agent, p.doc) else h.leases;
      var n := h.(leases := leases, consents := h.consents + [c]);
      ConsentKeeps(h, n, c);
      WriteKeeps(n, i, p.doc, shell);
    } else {
      MoveKeeps(h, i, if reading.outcome == Pending then AtHead(p.doc, p.card, p.deadline) else Over(DeniedByUser));
    }
  }

  lemma ConsentKeeps(h: Host, n: Host, c: Consent)
    requires Inv(h) && OwnCard(h, c)
    requires n == h.(leases := n.leases, consents := h.consents + [c])
    requires n.leases == if c.optionId == "session" then Granted(h.leases, h.calls[c.call].agent, c.doc) else h.leases
    ensures Inv(n) && ConsentedTo(n, c.call, c.doc)
  {
    GrowingKeeps(h, n);
    assert n.consents[|h.consents|] == c;
    assert c.optionId == "session" ==> Traced(n, LeaseKey(h.calls[c.call].agent, c.doc));
    assert OwnCard(n, c);
    hide Authorised, OwnCard, Traced, LeaseKey;
    forall a | 0 <= a < |n.orders|
      ensures Authorised(n, n.orders[a])
    {
      assert Authorised(h, h.orders[a]);
    }
    forall k | 0 <= k < |n.consents|
      ensures OwnCard(n, n.consents[k])
    {
      if k < |h.consents| { assert OwnCard(h, h.consents[k]); }
    }
    assert LogsOk(n);
    hide LogsOk;
    CardsStay(h, n, |h.calls|);
    assert OrdersOnce(n);
  }

  /** A call more leaves table and orders as they are. */
  lemma JoinKeeps(h: Host, n: Host, c: Call)
    requires PendingOk(h) && OrdersOnce(h) && n.calls == h.calls + [c] && n.orders == h.orders
    requires NotYet(c.phase)
    requires match RequestOf(c.phase)
             case None => n.pending == h.pending && n.reqs == h.reqs
             case Some(req) => req == n.reqs == h.reqs + 1 && n.pending == h.pending[req := |h.calls|]
    ensures PendingOk(n) && OrdersOnce(n)
  {
    assert n.calls[|h.calls|] == c && forall i | 0 <= i < |h.calls| :: n.calls[i] == h.calls[i];
    forall j | 0 <= j < |n.calls| && Ordered(n.calls[j].phase)
      ensures exists a | 0 <= a < |n.orders| :: n.orders[a].call == j
    {
      assert Ordered(h.calls[j].phase);
    }
  }

  lemma AskKeeps(h: Host, agent: string, via: Via, shell: bool)
    requires Inv(h)
    ensures Inv(Step(h, Ask(agent, via, shell)))
  {
    var n := Step(h, Ask(agent, via, shell));
    assert Grows(h, n);
    LogsStay(h, n);
    CardsStay(h, n, |h.calls|);
    hide LogsOk, PendingOk, OrdersOnce, CardsOk;
    JoinKeeps(h, n, n.calls[|h.calls|]);
  }

  lemma CardRaisedKeeps(h: Host, i: nat, card: Option<string>, now: int)
    requires Inv(h) && Possible(h, CardRaised(i, card, now))
    ensures Inv(Step(h, CardRaised(i, card, now)))
  {
    var phase := Step(h, CardRaised(i, card, now)).calls[i].phase;
    if card.GetOr("") == "" {
      MoveKeeps(h, i, Over(RaiseRefused));
    } else {
      var m := h.(raised := h.raised + [(i, card.value)]);
      LogsStay(h, m);
      CardsStay(h, m, |h.calls|);
      assert m.raised[|h.raised|] == (i, card.value);
      assert Inv(m) by { hide LogsOk, CardsOk; }
      hide LogsOk, CardsOk, PendingOk, OrdersOnce;
      MoveKeeps(m, i, phase);
    }
  }

  lemma StepKeeps(h: Host, e: Event)
    requires Inv(h) && Possible(h, e)
    ensures Inv(Step(h, e))
  {
    match e
    case Ask(agent, via, shell) => AskKeeps(h, agent, via, shell);
    case Replied(req, answer, shell) => ResumeKeeps(h, req, answer, shell);
    case RowRead(i, row, shell) => DecideKeeps(h, i, row, shell);
    case TokenRead(i, token) => MoveKeeps(h, i, Step(h, e).calls[i].phase);
    case Head(i, now) =>
      assert CardOk(h, i);
      MoveKeeps(h, i, Step(h, e).calls[i].phase);
    case CardRaised(i, card, now) => CardRaisedKeeps(h, i, card, now);
    case SetSharing(_) => ToggleKeeps(h, Step(h, e));
    case SetHub(_) => ToggleKeeps(h, Step(h, e));
    case Revoke(_) => ToggleKeeps(h, Step(h, e));
  }

  lemma ToggleKeeps(h: Host, n: Host)
    requires Inv(h) && n == h.(sharing := n.sharing, hub := n.hub, leases := n.leases) && n.leases <= h.leases
    ensures Inv(n)
  {
    LogsStay(h, n);
    CardsStay(h, n, |h.calls|);
    hide LogsOk;
    assert OrdersOnce(n);
  }

  // ---- Whole runs ------------------------------------------------------------------------------------

  ghost predicate Runs(h: Host, events: seq<Event>)
    decreases |events|
  {
    events == [] || (Possible(h, events[0]) && Runs(Step(h, events[0]), events[1..]))
  }

  ghost function Run(h: Host, events: seq<Event>): Host
    requires Runs(h, events)
    decreases |events|
  {
    if events == [] then h else Run(Step(h, events[0]), events[1..])
  }

  lemma {:induction false} RunKeeps(h: Host, events: seq<Event>)
    requires Inv(h) && Runs(h, events)
    ensures Inv(Run(h, events))
    decreases |events|
  {
    hide Inv, Possible, Step;
    if events != [] {
      StepKeeps(h, events[0]);
      RunKeeps(Step(h, events[0]), events[1..]);
    }
  }

  /** What lets a write through: the hub carded it, or the user approved a card that some local
      call raised for exactly this document: this call's own card, or one of the same agent with
      "for this session" while that lease stood. */
  predicate Permitted(h: Host, o: Order) {
    && o.call < |h.calls|
    && (h.calls[o.call].via == Hub ||
        exists k | 0 <= k < |h.consents| ::
          var c := h.consents[k];
          && c.doc == o.doc && OwnCard(h, c)
          && (c.call == o.call || (o.held && c.optionId == "session" && h.calls[c.call].agent == h.calls[o.call].agent)))
  }

  lemma AuthorisedIsPermitted(h: Host, o: Order)
    requires LogsOk(h) && Authorised(h, o) && forall i | 0 <= i < |h.calls| :: NUL !in h.calls[i].agent
    ensures Permitted(h, o)
  {
    hide LeaseKey;
    if h.calls[o.call].via != Hub {
      if o.held {
        var k :| 0 <= k < |h.consents| && h.consents[k].call < |h.calls| && h.consents[k].optionId == "session"
          && LeaseKey(h.calls[o.call].agent, o.doc) == LeaseKey(h.calls[h.consents[k].call].agent, h.consents[k].doc);
        KeysTellApart(h.calls[o.call].agent, o.doc, h.calls[h.consents[k].call].agent, h.consents[k].doc);
        assert OwnCard(h, h.consents[k]);
      } else {
        var k :| 0 <= k < |h.consents| && h.consents[k].call == o.call && h.consents[k].doc == o.doc;
        assert OwnCard(h, h.consents[k]);
      }
    }
  }

  /** Over every run: each write order was permitted, a call orders at most one write and only if
      it comes through its consent, and each standing lease traces to an approval for the session
      on that very agent and document. */
  lemma WritesAreAuthorised(events: seq<Event>)
    requires Runs(QUIET, events)
    requires forall i | 0 <= i < |Run(QUIET, events).calls| :: NUL !in Run(QUIET, events).calls[i].agent
    ensures var h := Run(QUIET, events);
            && (forall a | 0 <= a < |h.orders| :: Permitted(h, h.orders[a]))
            && OrdersOnce(h)
            && (forall agent, doc | NUL !in agent && Held(h.leases, agent, doc) ::
                  exists k | 0 <= k < |h.consents| :: h.consents[k].call < |h.calls| && h.consents[k].optionId == "session"
                    && h.calls[h.consents[k].call].agent == agent && h.consents[k].doc == doc)
  {
    RunKeeps(QUIET, events);
    hide Runs, Run, OrdersOnce, PendingOk, CardsOk;
    var h := Run(QUIET, events);
    forall a | 0 <= a < |h.orders|
      ensures Permitted(h, h.orders[a])
    {
      AuthorisedIsPermitted(h, h.orders[a]);
    }
    forall agent, doc | NUL !in agent && Held(h.leases, agent, doc)
      ensures exists k | 0 <= k < |h.consents| :: h.consents[k].call < |h.calls| && h.consents[k].optionId == "session"
                && h.calls[h.consents[k].call].agent == agent && h.consents[k].doc == doc
    {
      assert Traced(h, LeaseKey(agent, doc));
      var k :| 0 <= k < |h.consents| && h.consents[k].call < |h.calls| && h.consents[k].optionId == "session"
        && LeaseKey(agent, doc) == LeaseKey(h.calls[h.consents[k].call].agent, h.consents[k].doc);
      KeysTellApart(agent, doc, h.calls[h.consents[k].call].agent, h.consents[k].doc);
    }
  }

  // ---- How a call ends -------------------------------------------------------------------------------

  /** The reply to the write order of call `i`; `done` if the renderer names the written document,
      and not if it refuses or does not answer. */
  predicate RepliesToWrite(h: Host, e: Event, i: nat, done: bool) {
    i < |h.calls| && h.calls[i].phase.Applying? && e.Replied? && e.req == h.calls[i].phase.req && e.answer.Document? == done
  }

  /** The write would be ordered now, and there is no window to order it from. */
  predicate NoWindow(h: Host, e: Event, i: nat)
    requires i < |h.calls|
  {
    var c := h.calls[i];
    || (c.phase.Resolving? && e.Replied? && e.req == c.phase.req && e.answer.Document? && e.answer.id != "" && !e.shell
        && (c.via == Hub || Held(h.leases, c.agent, e.answer.id)))
    || (c.phase.AtCard? && e.RowRead? && e.i == i && Polled(e.row).outcome == Approve && !e.shell)
  }

  /** What must happen for a call under way to end with the result. */
  predicate Cause(h: Host, e: Event, i: nat, r: Result)
    requires i < |h.calls|
  {
    var c := h.calls[i];
    match r
    case SharingOff => false
    case Unresolved =>
      c.phase.Resolving? && e.Replied? && e.req == c.phase.req && !(e.answer.Document? && e.answer.id != "")
    case ApprovalUnavailable =>
      || (c.phase.Keychain? && e.TokenRead? && e.i == i && e.token.GetOr("") == "")
      || (c.phase.Resolving? && e.Replied? && e.req == c.phase.req && e.answer.Document? && e.answer.id != "" && !h.hub
          && c.via == Local && !Held(h.leases, c.agent, e.answer.id))
    case RaiseRefused => c.phase.Raising? && e.CardRaised? && e.i == i && e.card.GetOr("") == ""
    case DeniedByUser => c.phase.AtCard? && e.RowRead? && e.i == i && Polled(e.row).outcome == Deny
    case NoDecision => c.phase.AtHead? && e.Head? && e.i == i && e.now >= c.phase.deadline
    case WriteFailed => RepliesToWrite(h, e, i, false) || NoWindow(h, e, i)
    case Written => RepliesToWrite(h, e, i, true)
  }

  /** Where an answer to its request takes a call. */
  ghost function Answered(h: Host, c: Call, answer: Answer, shell: bool): Phase {
    if c.phase.Applying? then Over(if answer.Document? then Written else WriteFailed)
    else if !(answer.Document? && answer.id != "") then Over(Unresolved)
    else if c.via == Hub || Held(h.leases, c.agent, answer.id) then
      if shell then Applying(h.reqs + 1, answer.id) else Over(WriteFailed)
    else if h.hub then Keychain(answer.id)
    else Over(ApprovalUnavailable)
  }

  lemma RepliedPhase(h: Host, req: nat, answer: Answer, shell: bool, i: nat)
    requires Inv(h) && req in h.pending && i < |h.calls|
    ensures h.pending[req] < |h.calls|
    ensures var n := Step(h, Replied(req, answer, shell));
            && |n.calls| == |h.calls|
            && n.calls[i] == if RequestOf(h.calls[i].phase) == Some(req) then h.calls[i].(phase := Answered(h, h.calls[i], answer, shell)) else h.calls[i]
  {
    hide Held, OrdersOnce, LogsOk, CardsOk;
    assert RequestOf(h.calls[i].phase) == Some(req) <==> h.pending[req] == i;
    hide PendingOk;
  }

  /** Where any other event takes a call it is about. */
  ghost function Resumed(h: Host, e: Event, i: nat): Phase
    requires Possible(h, e) && i < |h.calls| && !e.Replied?
  {
    var p := h.calls[i].phase;
    match e
    case TokenRead(j, token) =>
      if j != i then p else if token.GetOr("") == "" then Over(ApprovalUnavailable) else Raising(p.doc)
    case CardRaised(j, card, now) =>
      if j != i then p else if card.GetOr("") == "" then Over(RaiseRefused) else AtHead(p.doc, card.value, now + TIMEOUT_MS)
    case Head(j, now) =>
      if j != i then p else if now >= p.deadline then Over(NoDecision) else AtCard(p.doc, p.card, p.deadline)
    case RowRead(j, row, shell) =>
      if j != i then p
      else if Polled(row).outcome == Pending then AtHead(p.doc, p.card, p.deadline)
      else if Polled(row).outcome == Deny then Over(DeniedByUser)
      else if shell then Applying(h.reqs + 1, p.doc) else Over(WriteFailed)
    case _ => p
  }

  lemma DecidedPhase(h: Host, j: nat, row: Option<Row>, shell: bool, i: nat)
    requires j < |h.calls| && h.calls[j].phase.AtCard? && i < |h.calls|
    ensures var n := Decide(h, j, row, shell);
            |n.calls| == |h.calls| && n.calls[i] == h.calls[i].(phase := Resumed(h, RowRead(j, row, shell), i))
  {
    hide Held, Polled, Granted;
  }

  lemma ResumedPhase(h: Host, e: Event, i: nat)
    requires Possible(h, e) && i < |h.calls| && !e.Replied?
    ensures |Step(h, e).calls| >= |h.calls| && Step(h, e).calls[i] == h.calls[i].(phase := Resumed(h, e, i))
  {
    if e.RowRead? { DecidedPhase(h, e.i, e.row, e.shell, i); }
    hide Decide, Polled, Revoked, Resume;
  }

  lemma ResumedEnds(h: Host, e: Event, i: nat, r: Result)
    requires Possible(h, e) && i < |h.calls| && !e.Replied?
    ensures Resumed(h, e, i) == Over(r) <==> (if h.calls[i].phase.Over? then h.calls[i].phase == Over(r) else Cause(h, e, i, r))
  {
    hide Held, Polled;
  }

  /** Call `i` has ended with the result exactly if it had before, or `e` is the cause. */
  predicate EndsRight(h: Host, e: Event, i: nat, r: Result, n: Host)
    requires i < |h.calls|
  {
    && i < |n.calls|
    && (n.calls[i].phase == Over(r) <==> if h.calls[i].phase.Over? then h.calls[i].phase == Over(r) else Cause(h, e, i, r))
  }

  lemma AllEndRight(h: Host, e: Event)
    requires Inv(h) && Possible(h, e)
    ensures forall i, r | 0 <= i < |h.calls| :: EndsRight(h, e, i, r, Step(h, e))
  {
    hide Inv, Step, Cause, Possible;
    forall i, r | 0 <= i < |h.calls|
      ensures EndsRight(h, e, i, r, Step(h, e))
    {
      EndsExactly(h, e, i, r);
    }
  }

  /** A call ends with a result exactly when its cause happens, and an ended call stays as it is. */
  lemma EndsExactly(h: Host, e: Event, i: nat, r: Result)
    requires Inv(h) && Possible(h, e) && i < |h.calls|
    ensures i < |Step(h, e).calls|
    ensures Step(h, e).calls[i].phase == Over(r) <==> (if h.calls[i].phase.Over? then h.calls[i].phase == Over(r) else Cause(h, e, i, r))
  {
    if e.Replied? {
      RepliedPhase(h, e.req, e.answer, e.shell, i);
      hide Inv, Step, Held;
    } else {
      ResumedPhase(h, e, i);
      hide Inv, Step;
      ResumedEnds(h, e, i, r);
      hide Resumed, Cause;
    }
  }

  /** Some event of the run is the reply to the write order of call `i`. */
  ghost predicate RepliedInRun(h: Host, events: seq<Event>, i: nat, done: bool)
    requires Runs(h, events)
    decreases |events|
  {
    events != [] && (RepliesToWrite(h, events[0], i, done) || RepliedInRun(Step(h, events[0]), events[1..], i, done))
  }

  lemma StepEndsAsReplied(h: Host, e: Event, i: nat)
    requires Inv(h) && Possible(h, e)
    ensures var n := Step(h, e);
            && (i < |n.calls| ==>
                 (n.calls[i].phase == Over(Written) <==> (i < |h.calls| && h.calls[i].phase == Over(Written)) || RepliesToWrite(h, e, i, true)))
            && (i < |h.calls| || RepliesToWrite(h, e, i, true) ==> i < |n.calls|)
            && (RepliesToWrite(h, e, i, false) ==> i < |n.calls| && n.calls[i].phase == Over(WriteFailed))
            && (i < |h.calls| && h.calls[i].phase.Over? ==> n.calls[i] == h.calls[i])
  {
    if i < |h.calls| {
      EndsExactly(h, e, i, Written);
      EndsExactly(h, e, i, WriteFailed);
      if h.calls[i].phase.Over? { EndedStays(h, e, i); }
    } else if i < |Step(h, e).calls| {
      NewHasNoDocument(h, e, i);
    }
    hide Inv, Possible, Step, NoWindow;
  }

  /** Wherever the run starts: it makes a call end as written exactly by a reply to its own write
      order that names a document, and any other reply to that order makes it fail. */
  lemma {:induction false} EndsAsReplied(h: Host, events: seq<Event>, i: nat)
    requires Inv(h) && Runs(h, events) && i < |Run(h, events).calls|
    ensures Run(h, events).calls[i].phase == Over(Written) <==>
            ((i < |h.calls| && h.calls[i].phase == Over(Written)) || RepliedInRun(h, events, i, true))
    ensures RepliedInRun(h, events, i, false) ==> Run(h, events).calls[i].phase == Over(WriteFailed)
    ensures i < |h.calls| && h.calls[i].phase.Over? ==> Run(h, events).calls[i] == h.calls[i]
    decreases |events|
  {
    if events != [] {
      StepKeeps(h, events[0]);
      StepEndsAsReplied(h, events[0], i);
      hide Inv, Possible, Step, RepliesToWrite;
      EndsAsReplied(Step(h, events[0]), events[1..], i);
    }
  }

  lemma EndedStays(h: Host, e: Event, i: nat)
    requires Inv(h) && Possible(h, e) && i < |h.calls| && h.calls[i].phase.Over?
    ensures i < |Step(h, e).calls| && Step(h, e).calls[i] == h.calls[i]
  {
    if e.Replied? { RepliedPhase(h, e.req, e.answer, e.shell, i); } else { ResumedPhase(h, e, i); }
    hide Inv, Step, Held, Polled;
  }

  lemma NewHasNoDocument(h: Host, e: Event, i: nat)
    requires Possible(h, e) && |h.calls| <= i < |Step(h, e).calls|
    ensures var p := Step(h, e).calls[i].phase; p != Over(Written) && DocOf(p) == None
  {
    hide Held, Polled, Granted, Revoked;
  }

  /** Over every run: a call is reported as written exactly when the renderer's reply to that call's
      own write order named a document; a refusal of it, or no answer, is reported as a failure. */
  lemma WrittenMeansConfirmed(events: seq<Event>, i: nat)
    requires Runs(QUIET, events) && i < |Run(QUIET, events).calls|
    ensures Run(QUIET, events).calls[i].phase == Over(Written) <==> RepliedInRun(QUIET, events, i, true)
    ensures RepliedInRun(QUIET, events, i, false) ==> Run(QUIET, events).calls[i].phase == Over(WriteFailed)
  {
    EndsAsReplied(QUIET, events, i);
  }

  /** A call that arrives while sharing is off is refused before the renderer is asked anything; with
      sharing on and a window it asks the renderer, under a number of its own; nothing else changes. */
  lemma ArrivesExactly(h: Host, agent: string, via: Via, shell: bool)
    requires Inv(h)
    ensures var n := Step(h, Ask(agent, via, shell));
            && |n.calls| == |h.calls| + 1 && n.calls[..|h.calls|] == h.calls
            && n.calls[|h.calls|].agent == agent && n.calls[|h.calls|].via == via
            && (n.calls[|h.calls|].phase == Over(SharingOff) <==> !h.sharing)
            && (n.calls[|h.calls|].phase == Over(Unresolved) <==> h.sharing && !shell)
            && (if h.sharing && shell then
                  n.calls[|h.calls|].phase == Resolving(n.reqs) && n.reqs !in h.pending && n.pending == h.pending[n.reqs := |h.calls|]
                else n.pending == h.pending)
            && n.orders == h.orders && n.consents == h.consents && n.raised == h.raised && n.leases == h.leases
  {
    hide OrdersOnce, LogsOk, CardsOk;
  }

  // ---- Which document is written -----------------------------------------------------------------------

  function DocOf(p: Phase): Option<string> {
    match p
    case Keychain(doc) => Some(doc)
    case Raising(doc) => Some(doc)
    case AtHead(doc, _, _) => Some(doc)
    case AtCard(doc, _, _) => Some(doc)
    case Applying(_, doc) => Some(doc)
    case _ => None
  }

  /** Call `i` is about the document `doc`, or has ordered a write to it. */
  predicate Targets(h: Host, i: nat, doc: string) {
    || (i < |h.calls| && DocOf(h.calls[i].phase) == Some(doc))
    || (exists a | 0 <= a < |h.orders| :: h.orders[a].call == i && h.orders[a].doc == doc)
  }

  /** The renderer answers the first request of call `i` with the document `doc`. */
  predicate ResolvesTo(h: Host, e: Event, i: nat, doc: string) {
    i < |h.calls| && h.calls[i].phase.Resolving? && e.Replied? && e.req == h.calls[i].phase.req && e.answer == Document(doc) && doc != ""
  }

  lemma OrdersAdded(h: Host, e: Event)
    requires Inv(h) && Possible(h, e)
    ensures var n := Step(h, e);
            n.orders == h.orders || exists o: Order :: n.orders == h.orders + [o] && o.call < |n.calls| && DocOf(n.calls[o.call].phase) == Some(o.doc)
  {
    hide Inv, Held, ReadCardDecision, Granted, Revoked;
    var n := Step(h, e);
    if n.orders != h.orders {
      var o := n.orders[|h.orders|];
      assert n.orders == h.orders + [o];
    }
  }

  lemma PhaseTargets(h: Host, e: Event, i: nat, doc: string)
    requires Inv(h) && Possible(h, e) && i < |Step(h, e).calls| && DocOf(Step(h, e).calls[i].phase) == Some(doc)
    ensures (i < |h.calls| && DocOf(h.calls[i].phase) == Some(doc)) || ResolvesTo(h, e, i, doc)
  {
    if i < |h.calls| {
      if e.Replied? { RepliedPhase(h, e.req, e.answer, e.shell, i); } else { ResumedPhase(h, e, i); }
      hide Step;
    } else {
      NewHasNoDocument(h, e, i);
      hide Step;
    }
    hide Inv, Held, Polled;
  }

  lemma StepTargets(h: Host, e: Event, i: nat, doc: string)
    requires Inv(h) && Possible(h, e) && Targets(Step(h, e), i, doc)
    ensures Targets(h, i, doc) || ResolvesTo(h, e, i, doc)
  {
    var n := Step(h, e);
    OrdersAdded(h, e);
    if i < |n.calls| && DocOf(n.calls[i].phase) == Some(doc) { PhaseTargets(h, e, i, doc); }
    hide Inv, Possible, Step, ResolvesTo;
  }

  ghost predicate ResolvedInRun(h: Host, events: seq<Event>, i: nat, doc: string)
    requires Runs(h, events)
    decreases |events|
  {
    events != [] && (ResolvesTo(h, events[0], i, doc) || ResolvedInRun(Step(h, events[0]), events[1..], i, doc))
  }

  lemma {:induction false} RunTargets(h: Host, events: seq<Event>, i: nat, doc: string)
    requires Inv(h) && Runs(h, events) && Targets(Run(h, events), i, doc)
    ensures Targets(h, i, doc) || ResolvedInRun(h, events, i, doc)
    decreases |events|
  {
    hide Inv, Possible, Step, Targets, ResolvesTo;
    if events != [] {
      var n := Step(h, events[0]);
      StepKeeps(h, events[0]);
      RunTargets(n, events[1..], i, doc);
      if Targets(n, i, doc) { StepTargets(h, events[0], i, doc); }
    }
  }

  /** Over every run: a write is ordered only to the document that the renderer named when it was
      asked what this very call is about, whatever card, lease or toggle came in between. */
  lemma WritesTheResolvedDocument(events: seq<Event>, a: nat)
    requires Runs(QUIET, events) && a < |Run(QUIET, events).orders|
    ensures var o := Run(QUIET, events).orders[a]; ResolvedInRun(QUIET, events, o.call, o.doc)
  {
    var o := Run(QUIET, events).orders[a];
    assert Inv(QUIET) && !Targets(QUIET, o.call, o.doc);
    hide Inv;
    RunTargets(QUIET, events, o.call, o.doc);
  }

  // ---- When a card is raised ----------------------------------------------------------------------------

  /** The write of call `i` to `doc` is ordered, and nothing else has changed but the leases and consents. */
  predicate OrdersWrite(h: Host, n: Host, i: nat, doc: string)
    requires i < |h.calls|
  {
    && n.calls == h.calls[i := h.calls[i].(phase := Applying(h.reqs + 1, doc))]
    && n.orders == h.orders + [Order(i, doc, Held(n.leases, h.calls[i].agent, doc))]
    && n.reqs == h.reqs + 1 && n.reqs in n.pending && n.pending[n.reqs] == i && n.raised == h.raised
  }

  /** A call whose document is known goes to the write at once if the hub relayed it or its agent
      holds the lease, with no card; any other waits for a card and orders nothing. */
  lemma NoCardNeeded(h: Host, i: nat, req: nat, doc: string)
    requires Inv(h) && i < |h.calls| && h.calls[i].phase == Resolving(req) && doc != ""
    ensures req in h.pending && h.pending[req] == i
    ensures var n := Step(h, Replied(req, Document(doc), true));
            && n.leases == h.leases && n.consents == h.consents
            && if h.calls[i].via == Hub || Held(h.leases, h.calls[i].agent, doc) then OrdersWrite(h, n, i, doc)
               else n == h.(pending := h.pending - {req},
                            calls := h.calls[i := h.calls[i].(phase := if h.hub then Keychain(doc) else Over(ApprovalUnavailable))])
  {
    assert RequestOf(h.calls[i].phase) == Some(req);
    hide Held, OrdersOnce, LogsOk, CardsOk;
    assert req in h.pending && h.pending[req] == i;
    hide PendingOk;
  }

  /** A call that waits for the bearer, is given one, gets its card and reads an approval before the
      deadline orders its write, after one card and one consent; the agent then holds the lease if it
      held it before or the approval was for the session. */
  lemma ApprovalOrders(h: Host, i: nat, doc: string, token: string, card: string, at: int, now: int, row: Option<Row>)
    requires i < |h.calls| && h.calls[i].phase == Keychain(doc) && token != "" && card != "" && now < at + TIMEOUT_MS
    requires Polled(row).outcome == Approve
    ensures var h1 := Step(h, TokenRead(i, Some(token)));
            && Possible(h1, CardRaised(i, Some(card), at))
            && var h2 := Step(h1, CardRaised(i, Some(card), at));
            && Possible(h2, Head(i, now)) && h2.raised == h.raised + [(i, card)] && h2.orders == h.orders
            && var h3 := Step(h2, Head(i, now));
            && Possible(h3, RowRead(i, row, true))
            && var n := Step(h3, RowRead(i, row, true));
            && OrdersWrite(h3, n, i, doc) && n.raised == h2.raised
            && n.consents == h.consents + [Consent(i, doc, card, Polled(row).optionId)]
            && (forall agent, d :: Held(n.leases, agent, d) <==>
                  Held(h.leases, agent, d) ||
                  (Polled(row).optionId == "session" && agent != "" && d != "" && doc != "" && h.calls[i].agent != ""
                   && LeaseKey(agent, d) == LeaseKey(h.calls[i].agent, doc)))
  {
    hide LeaseKey, ReadCardDecision;
    var h1 := Step(h, TokenRead(i, Some(token)));
    var h2 := Step(h1, CardRaised(i, Some(card), at));
    var h3 := Step(h2, Head(i, now));
    assert h3 == h.(calls := h.calls[i := h.calls[i].(phase := AtCard(doc, card, at + TIMEOUT_MS))], raised := h.raised + [(i, card)]);
  }

  // ---- Leases and the sharing toggle ---------------------------------------------------------------

  predicate NoneStanding(h: Host) {
    !h.sharing ==> h.leases == {}
  }

  /** An approval "for this session" that is read after sharing was turned off. */
  predicate LateGrant(h: Host, e: Event) {
    && e.RowRead? && e.i < |h.calls| && h.calls[e.i].phase.AtCard? && !h.sharing
    && Polled(e.row).outcome == Approve && Polled(e.row).optionId == "session"
    && h.calls[e.i].agent != "" && h.calls[e.i].phase.doc != ""
  }

  /** With sharing off no lease stands, and this survives a step exactly unless a card that was
      open when sharing went off is then approved for the session. */
  lemma LeasesEndWithSharingExactly(h: Host, e: Event)
    requires Inv(h) && Possible(h, e) && NoneStanding(h)
    ensures NoneStanding(Step(h, e)) <==> !LateGrant(h, e)
  {
    hide Held, ReadCardDecision, LeaseKey, Inv;
    if e.RowRead? && !h.sharing {
      GrantIsNotEmpty(h.calls[e.i].agent, h.calls[e.i].phase.doc);
    }
  }

  lemma GrantIsNotEmpty(agent: string, doc: string)
    ensures Granted({}, agent, doc) == {} <==> agent == "" || doc == ""
  {
    assert LeaseKey(agent, doc) in {LeaseKey(agent, doc)};
  }

  /** An approval "for this session" of a call of the agent, on the document. */
  predicate GrantsTo(h: Host, e: Event, agent: string, doc: string) {
    && e.RowRead? && e.i < |h.calls| && h.calls[e.i].phase.AtCard?
    && Polled(e.row).outcome == Approve && Polled(e.row).optionId == "session"
    && agent != "" && doc != "" && h.calls[e.i].agent == agent && h.calls[e.i].phase.doc == doc
  }

  predicate PlainAgents(h: Host) {
    forall i | 0 <= i < |h.calls| :: NUL !in h.calls[i].agent
  }

  predicate PlainAgent(e: Event) {
    (e.Ask? ==> NUL !in e.agent) && (e.Revoke? ==> NUL !in e.agent)
  }

  lemma GrantedTo(leases: set<string>, a: string, d: string, agent: string, doc: string)
    requires NUL !in a && NUL !in agent
    ensures Held(Granted(leases, a, d), agent, doc) <==> Held(leases, agent, doc) || (a == agent && d == doc && agent != "" && doc != "")
  {
    if a != "" && d != "" && LeaseKey(a, d) == LeaseKey(agent, doc) { KeysTellApart(a, d, agent, doc); }
    hide LeaseKey;
  }

  /** A lease begins with such an approval and with nothing else, and ends when sharing is turned off
      or that agent is revoked and with nothing else. */
  lemma LeasesExactly(h: Host, e: Event, agent: string, doc: string)
    requires Possible(h, e) && PlainAgents(h) && PlainAgent(e) && NUL !in agent
    ensures Held(Step(h, e).leases, agent, doc) <==>
            (Held(h.leases, agent, doc) && e != SetSharing(false) && e != Revoke(agent)) || GrantsTo(h, e, agent, doc)
    ensures PlainAgents(Step(h, e))
  {
    KeepsPlain(h, e);
    if e.RowRead? { GrantedTo(h.leases, h.calls[e.i].agent, h.calls[e.i].phase.doc, agent, doc); }
    if e.Revoke? { RevokeTakesTheAgentsOwn(h.leases, e.agent, agent, doc); }
    assert !Held({}, agent, doc);
    hide Held, Polled, Granted, Revoked, PlainAgents;
  }

  lemma KeepsPlain(h: Host, e: Event)
    requires Possible(h, e) && PlainAgents(h) && PlainAgent(e)
    ensures PlainAgents(Step(h, e))
  {
    hide Held, Polled, Granted, Revoked;
    if e.Replied? {
      hide Decide;
      assert PlainAgents(Step(h, e));
    } else if e.RowRead? {
      hide Resume;
      assert PlainAgents(Step(h, e));
    } else {
      hide Resume, Decide;
    }
  }

  /** Some event of the run grants the lease. */
  ghost predicate GrantedInRun(h: Host, events: seq<Event>, agent: string, doc: string)
    requires Runs(h, events)
    decreases |events|
  {
    events != [] && (GrantsTo(h, events[0], agent, doc) || GrantedInRun(Step(h, events[0]), events[1..], agent, doc))
  }

  /** A lease that does not stand, revoked say or taken away with the toggle, stands again only after
      a new approval for the session on that very agent and document. */
  lemma {:induction false} RevokedStaysRevoked(h: Host, events: seq<Event>, agent: string, doc: string)
    requires Runs(h, events) && PlainAgents(h) && (forall e | e in events :: PlainAgent(e)) && NUL !in agent
    requires !Held(h.leases, agent, doc)
    ensures Held(Run(h, events).leases, agent, doc) ==> GrantedInRun(h, events, agent, doc)
    decreases |events|
  {
    hide Possible, Step, Held, GrantsTo, PlainAgents, PlainAgent;
    if events != [] {
      assert events[0] in events;
      LeasesExactly(h, events[0], agent, doc);
      if !GrantsTo(h, events[0], agent, doc) { RevokedStaysRevoked(Step(h, events[0]), events[1..], agent, doc); }
    }
  }

  const YES := Row.Row(Some("resolved"), Some([Decision.Decision(Some("approve"), Some("session"))]))

  /** The user turns sharing off while a card is open, approves the card, and turns it on again. */
  function LateStory(agent: string, doc: string): seq<Event> {
    [SetSharing(true), SetHub(true), Ask(agent, Local, true), Replied(1, Document(doc), true), TokenRead(0, Some("t")),
     CardRaised(0, Some("c"), 0), Head(0, 0), SetSharing(false), RowRead(0, Some(YES), true), SetSharing(true)]
  }

  function Scene(agent: string, doc: string, sharing: bool, p: Phase): Host {
    Host(sharing, true, {}, if p.Resolving? then map[1 := 0] else map[], 1, [Call(agent, Local, p)], [], [],
         if p.AtHead? || p.AtCard? then [(0, "c")] else [])
  }

  function LateScenes(agent: string, doc: string): seq<Host> {
    [QUIET, QUIET.(sharing := true), QUIET.(sharing := true, hub := true),
     Scene(agent, doc, true, Resolving(1)), Scene(agent, doc, true, Keychain(doc)), Scene(agent, doc, true, Raising(doc)),
     Scene(agent, doc, true, AtHead(doc, "c", TIMEOUT_MS)), Scene(agent, doc, true, AtCard(doc, "c", TIMEOUT_MS)),
     Scene(agent, doc, false, AtCard(doc, "c", TIMEOUT_MS))]
  }

  lemma EarlyScenes(agent: string, doc: string, i: nat)
    requires agent != "" && doc != "" && i < 4
    ensures Possible(LateScenes(agent, doc)[i], LateStory(agent, doc)[i])
    ensures Step(LateScenes(agent, doc)[i], LateStory(agent, doc)[i]) == LateScenes(agent, doc)[i + 1]
  {
    hide LeaseKey;
    assert map[1 := 0 as nat] - {1} == map[];
  }

  lemma CardScenes(agent: string, doc: string, i: nat)
    requires agent != "" && doc != "" && 4 <= i < 8
    ensures Possible(LateScenes(agent, doc)[i], LateStory(agent, doc)[i])
    ensures Step(LateScenes(agent, doc)[i], LateStory(agent, doc)[i]) == LateScenes(agent, doc)[i + 1]
  {
    hide LeaseKey;
  }

  lemma LastScenes(agent: string, doc: string)
    requires agent != "" && doc != ""
    ensures var h := LateScenes(agent, doc)[8];
            && Runs(h, LateStory(agent, doc)[8..])
            && Held(Run(h, LateStory(agent, doc)[8..]).leases, agent, doc) && Run(h, LateStory(agent, doc)[8..]).sharing
  {
    hide LeaseKey;
    var h, e := LateScenes(agent, doc)[8], LateStory(agent, doc);
    assert e[8..] == [RowRead(0, Some(YES), true), SetSharing(true)] && e[8..][1..] == [SetSharing(true)] && e[8..][1..][1..] == [];
    assert Polled(Some(YES)) == Approval.Reading(Approve, "session");
    var n := Step(h, e[8]);
    assert n.leases == {LeaseKey(agent, doc)};
    assert Run(n, [SetSharing(true)]) == Step(n, SetSharing(true));
  }

  lemma {:induction false} Chain(states: seq<Host>, events: seq<Event>, k: nat)
    requires k <= |events| && |states| > k
    requires forall i | 0 <= i < k :: Possible(states[i], events[i]) && Step(states[i], events[i]) == states[i + 1]
    ensures Runs(states[0], events) <==> Runs(states[k], events[k..])
    ensures Runs(states[0], events) ==> Run(states[0], events) == Run(states[k], events[k..])
    decreases k
  {
    hide Possible, Step;
    if k == 0 {
      assert events[0..] == events;
    } else {
      Chain(states[1..], events[1..], k - 1);
      assert events[1..][k - 1..] == events[k..];
    }
  }

  /** So a grant can outlive the toggle: it stands the next time sharing is on. */
  lemma AGrantOutlivesSharing(agent: string, doc: string)
    requires agent != "" && doc != ""
    ensures Runs(QUIET, LateStory(agent, doc))
    ensures var h := Run(QUIET, LateStory(agent, doc)); h.sharing && Held(h.leases, agent, doc)
  {
    hide Possible, Step, Held;
    forall i | 0 <= i < 8
      ensures Possible(LateScenes(agent, doc)[i], LateStory(agent, doc)[i])
      ensures Step(LateScenes(agent, doc)[i], LateStory(agent, doc)[i]) == LateScenes(agent, doc)[i + 1]
    {
      if i < 4 { EarlyScenes(agent, doc, i); } else { CardScenes(agent, doc, i); }
    }
    LastScenes(agent, doc);
    Chain(LateScenes(agent, doc), LateStory(agent, doc), 8);
  }

  // ---- The objects --------------------------------------------------------------------------------------

  class AuthorLeaseStore {
    var held: set<string>

    constructor ()
      ensures held == {}
    {
      held := {};
    }

    method Has(agent: string, doc: string) returns (r: bool)
      ensures r == Held(held, agent, doc)
    {
      if agent == "" || doc == "" { return false; }
      r := LeaseKey(agent, doc) in held;
    }

    method Grant(agent: string, doc: string)
      modifies this
      ensures held == Granted(old(held), agent, doc)
    {
      if agent == "" || doc == "" { return; }
      held := held + {LeaseKey(agent, doc)};
    }

    /** Every held key is looked at once. */
    method RevokeAgent(agent: string)
      modifies this
      ensures held == Revoked(old(held), agent)
    {
      ghost var before := held;
      var rest := held;
      while rest != {}
        invariant rest <= held <= before
        invariant forall k | k in before && k !in rest :: k in held <==> !OfAgent(k, agent)
        decreases |rest|
      {
        var k :| k in rest;
        rest := rest - {k};
        if agent + [NUL] <= k { held := held - {k}; }
      }
    }

    method Clear()
      modifies this
      ensures held == {}
    {
      held := {};
    }
  }

  class AuthorHost {
    const authorLeases: AuthorLeaseStore
    var sharing: bool
    var hub: bool
    var pending: map<nat, nat>
    var seqNo: nat
    var calls: seq<Call>
    ghost var orders: seq<Order>
    ghost var consents: seq<Consent>
    ghost var raised: seq<(nat, string)>

    ghost function Value(): Host
      reads this, authorLeases
    {
      Host(sharing, hub, authorLeases.held, pending, seqNo, calls, orders, consents, raised)
    }

    constructor ()
      ensures Value() == QUIET && Inv(Value()) && fresh(authorLeases)
    {
      authorLeases := new AuthorLeaseStore();
      sharing, hub, pending, seqNo, calls := false, false, map[], 0, [];
      orders, consents, raised := [], [], [];
    }

    method SetPhase(i: nat, p: Phase)
      requires i < |calls|
      modifies this`calls
      ensures Value() == Move(old(Value()), i, p)
    {
      calls := calls[i := calls[i].(phase := p)];
    }

    /** Order the write. */
    method Apply(i: nat, doc: string, shell: bool)
      requires i < |calls|
      modifies this
      ensures Value() == Write(old(Value()), i, doc, shell)
    {
      hide Held;
      if !shell {
        SetPhase(i, Over(WriteFailed));
        return;
      }
      seqNo := seqNo + 1;
      pending := pending[seqNo := i];
      orders := orders + [Order(i, doc, Held(authorLeases.held, calls[i].agent, doc))];
      SetPhase(i, Applying(seqNo, doc));
    }

    /** A call arrives: refuse it while sharing is off, else ask the renderer which document. */
    method Arrive(agent: string, via: Via, shell: bool)
      requires Inv(Value())
      modifies this
      ensures Value() == Step(old(Value()), Ask(agent, via, shell)) && Inv(Value())
    {
      StepKeeps(Value(), Ask(agent, via, shell));
      hide Inv;
      if !sharing {
        calls := calls + [Call(agent, via, Over(SharingOff))];
      } else if !shell {
        calls := calls + [Call(agent, via, Over(Unresolved))];
      } else {
        seqNo := seqNo + 1;
        pending := pending[seqNo := |calls|];
        calls := calls + [Call(agent, via, Resolving(seqNo))];
      }
    }

    /** A reply or a timeout: an unknown number changes nothing, so each request is answered once. */
    method Result(req: nat, answer: Answer, shell: bool) returns (known: bool)
      requires Inv(Value())
      modifies this
      ensures known == (req in old(pending)) && Inv(Value())
      ensures Value() == if known then Step(old(Value()), Replied(req, answer, shell)) else old(Value())
      ensures known ==> forall i, r | 0 <= i < |old(calls)| :: EndsRight(old(Value()), Replied(req, answer, shell), i, r, Value())
    {
      if req !in pending { return false; }
      StepKeeps(Value(), Replied(req, answer, shell));
      AllEndRight(Value(), Replied(req, answer, shell));
      hide EndsRight;
      known := true;
      var i := pending[req];
      hide Inv, Held, Move, Write;
      pending := pending - {req};
      match calls[i].phase {
        case Resolving(_) =>
          if answer.Document? && answer.id != "" {
            Resolved(i, answer.id, shell);
          } else {
            SetPhase(i, Over(Unresolved));
          }
        case Applying(_, _) => SetPhase(i, Over(if answer.Document? then Written else WriteFailed));
        case _ =>
      }
    }

    /** Consent for a resolved document. */
    method Resolved(i: nat, doc: string, shell: bool)
      requires i < |calls|
      modifies this
      ensures Value() == AskConsent(old(Value()), i, doc, shell)
    {
      hide Held, Move, Write;
      var leased := authorLeases.Has(calls[i].agent, doc);
      if calls[i].via != Hub && !leased {
        SetPhase(i, if hub then Keychain(doc) else Over(ApprovalUnavailable));
      } else {
        Apply(i, doc, shell);
      }
    }

    method Token(i: nat, token: Option<string>)
      requires Inv(Value()) && Possible(Value(), TokenRead(i, token))
      modifies this
      ensures Value() == Step(old(Value()), TokenRead(i, token)) && Inv(Value())
    {
      StepKeeps(Value(), TokenRead(i, token));
      hide Inv;
      SetPhase(i, if token.None? || token.value == "" then Over(ApprovalUnavailable) else Raising(calls[i].phase.doc));
    }

    method Raised(i: nat, card: Option<string>, now: int)
      requires Inv(Value()) && Possible(Value(), CardRaised(i, card, now))
      modifies this
      ensures Value() == Step(old(Value()), CardRaised(i, card, now)) && Inv(Value())
    {
      StepKeeps(Value(), CardRaised(i, card, now));
      hide Inv;
      if card.None? || card.value == "" {
        SetPhase(i, Over(RaiseRefused));
      } else {
        raised := raised + [(i, card.value)];
        SetPhase(i, AtHead(calls[i].phase.doc, card.value, now + TIMEOUT_MS));
      }
    }

    /** The head of the polling loop. */
    method LoopHead(i: nat, now: int)
      requires Inv(Value()) && Possible(Value(), Head(i, now))
      modifies this
      ensures Value() == Step(old(Value()), Head(i, now)) && Inv(Value())
    {
      StepKeeps(Value(), Head(i, now));
      hide Inv;
      var p := calls[i].phase;
      SetPhase(i, if now >= p.deadline then Over(NoDecision) else AtCard(p.doc, p.card, p.deadline));
    }

    /** A row was read, or the request failed. */
    method Row(i: nat, row: Option<Row>, shell: bool)
      requires Inv(Value()) && Possible(Value(), RowRead(i, row, shell))
      modifies this, authorLeases
      ensures Value() == Step(old(Value()), RowRead(i, row, shell)) && Inv(Value())
    {
      StepKeeps(Value(), RowRead(i, row, shell));
      hide Inv, ReadCardDecision, Write, Granted;
      var p := calls[i].phase;
      var reading := Polled(row);
      if reading.outcome == Pending {
        SetPhase(i, AtHead(p.doc, p.card, p.deadline));
      } else if reading.outcome == Deny {
        SetPhase(i, Over(DeniedByUser));
      } else {
        consents := consents + [Consent(i, p.doc, p.card, reading.optionId)];
        if reading.optionId == "session" { authorLeases.Grant(calls[i].agent, p.doc); }
        Apply(i, p.doc, shell);
      }
    }

    /** The sharing toggle: off takes every lease away. */
    method Toggle(on: bool)
      requires Inv(Value())
      modifies this, authorLeases
      ensures Value() == Step(old(Value()), SetSharing(on)) && Inv(Value())
    {
      StepKeeps(Value(), SetSharing(on));
      hide Inv;
      sharing := on;
      if !sharing { authorLeases.Clear(); }
    }

    method Disconnect(agent: string)
      requires Inv(Value())
      modifies authorLeases
      ensures Value() == Step(old(Value()), Revoke(agent)) && Inv(Value())
    {
      StepKeeps(Value(), Revoke(agent));
      hide Inv, Revoked;
      authorLeases.RevokeAgent(agent);
    }
  }
}
