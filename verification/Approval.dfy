/** Approval cards: reading the hub's row, and parking on a card until it is decided. */
module Approval {
  import opened Options

  const POLL_MS := 1500
  const TIMEOUT_MS := 120000

  /** One entry of a row's decision list; `None` where the JSON has something else. */
  datatype Decision = Malformed | Decision(decision: Option<string>, optionId: Option<string>)

  /** The row as the hub answers it; `decisions` is `None` when it is no list. */
  datatype Row = NotARow | Row(status: Option<string>, decisions: Option<seq<Decision>>)

  datatype Outcome = Approve | Deny | Pending

  datatype Reading = Reading(outcome: Outcome, optionId: string)

  function ReadCardDecision(row: Row): Reading {
    if row.NotARow? || row.status.GetOr("open") == "open" then Reading(Pending, "")
    else
      var list := row.decisions.GetOr([]);
      if list == [] then Reading(Deny, "")
      else
        match list[|list| - 1]
        case Malformed => Reading(Deny, "")
        case Decision(decision, optionId) =>
          if decision != Some("approve") then Reading(Deny, "") else Reading(Approve, optionId.GetOr(""))
  }

  predicate Closed(row: Row) {
    row.Row? && row.status.Some? && row.status.value != "open"
  }

  /** A card approves exactly when it is closed and its last decision says so, and an option is
      reported with an approval only. */
  lemma ApprovalsAreExplicit(row: Row)
    ensures ReadCardDecision(row).outcome == Pending <==> !Closed(row)
    ensures ReadCardDecision(row).outcome == Approve <==>
            Closed(row) && row.decisions.Some? && row.decisions.value != []
            && var last := row.decisions.value[|row.decisions.value| - 1]; last.Decision? && last.decision == Some("approve")
    ensures ReadCardDecision(row).optionId != "" ==> ReadCardDecision(row).outcome == Approve
  {
  }

  /** One poll: a failed request decides nothing. */
  function Polled(answer: Option<Row>): Reading {
    match answer
    case Some(row) => ReadCardDecision(row)
    case None => Reading(Pending, "")
  }

  /** Round `k` would be the last one: the deadline has come, or a decision has. */
  predicate Ends(clock: nat -> int, answers: nat -> Option<Row>, deadline: int, k: nat) {
    clock(k) >= deadline || Polled(answers(k)).outcome != Pending
  }

  /** The wait ends some time; on a clock forever set back, with no decision, it would not. */
  ghost predicate WaitEnds(clock: nat -> int, answers: nat -> Option<Row>, deadline: int) {
    exists k: nat :: Ends(clock, answers, deadline, k)
  }

  /** A clock that each poll moves on by the poll interval at least. */
  ghost predicate Ticking(clock: nat -> int) {
    forall k: nat :: clock(k + 1) >= clock(k) + POLL_MS
  }

  lemma {:induction false} TickingAdvances(clock: nat -> int, k: nat)
    requires Ticking(clock)
    ensures clock(k) >= clock(0) + POLL_MS * k
  {
    if k > 0 {
      TickingAdvances(clock, k - 1);
      assert clock(k - 1 + 1) >= clock(k - 1) + POLL_MS;
    }
  }

  /** On such a clock every wait ends. */
  lemma TickingEnds(clock: nat -> int, answers: nat -> Option<Row>, deadline: int)
    requires Ticking(clock)
    ensures WaitEnds(clock, answers, deadline)
  {
    var k := if deadline <= clock(0) then 0 else deadline - clock(0);
    TickingAdvances(clock, k);
    assert Ends(clock, answers, deadline, k);
  }

  /** Park on a card. `clock(k)` is the time at the head of round `k`, `answers(k)` what that
      round's request brings; the clock may be set back, as long as a decision or the deadline
      comes at all. The first decision read counts, no round begins at or after the deadline,
      and on a clock that is not set back the number of rounds is bounded. */
  method AwaitCard(clock: nat -> int, answers: nat -> Option<Row>, deadline: int) returns (reading: Reading, rounds: nat)
    requires WaitEnds(clock, answers, deadline)
    ensures forall k | 0 <= k < rounds :: clock(k) < deadline
    ensures reading.outcome == Pending ==>
              clock(rounds) >= deadline && reading.optionId == "" && forall k | 0 <= k < rounds :: Polled(answers(k)).outcome == Pending
    ensures reading.outcome != Pending ==>
              rounds > 0 && reading == Polled(answers(rounds - 1)) && forall k | 0 <= k < rounds - 1 :: Polled(answers(k)).outcome == Pending
    ensures Ticking(clock) && rounds > 0 ==> POLL_MS * (rounds - 1) < deadline - clock(0)
  {
    ghost var last: nat :| Ends(clock, answers, deadline, last);
    rounds := 0;
    while true
      invariant rounds <= last
      invariant forall k | 0 <= k < rounds :: clock(k) < deadline && Polled(answers(k)).outcome == Pending
      decreases last - rounds
    {
      if clock(rounds) >= deadline {
        if Ticking(clock) && rounds > 0 { TickingAdvances(clock, rounds - 1); }
        return Reading(Pending, ""), rounds;
      }
      var decision := Reading(Pending, "");
      if answers(rounds).Some? { decision := ReadCardDecision(answers(rounds).value); }
      rounds := rounds + 1;
      if decision.outcome != Pending {
        if Ticking(clock) { TickingAdvances(clock, rounds - 1); }
        return decision, rounds;
      }
      assert !Ends(clock, answers, deadline, rounds - 1);
    }
  }

  datatype Verdict = Approved(optionId: string) | Denied | TimedOut | RaiseFailed

  /** The whole leg: `raised` is the id the hub gave the card, if it took it. */
  method ApproveViaCardWithOption(raised: Option<string>, clock: nat -> int, answers: nat -> Option<Row>) returns (verdict: Verdict, rounds: nat)
    requires raised.Some? ==> WaitEnds(clock, answers, clock(0) + TIMEOUT_MS)
    ensures raised.None? ==> verdict == RaiseFailed && rounds == 0
    ensures verdict.Approved? ==> rounds > 0 && clock(rounds - 1) < clock(0) + TIMEOUT_MS && Polled(answers(rounds - 1)) == Reading(Approve, verdict.optionId)
    ensures verdict.Approved? || verdict == Denied ==> forall k | 0 <= k < rounds - 1 :: Polled(answers(k)).outcome == Pending
    ensures verdict == TimedOut ==>
              clock(rounds) >= clock(0) + TIMEOUT_MS && forall k | 0 <= k < rounds :: Polled(answers(k)).outcome == Pending
    ensures verdict == Denied ==> rounds > 0 && Polled(answers(rounds - 1)).outcome == Deny
    ensures raised.Some? ==> verdict != RaiseFailed
    ensures Ticking(clock) ==> rounds <= 80
  {
    if raised.None? { return RaiseFailed, 0; }
    var reading: Reading;
    reading, rounds := AwaitCard(clock, answers, clock(0) + TIMEOUT_MS);
    verdict := if reading.outcome == Approve then Approved(reading.optionId) else if reading.outcome == Pending then TimedOut else Denied;
  }
}
