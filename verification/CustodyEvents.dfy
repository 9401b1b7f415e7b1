/** Pickups and cancellations of a shipment that a run has reached, in terms of its columns: which events take
    effect, what they leave, and which of a pickup and a cancellation wins. */
module CustodyEvents {
  import opened Wrappers
  import opened BookingSnapshot
  import opened ShipmentRows
  import opened BookingTransactions
  import opened RecordInvariant
  import opened BookingProtocol
  import opened BookingInvariant
  import opened BookingTheorems
  import opened SingleSteps

  function InCustodyState(c: Cell, custody: CustodyState): Cell {
    c.(record := c.record.(row := c.record.row.(custody := custody)))
  }

  // ---- Pickup -----------------------------------------------------------------------------------------------------

  /** A pickup event takes the shipment into custody if and only if its pickup was pending or scheduled, or its
      cancellation was requested; it changes nothing otherwise, and nothing but custody then. */
  lemma PickedUpExactly(s: State, id: Uuid)
    requires Reachable(s) && id in s.cells
    ensures var c := s.cells[id];
            && (c.record.row.custody in {PickupPending, PickupScheduled, CancelRequested} ==>
                  Apply(s, PickedUp(id)) == WithCell(s, id, InCustodyState(c, InCustody).(pickedUp := true)))
            && (c.record.row.custody in {NotApplicable, Cancelled, InCustody, CancelRejected} ==>
                  Apply(s, PickedUp(id)) == s)
    ensures var c := s.cells[id];
            id in Apply(s, PickedUp(id)).cells
            && var c' := Apply(s, PickedUp(id)).cells[id];
               c'.pickedUp && c'.record.row.custody == InCustody
               <==> c.record.row.custody in {PickupPending, PickupScheduled, CancelRequested, InCustody}
  {
    hide Reachable, Apply, CellStep, IntentsInv, RowInv, WorkersInv, ResolverOk, SentInv, CountersInv, CancelInv;
    hide LedgerInv;
    ReachableCell(s, id);
    StepsOnCustody(s.cells[id], PickedUp(id));
    AppliesTo(s, PickedUp(id), id);
  }

  /** The courier's pickup booking: PICKUP_PENDING and PICKUP_SCHEDULED, there and back, and nothing else. */
  lemma PickupBookedExactly(s: State, id: Uuid)
    requires id in s.cells
    ensures var c := s.cells[id];
            && Apply(s, SchedulePickup(id)) == (if c.record.row.custody == PickupPending
                                                then WithCell(s, id, InCustodyState(c, PickupScheduled)) else s)
            && Apply(s, ReversePickup(id)) == (if c.record.row.custody == PickupScheduled
                                               then WithCell(s, id, InCustodyState(c, PickupPending)) else s)
  {
    hide Apply, CellStep;
    StepsOnCustody(s.cells[id], SchedulePickup(id));
    StepsOnCustody(s.cells[id], ReversePickup(id));
    AppliesTo(s, SchedulePickup(id), id);
    AppliesTo(s, ReversePickup(id), id);
  }

  /** A pickup event wins over every cancellation still in flight: whatever the courier answers to it afterwards
      and whatever else happens, the shipment stays confirmed and in custody, and no cancellation of it voids
      it, answers `cancelled`, or reverses or credits anything. */
  lemma PickupBeatsCancellation(s: State, steps: seq<Step>, id: Uuid)
    requires Reachable(s) && id in s.cells
    requires s.cells[id].record.row.custody in {PickupPending, PickupScheduled, CancelRequested}
    ensures id in Run(Apply(s, PickedUp(id)), steps).cells
    ensures var c' := Run(Apply(s, PickedUp(id)), steps).cells[id];
            && c'.record.row == s.cells[id].record.row.(custody := InCustody) && c'.record.row.state == Confirmed
            && c'.reversals == 0 && c'.overageReversals == 0 && Reversal !in c'.ledger
            && forall call :: call in c'.cancels ==> !c'.cancels[call].AfterVoid? && !c'.cancels[call].AfterReversal?
                                                     && c'.cancels[call] != Done(true)
  {
    hide Reachable, Apply, Run, CellInv;
    PickedUpExactly(s, id);
    var s' := Apply(s, PickedUp(id));
    ReachableNext(s, PickedUp(id));
    PickupIsFinal(s', steps, id);
    ReachableRun(s', steps);
    ReachableCell(Run(s', steps), id);
    var c' := Run(s', steps).cells[id];
    forall call | call in c'.cancels
      ensures !c'.cancels[call].AfterVoid? && !c'.cancels[call].AfterReversal?
    {
      ActiveCall(id, c', call);
    }
  }

  lemma ActiveCall(id: Uuid, c: Cell, call: nat)
    requires CellInv(id, c) && call in c.cancels
    ensures c.cancels[call].AfterVoid? || c.cancels[call].AfterReversal? ==> c.record.row.state == Void
    ensures c.cancels[call].InFlight() ==> c.record.row.state == Confirmed
                                           && c.record.row.custody in {CancelRequested, InCustody}
  {
    hide IntentsInv, RowInv, WorkersInv, ResolverOk, SentInv, CountersInv, LedgerInv;
    assert CancelOk(c.record.row, c.reversals, c.overageReversals, c.cancels[call]);
  }

  // ---- Cancellation -----------------------------------------------------------------------------------------------

  /** A cancellation is accepted for the courier's consideration if and only if the pickup is pending or
      scheduled; the call remembers which, and nothing but custody changes. */
  lemma RequestedExactly(s: State, id: Uuid, call: nat)
    requires Reachable(s) && id in s.cells && call !in s.cells[id].cancels
    ensures var c := s.cells[id];
            Apply(s, RequestCancel(id, call))
            == if c.record.row.custody in {PickupPending, PickupScheduled}
               then WithCell(s, id, InCustodyState(c, CancelRequested)
                                    .(cancels := c.cancels[call := Requested(c.record.row.custody,
                                                                             c.record.row.isTest)]))
               else s
  {
    hide Reachable, Apply, CellStep, IntentsInv, WorkersInv, ResolverOk, SentInv, CountersInv, CancelInv, LedgerInv;
    ReachableCell(s, id);
    StepsOnCustody(s.cells[id], RequestCancel(id, call));
    AppliesTo(s, RequestCancel(id, call), id);
  }

  /** What the courier's answer to a cancellation comes to, when it arrives. `cancelled` is answered, and the
      shipment voided with its collectible freed, exactly when the courier accepted and no pickup came first. A
      refusal puts custody back where it was, unless a pickup came first; an ambiguous answer changes nothing. */
  lemma AnsweredExactly(s: State, id: Uuid, call: nat, verdict: CancelReply, seen: Reads)
    requires Reachable(s) && id in s.cells && call in s.cells[id].cancels && s.cells[id].cancels[call].Requested?
    requires ReadsOk(Apply(s, CancelAnswered(id, call, verdict)), SettleCancel(id, call, seen))
    ensures var c := s.cells[id];
            var row, pc := c.record.row, c.cancels[call];
            && row.custody in {CancelRequested, InCustody}
            && Apply(Apply(s, CancelAnswered(id, call, verdict)), SettleCancel(id, call, seen))
               == WithCell(s, id,
                    if row.custody == CancelRequested && verdict == CancelAccepted
                    then c.(record := c.record.(row := row.(custody := Cancelled, state := Void, collectible := 0)),
                            cancels := c.cancels[call := AfterVoid(row.isTest)])
                    else if row.custody == CancelRequested && verdict == CancelRefused
                    then InCustodyState(c, pc.previous).(cancels := c.cancels[call := Done(false)])
                    else c.(cancels := c.cancels[call := Done(false)]))
  {
    hide Reachable, Apply, CellStep, ReadsOk, CellInv, CancelAnswerStep, SettleCancelStep;
    ReachableCell(s, id);
    AnswerReadsNothing(s, id, call, verdict);
    var answer, settle := CancelAnswered(id, call, verdict), SettleCancel(id, call, seen);
    StepsOnCustody(s.cells[id], answer);
    AppliesTo(s, answer, id);
    StepsOnCustody(CancelAnswerStep(s.cells[id], call, verdict), settle);
    AppliesTo(Apply(s, answer), settle, id);
    AnsweredCell(id, s.cells[id], call, verdict, seen);
  }

  lemma AnsweredCell(id: Uuid, c: Cell, call: nat, verdict: CancelReply, seen: Reads)
    requires CellInv(id, c) && call in c.cancels && c.cancels[call].Requested?
    ensures c.record.row.custody in {CancelRequested, InCustody}
    ensures var row, pc := c.record.row, c.cancels[call];
            SettleCancelStep(CancelAnswerStep(c, call, verdict), call, seen)
            == if row.custody == CancelRequested && verdict == CancelAccepted
               then c.(record := c.record.(row := row.(custody := Cancelled, state := Void, collectible := 0)),
                       cancels := c.cancels[call := AfterVoid(row.isTest)])
               else if row.custody == CancelRequested && verdict == CancelRefused
               then InCustodyState(c, pc.previous).(cancels := c.cancels[call := Done(false)])
               else c.(cancels := c.cancels[call := Done(false)])
  {
    hide SettleCancelledTx, SettleRejectedTx, CellInv;
    RequestedCall(id, c, call);
    var pc := c.cancels[call];
    var replied := CancelAnswerStep(c, call, verdict);
    assert replied == c.(cancels := c.cancels[call := Replied(verdict, pc.previous, pc.test)]);
    VoidsRow(c.record, seen.write);
    PutsBack(c.record, pc.previous);
  }

  lemma RequestedCall(id: Uuid, c: Cell, call: nat)
    requires CellInv(id, c) && call in c.cancels && c.cancels[call].Requested?
    ensures c.record.row.custody in {CancelRequested, InCustody} && c.cancels[call].test == c.record.row.isTest
    ensures c.cancels[call].previous in {PickupPending, PickupScheduled}
  {
    hide IntentsInv, RowInv, WorkersInv, ResolverOk, SentInv, CountersInv, LedgerInv;
    assert CancelOk(c.record.row, c.reversals, c.overageReversals, c.cancels[call]);
  }

  lemma VoidsRow(r: Record, otherCarrier: bool)
    ensures SettleCancelledTx(r, otherCarrier)
            == if r.row.custody == CancelRequested
               then Committed(r.(row := r.row.(custody := Cancelled, state := Void, collectible := 0))) else Refused
  {
  }

  lemma PutsBack(r: Record, previous: CustodyState)
    requires r.row.custody in {CancelRequested, InCustody}
    ensures SettleRejectedTx(r, previous)
            == if r.row.custody == CancelRequested then Committed(r.(row := r.row.(custody := previous))) else Refused
  {
  }

  lemma AnswerReadsNothing(s: State, id: Uuid, call: nat, verdict: CancelReply)
    ensures ReadsOk(s, CancelAnswered(id, call, verdict))
  {
  }

  /** After a shipment was voided: unless it is a test shipment or no subscription is found, the REVERSAL is
      written and then the overage reversed, each once; the call answers `cancelled` either way. */
  lemma ReversedExactly(s: State, id: Uuid, call: nat, subscribed: bool)
    requires Reachable(s) && id in s.cells && call in s.cells[id].cancels && s.cells[id].cancels[call].AfterVoid?
    ensures var c := s.cells[id];
            Apply(Apply(s, ReverseLedger(id, call, subscribed)), ReverseOverage(id, call))
            == WithCell(s, id,
                 if subscribed && !c.record.row.isTest
                 then c.(ledger := c.ledger + [Reversal], reversals := 1, overageReversals := 1,
                         cancels := c.cancels[call := Done(true)])
                 else c.(cancels := c.cancels[call := Done(true)]))
  {
    hide Reachable, Apply, CellStep, CellInv, LedgerReversalStep, OverageReversalStep;
    ReachableCell(s, id);
    StepsOnCustody(s.cells[id], ReverseLedger(id, call, subscribed));
    AppliesTo(s, ReverseLedger(id, call, subscribed), id);
    StepsOnCustody(LedgerReversalStep(s.cells[id], call, subscribed), ReverseOverage(id, call));
    AppliesTo(Apply(s, ReverseLedger(id, call, subscribed)), ReverseOverage(id, call), id);
    ReversedCell(id, s.cells[id], call, subscribed);
  }

  lemma ReversedCell(id: Uuid, c: Cell, call: nat, subscribed: bool)
    requires CellInv(id, c) && call in c.cancels && c.cancels[call].AfterVoid?
    ensures OverageReversalStep(LedgerReversalStep(c, call, subscribed), call)
            == if subscribed && !c.record.row.isTest
               then c.(ledger := c.ledger + [Reversal], reversals := 1, overageReversals := 1,
                       cancels := c.cancels[call := Done(true)])
               else c.(cancels := c.cancels[call := Done(true)])
  {
    hide IntentsInv, RowInv, WorkersInv, ResolverOk, SentInv, CountersInv;
    assert CancelOk(c.record.row, c.reversals, c.overageReversals, c.cancels[call]);
  }
}
