/** The order's cash: at most one shipment collects it, all of it or nothing; who else froze the amount is
    stopped by the trigger until the carrier is cancelled. */
module Collectible {
  import opened Wrappers
  import opened BookingSnapshot
  import opened ShipmentRows
  import opened BookingTransactions
  import opened RecordInvariant
  import opened BookingProtocol
  import opened BookingInvariant
  import opened BookingEvolution
  import opened BookingSafety

  // ---- All or nothing -----------------------------------------------------------------------------------------

  predicate Whole(amount: nat, outstanding: Option<nat>) {
    amount == 0 || Some(amount) == outstanding
  }

  /** Every attempt froze the order's whole outstanding or nothing. */
  ghost predicate FrozenWhole(s: State) {
    forall id, k :: id in s.cells && 0 <= k < |s.cells[id].record.frozen| ==>
      Whole(s.cells[id].record.frozen[k].collectible, Outstanding(s, s.cells[id].record.row.order))
  }

  /** A step of a cell freezes nothing, or what queueing claims. */
  ghost predicate Freezes(c: Cell, c': Cell, outstanding: Option<nat>) {
    && |c'.record.frozen| >= |c.record.frozen|
    && forall k :: |c.record.frozen| <= k < |c'.record.frozen| ==> Whole(c'.record.frozen[k].collectible, outstanding)
  }

  lemma QueueFreezes(id: Uuid, c: Cell, input: BookingInput, outstanding: Option<nat>, seen: Reads)
    requires CellInv(id, c)
    ensures Freezes(c, WithRecord(c, QueueTx(c.record, id, input, outstanding, seen)), outstanding)
  {
    hide IntentsInv, RowInv, WorkersInv, ResolverOk, SentInv, CancelInv, LedgerInv, CountersInv;
    RecordInvariant.QueueKeeps(id, c.record, input, outstanding, seen);
    hide QueueTx;
  }

  ghost predicate SameFrozen(r: Record, result: TxResult) {
    result.Committed? ==> result.record.frozen == r.frozen
  }

  lemma SettlementsFreezeNothing(r: Record, k: nat, awb: string, outcome: IntentOutcome, testMode: bool,
                                 from: BookingState, seen: Reads)
    requires k < |r.intents|
    ensures SameFrozen(r, ConfirmTx(r, k, awb, outcome, testMode, seen.duplicate, seen.write))
    ensures SameFrozen(r, SettleFailedTx(r, k, from, outcome, seen.write))
    ensures SameFrozen(r, MarkUnknownTx(r, k, seen.write))
  {
    hide NormalizeAwb;
  }

  lemma WorkerFreezesNothing(c: Cell, k: nat, testMode: bool, seen: Reads)
    ensures SettleWorkerStep(c, k, testMode, seen).record.frozen == c.record.frozen
  {
    hide ConfirmTx, SettleFailedTx, MarkUnknownTx;
    if k in c.workers && c.workers[k].Answered? && k < |c.record.intents| {
      var awb := if c.workers[k].answer.Created? then c.workers[k].answer.awb else "";
      SettlementsFreezeNothing(c.record, k, awb, IntentConfirmed, testMode, Submitted, seen);
      SettlementsFreezeNothing(c.record, k, awb, IntentFailed, testMode, Submitted, seen);
    }
  }

  lemma ResolverFreezesNothing(c: Cell, testMode: bool, seen: Reads)
    ensures SettleResolverStep(c, testMode, seen).record.frozen == c.record.frozen
  {
    hide ConfirmTx, SettleFailedTx, MarkUnknownTx;
    if c.resolver.Looked? && c.resolver.k < |c.record.intents| {
      SettlementsFreezeNothing(c.record, c.resolver.k, c.resolver.awb.GetOr(""), ResolvedConfirmed, testMode,
                               OutcomeUnknown, seen);
      SettlementsFreezeNothing(c.record, c.resolver.k, c.resolver.awb.GetOr(""), ResolvedFailed, testMode,
                               OutcomeUnknown, seen);
    }
  }

  lemma OthersFreezeNothing(r: Record, k: nat, workingValues: string, manual: bool, previous: CustodyState,
                            otherCarrier: bool)
    ensures SameFrozen(r, RouteTx(r, workingValues, manual, otherCarrier)) && SameFrozen(r, ClaimTx(r, k, otherCarrier))
    ensures SameFrozen(r, SettleCancelledTx(r, otherCarrier)) && SameFrozen(r, SettleRejectedTx(r, previous))
    ensures SameFrozen(r, RequestCancelTx(r)) && SameFrozen(r, SchedulePickupTx(r))
    ensures SameFrozen(r, ReversePickupTx(r)) && SameFrozen(r, PickedUpTx(r))
  {
  }

  lemma CancelFreezesNothing(c: Cell, call: nat, seen: Reads)
    ensures SettleCancelStep(c, call, seen).record.frozen == c.record.frozen
  {
    hide SettleCancelledTx, SettleRejectedTx;
    if call in c.cancels && c.cancels[call].Replied? {
      OthersFreezeNothing(c.record, 0, "", false, c.cancels[call].previous, seen.write);
    }
  }

  lemma RowStepsFreezeNothing(c: Cell, step: Step, outstanding: Option<nat>)
    requires step.Route? || step.ClaimJob? || step.RequestCancel? || step.SchedulePickup? || step.ReversePickup?
             || step.PickedUp?
    ensures CellStep(c, step, outstanding).record.frozen == c.record.frozen
  {
    hide CellStep;
    if step.Route? || step.ClaimJob? {
      DraftStepsFreezeNothing(c, step, outstanding);
    } else {
      CustodyStepsFreezeNothing(c, step, outstanding);
    }
  }

  lemma DraftStepsFreezeNothing(c: Cell, step: Step, outstanding: Option<nat>)
    requires step.Route? || step.ClaimJob?
    ensures CellStep(c, step, outstanding).record.frozen == c.record.frozen
  {
    hide RouteTx, ClaimTx, BuildRequest, SettleCancelledTx, SettleRejectedTx, RequestCancelTx, SchedulePickupTx;
    hide ReversePickupTx, PickedUpTx;
    if step.Route? {
      OthersFreezeNothing(c.record, 0, step.workingValues, step.manual, PickupPending, step.seen.write);
    } else {
      OthersFreezeNothing(c.record, step.k, "", false, PickupPending, step.seen.write);
    }
  }

  lemma CustodyStepsFreezeNothing(c: Cell, step: Step, outstanding: Option<nat>)
    requires step.RequestCancel? || step.SchedulePickup? || step.ReversePickup? || step.PickedUp?
    ensures CellStep(c, step, outstanding).record.frozen == c.record.frozen
  {
    hide RouteTx, ClaimTx, SettleCancelledTx, SettleRejectedTx, RequestCancelTx, SchedulePickupTx, ReversePickupTx;
    hide PickedUpTx;
    OthersFreezeNothing(c.record, 0, "", false, PickupPending, false);
  }

  lemma CallsFreezeNothing(c: Cell, step: Step, outstanding: Option<nat>)
    requires !step.QueueBooking? && !step.SettleWorker? && !step.SettleResolver? && !step.SettleCancel?
    requires !step.Route? && !step.ClaimJob? && !step.RequestCancel? && !step.SchedulePickup? && !step.ReversePickup?
    requires !step.PickedUp?
    ensures CellStep(c, step, outstanding).record == c.record
  {
  }

  lemma StepFreezes(id: Uuid, c: Cell, step: Step, outstanding: Option<nat>)
    requires CellInv(id, c) && Subject(step) == Some(id)
    ensures Freezes(c, CellStep(c, step, outstanding), outstanding)
  {
    hide CellInv, Freezes, QueueTx, SettleWorkerStep, SettleResolverStep, SettleCancelStep;
    if step.QueueBooking? {
      QueueFreezes(id, c, step.input, outstanding, step.seen);
    } else {
      OnlyQueueFreezes(c, step, outstanding);
      hide CellStep;
      SameFreezes(c, CellStep(c, step, outstanding), outstanding);
    }
  }

  lemma OnlyQueueFreezes(c: Cell, step: Step, outstanding: Option<nat>)
    requires !step.QueueBooking?
    ensures CellStep(c, step, outstanding).record.frozen == c.record.frozen
  {
    hide SettleWorkerStep, SettleResolverStep, SettleCancelStep;
    if step.SettleWorker? {
      WorkerFreezesNothing(c, step.k, step.testMode, step.seen);
    } else if step.SettleResolver? {
      ResolverFreezesNothing(c, step.testMode, step.seen);
    } else if step.SettleCancel? {
      CancelFreezesNothing(c, step.call, step.seen);
    } else {
      hide CellStep;
      OtherStepsFreezeNothing(c, step, outstanding);
    }
  }

  lemma SameFreezes(c: Cell, c': Cell, outstanding: Option<nat>)
    ensures c'.record.frozen == c.record.frozen ==> Freezes(c, c', outstanding)
  {
  }

  lemma OtherStepsFreezeNothing(c: Cell, step: Step, outstanding: Option<nat>)
    requires !step.QueueBooking? && !step.SettleWorker? && !step.SettleResolver? && !step.SettleCancel?
    ensures CellStep(c, step, outstanding).record.frozen == c.record.frozen
  {
    hide CellStep;
    if step.Route? || step.ClaimJob? || step.RequestCancel? || step.SchedulePickup? || step.ReversePickup?
       || step.PickedUp? {
      RowStepsFreezeNothing(c, step, outstanding);
    } else {
      CallsFreezeNothing(c, step, outstanding);
    }
  }

  lemma StepKeepsWhole(s: State, step: Step)
    requires Inv(s) && FrozenWhole(s)
    ensures FrozenWhole(Apply(s, step)) && Apply(s, step).outstanding == s.outstanding
  {
    hide Inv, NextCell, Effect, ReadsOk, Whole;
    if ReadsOk(s, step) {
      var s' := Effect(s, step);
      EffectOnCells(s, step);
      EffectKeepsOutstanding(s, step);
      forall id, k | id in s'.cells && 0 <= k < |s'.cells[id].record.frozen|
        ensures Whole(s'.cells[id].record.frozen[k].collectible, Outstanding(s', s'.cells[id].record.row.order))
      {
        if Subject(step) == Some(id) && id in s.cells {
          NextCellWhole(s, step, id);
        }
      }
    }
  }

  lemma EffectKeepsOutstanding(s: State, step: Step)
    ensures Effect(s, step).outstanding == s.outstanding
  {
    hide CellStep, NewRequest, NewlySealed, Seal, SealGuardRaises;
  }

  lemma NextCellWhole(s: State, step: Step, id: Uuid)
    requires Inv(s) && FrozenWhole(s) && id in s.cells && Subject(step) == Some(id)
    ensures var r' := NextCell(s, step, id).record;
            && r'.row.order == s.cells[id].record.row.order
            && forall k :: 0 <= k < |r'.frozen| ==> Whole(r'.frozen[k].collectible, Outstanding(s, r'.row.order))
  {
    hide CellInv, CellStep, AwbUnique, SingleCarrier;
    NextCellKeeps(s, step, id);
    StepFreezes(id, s.cells[id], step, Outstanding(s, s.cells[id].record.row.order));
  }

  lemma {:induction false} RunKeepsWhole(s: State, steps: seq<Step>)
    requires Inv(s) && FrozenWhole(s)
    ensures FrozenWhole(Run(s, steps)) && Run(s, steps).outstanding == s.outstanding
  {
    hide Inv, FrozenWhole, Apply;
    if steps != [] {
      var front := steps[..|steps| - 1];
      RunKeepsWhole(s, front);
      RunKeeps(s, front);
      StepKeepsWhole(Run(s, front), steps[|steps| - 1]);
    }
  }

  // ---- The order's collectible --------------------------------------------------------------------------------

  ghost function Pick(ids: set<Uuid>): Uuid
    requires ids != {}
  {
    var id :| id in ids; id
  }

  /** What a shipment collects on an active AWB. */
  function Collects(s: State, order: Uuid, id: Uuid): nat
    requires id in s.cells
  {
    var row := s.cells[id].record.row;
    if row.order == order && row.ActiveAwb() then row.collectible else 0
  }

  ghost function Collected(s: State, order: Uuid, ids: set<Uuid>): nat
    requires ids <= s.cells.Keys
  {
    if ids == {} then 0 else var id := Pick(ids); Collects(s, order, id) + Collected(s, order, ids - {id})
  }

  lemma {:induction false} NothingCollected(s: State, order: Uuid, ids: set<Uuid>)
    requires ids <= s.cells.Keys && forall id :: id in ids ==> Collects(s, order, id) == 0
    ensures Collected(s, order, ids) == 0
  {
    if ids != {} {
      NothingCollected(s, order, ids - {Pick(ids)});
    }
  }

  lemma {:induction false} OneCollects(s: State, order: Uuid, ids: set<Uuid>, carrier: Uuid)
    requires ids <= s.cells.Keys && carrier in ids && forall id :: id in ids && id != carrier ==>
               Collects(s, order, id) == 0
    ensures Collected(s, order, ids) == Collects(s, order, carrier)
  {
    var id := Pick(ids);
    if id == carrier {
      NothingCollected(s, order, ids - {id});
    } else {
      OneCollects(s, order, ids - {id}, carrier);
    }
  }

  lemma WholeAmount(s: State, order: Uuid, id: Uuid)
    requires Inv(s) && FrozenWhole(s) && id in s.cells
    ensures Whole(Collects(s, order, id), Outstanding(s, order))
  {
    hide IntentsInv, WorkersInv, ResolverOk, SentInv, CancelInv, LedgerInv, CountersInv, AwbUnique, SingleCarrier;
    assert CellInv(id, s.cells[id]);
    var r := s.cells[id].record;
    if |r.frozen| > 0 {
      assert Whole(r.frozen[|r.frozen| - 1].collectible, Outstanding(s, r.row.order));
    }
  }

  lemma ReachableWhole(s: State)
    requires Reachable(s)
    ensures Inv(s) && FrozenWhole(s)
  {
    hide CellInv, Run, AwbUnique, SingleCarrier;
    var outstanding, steps :| s == Run(Initial(outstanding), steps);
    InitialInv(outstanding);
    RunKeeps(Initial(outstanding), steps);
    RunKeepsWhole(Initial(outstanding), steps);
  }

  /** The collectible on an order's active AWBs is all of its outstanding or nothing, and at most one shipment
      carries it. The outstanding is fixed for the run. */
  lemma AllOrNothing(s: State, order: Uuid)
    requires Reachable(s)
    ensures SingleCarrier(s)
    ensures Whole(Collected(s, order, s.cells.Keys), Outstanding(s, order))
  {
    hide Reachable, CellInv, AwbUnique, FrozenWhole;
    ReachableWhole(s);
    if carrier :| carrier in s.cells && Collects(s, order, carrier) > 0 {
      OneCollects(s, order, s.cells.Keys, carrier);
      WholeAmount(s, order, carrier);
    } else {
      NothingCollected(s, order, s.cells.Keys);
    }
  }

  // ---- Siblings -----------------------------------------------------------------------------------------------

  /** Another shipment of the order collects, and this one froze an amount too but has not landed. */
  ghost predicate Overtaken(s: State, id: Uuid, carrier: Uuid) {
    && id in s.cells && carrier in s.cells && carrier != id
    && s.cells[carrier].record.row.Carrier() && s.cells[carrier].record.row.order == s.cells[id].record.row.order
    && s.cells[id].record.row.collectible > 0
  }

  ghost predicate TxBlocked(r: Record, result: TxResult) {
    result.Committed? ==> result.record == r
  }

  /** With the collectible frozen and another carrier active, the trigger lets no write of the booking
      state through: not a claim, not a settlement, not even the re-entry of a retry. */
  lemma TransactionsBlocked(id: Uuid, r: Record, input: BookingInput, outstanding: Option<nat>, seen: Reads, k: nat,
                            awb: string, outcome: IntentOutcome, testMode: bool, from: BookingState,
                            workingValues: string, manual: bool)
    requires RecordInv(id, r) && r.row.collectible > 0 && seen.reentry && seen.write && k < |r.intents|
    requires !r.row.ActiveAwb()
    ensures QueueTx(r, id, input, outstanding, seen).Committed? ==> false
    ensures TxBlocked(r, ClaimTx(r, k, seen.write))
    ensures TxBlocked(r, ConfirmTx(r, k, awb, outcome, testMode, seen.duplicate, seen.write))
    ensures TxBlocked(r, SettleFailedTx(r, k, from, outcome, seen.write))
    ensures TxBlocked(r, MarkUnknownTx(r, k, seen.write))
    ensures TxBlocked(r, RouteTx(r, workingValues, manual, seen.write))
  {
    hide MerchantReference, Canonical, QueuedEntries, BuildSnapshot, NormalizeAwb, IntentsInv;
  }

  lemma WorkerBlocked(id: Uuid, c: Cell, k: nat, testMode: bool, seen: Reads)
    requires RecordInv(id, c.record) && c.record.row.collectible > 0 && seen.reentry && seen.write
    requires !c.record.row.ActiveAwb()
    ensures SettleWorkerStep(c, k, testMode, seen).record == c.record
  {
    hide ConfirmTx, SettleFailedTx, MarkUnknownTx, QueueTx, ClaimTx, RouteTx, RecordInv;
    if k in c.workers && c.workers[k].Answered? && k < |c.record.intents| {
      var awb := if c.workers[k].answer.Created? then c.workers[k].answer.awb else "";
      TransactionsBlocked(id, c.record, SomeInput(), None, seen, k, awb, IntentConfirmed, testMode, Submitted, "",
                          false);
      TransactionsBlocked(id, c.record, SomeInput(), None, seen, k, awb, IntentFailed, testMode, Submitted, "", false);
    }
  }

  function SomeInput(): BookingInput {
    BookingInput("", "", None, None, None, None, None, None, None, Prepaid, None, None)
  }

  lemma ResolverBlocked(id: Uuid, c: Cell, testMode: bool, seen: Reads)
    requires RecordInv(id, c.record) && c.record.row.collectible > 0 && seen.reentry && seen.write
    requires !c.record.row.ActiveAwb()
    ensures SettleResolverStep(c, testMode, seen).record == c.record
  {
    hide ConfirmTx, SettleFailedTx, MarkUnknownTx, QueueTx, ClaimTx, RouteTx, RecordInv;
    if c.resolver.Looked? && c.resolver.k < |c.record.intents| {
      var awb := c.resolver.awb.GetOr("");
      TransactionsBlocked(id, c.record, SomeInput(), None, seen, c.resolver.k, awb, ResolvedConfirmed, testMode,
                          OutcomeUnknown, "", false);
      TransactionsBlocked(id, c.record, SomeInput(), None, seen, c.resolver.k, awb, ResolvedFailed, testMode,
                          OutcomeUnknown, "", false);
    }
  }

  lemma UnlandedRow(id: Uuid, r: Record)
    requires RecordInv(id, r) && r.row.collectible > 0 && !r.row.ActiveAwb()
    ensures r.row.state != Confirmed && r.row.custody == NotApplicable
  {
    hide IntentsInv;
  }

  /** Cancellation and pickup find nothing to do on a shipment that has not landed. */
  lemma CustodyIdle(id: Uuid, c: Cell, step: Step, outstanding: Option<nat>)
    requires RecordInv(id, c.record) && c.record.row.collectible > 0 && !c.record.row.ActiveAwb()
    requires step.RequestCancel? || step.SettleCancel? || step.SchedulePickup? || step.ReversePickup? || step.PickedUp?
    ensures CellStep(c, step, outstanding).record == c.record
  {
    hide RecordInv, UpdateGuarded, UpdatePlain;
    UnlandedRow(id, c.record);
  }

  lemma BookingBlocked(id: Uuid, c: Cell, step: Step, outstanding: Option<nat>)
    requires RecordInv(id, c.record) && c.record.row.collectible > 0 && !c.record.row.ActiveAwb()
    requires step.Route? || step.QueueBooking? || step.ClaimJob?
    requires step.seen.reentry && step.seen.write && Subject(step) == Some(id)
    ensures CellStep(c, step, outstanding).record == c.record
  {
    hide RecordInv, QueueTx, ClaimTx, RouteTx, ConfirmTx, SettleFailedTx, MarkUnknownTx, BuildRequest;
    HasAttempt(id, c.record);
    if step.Route? {
      TransactionsBlocked(id, c.record, SomeInput(), outstanding, step.seen, 0, "", IntentFailed, false, Submitted,
                          step.workingValues, step.manual);
    } else if step.QueueBooking? {
      TransactionsBlocked(id, c.record, step.input, outstanding, step.seen, 0, "", IntentFailed, false, Submitted, "",
                          false);
    } else {
      var k := if step.k < |c.record.intents| then step.k else 0;
      TransactionsBlocked(id, c.record, SomeInput(), outstanding, step.seen, k, "", IntentFailed, false, Submitted, "",
                          false);
      ClaimInRange(c.record, step.k, step.seen.write);
    }
  }

  lemma HasAttempt(id: Uuid, r: Record)
    requires RecordInv(id, r) && r.row.collectible > 0
    ensures |r.intents| > 0
  {
  }

  lemma ClaimInRange(r: Record, k: nat, otherCarrier: bool)
    ensures ClaimTx(r, k, otherCarrier).Committed? ==> k < |r.intents|
  {
  }

  lemma OvertakenReads(s: State, step: Step, id: Uuid, carrier: Uuid)
    requires Overtaken(s, id, carrier) && ReadsOk(s, step) && Subject(step) == Some(id)
    ensures Transactional(step) ==> step.seen.reentry && step.seen.write
  {
    hide Duplicate, DuplicateEver, ConfirmingAwb;
    assert OtherCarrier(s, id);
  }

  lemma OvertakenRow(s: State, id: Uuid, carrier: Uuid)
    requires Inv(s) && Overtaken(s, id, carrier)
    ensures RecordInv(id, s.cells[id].record) && s.cells[id].record.row.collectible > 0
    ensures !s.cells[id].record.row.ActiveAwb()
  {
    hide RecordInv, AwbUnique;
    assert CellInv(id, s.cells[id]);
  }

  lemma OvertakenBlocked(s: State, step: Step, id: Uuid, carrier: Uuid)
    requires Inv(s) && Overtaken(s, id, carrier) && ReadsOk(s, step) && Subject(step) == Some(id)
    ensures NextCell(s, step, id).record == s.cells[id].record
  {
    OvertakenRow(s, id, carrier);
    OvertakenReads(s, step, id, carrier);
    hide CellStep, Inv, RecordInv, ReadsOk;
    AnyStepBlocked(id, s.cells[id], step, Outstanding(s, s.cells[id].record.row.order));
  }

  lemma AnyStepBlocked(id: Uuid, c: Cell, step: Step, outstanding: Option<nat>)
    requires RecordInv(id, c.record) && c.record.row.collectible > 0 && !c.record.row.ActiveAwb()
    requires Subject(step) == Some(id) && (Transactional(step) ==> step.seen.reentry && step.seen.write)
    ensures CellStep(c, step, outstanding).record == c.record
  {
    hide CellStep, RecordInv;
    if step.Route? || step.QueueBooking? || step.ClaimJob? {
      BookingBlocked(id, c, step, outstanding);
    } else if step.RequestCancel? || step.SettleCancel? || step.SchedulePickup? || step.ReversePickup?
       || step.PickedUp? {
      CustodyIdle(id, c, step, outstanding);
    } else {
      SettlingBlocked(id, c, step, outstanding);
    }
  }

  lemma SettlingBlocked(id: Uuid, c: Cell, step: Step, outstanding: Option<nat>)
    requires RecordInv(id, c.record) && c.record.row.collectible > 0 && !c.record.row.ActiveAwb()
    requires Transactional(step) ==> step.seen.reentry && step.seen.write
    requires !step.QueueBooking? && !step.SettleCancel?
    requires !step.Route? && !step.ClaimJob? && !step.RequestCancel? && !step.SchedulePickup? && !step.ReversePickup?
    requires !step.PickedUp?
    ensures CellStep(c, step, outstanding).record == c.record
  {
    hide RecordInv, SettleWorkerStep, SettleResolverStep;
    if step.SettleWorker? {
      WorkerBlocked(id, c, step.k, step.testMode, step.seen);
    } else if step.SettleResolver? {
      ResolverBlocked(id, c, step.testMode, step.seen);
    } else {
      hide CellStep;
      CallsFreezeNothing(c, step, outstanding);
    }
  }

  lemma StepLeavesOvertaken(s: State, step: Step, id: Uuid, carrier: Uuid)
    requires Inv(s) && Overtaken(s, id, carrier)
    ensures id in Apply(s, step).cells && Apply(s, step).cells[id].record == s.cells[id].record
  {
    hide Inv, NextCell, Effect, ReadsHold, Overtaken;
    assert id in s.cells by { RevealOvertaken(s, id, carrier); }
    if ReadsOk(s, step) {
      EffectOnCells(s, step);
      if Subject(step) == Some(id) {
        OvertakenBlocked(s, step, id, carrier);
      }
    }
  }

  lemma RevealOvertaken(s: State, id: Uuid, carrier: Uuid)
    requires Overtaken(s, id, carrier)
    ensures id in s.cells
  {
  }

  /** The carrier is active at every step of the run. */
  ghost predicate CarrierThroughout(s: State, steps: seq<Step>, carrier: Uuid) {
    steps != [] ==>
      var front := steps[..|steps| - 1];
      && CarrierThroughout(s, front, carrier)
      && carrier in Run(s, front).cells && Run(s, front).cells[carrier].record.row.Carrier()
  }

  /** A sibling that froze the amount before the carrier confirmed is stuck for as long as the carrier is
      active: no step of any run changes its row or its intents. */
  lemma {:induction false} OvertakenIsStuck(s: State, steps: seq<Step>, id: Uuid, carrier: Uuid)
    requires Inv(s) && Overtaken(s, id, carrier) && CarrierThroughout(s, steps, carrier)
    ensures id in Run(s, steps).cells && Run(s, steps).cells[id].record == s.cells[id].record
  {
    hide Inv, Apply;
    if steps != [] {
      var front := steps[..|steps| - 1];
      OvertakenIsStuck(s, front, id, carrier);
      RunKeeps(s, front);
      OrderStays(s, front, carrier);
      StepLeavesOvertaken(Run(s, front), steps[|steps| - 1], id, carrier);
    }
  }

  lemma OrderStays(s: State, steps: seq<Step>, id: Uuid)
    requires Inv(s) && id in s.cells
    ensures id in Run(s, steps).cells && Run(s, steps).cells[id].record.row.order == s.cells[id].record.row.order
  {
    hide Inv, Run;
    RunKeeps(s, steps);
    assert CellEvolves(s.cells[id], Run(s, steps).cells[id]);
  }

  // ---- Queueing again -----------------------------------------------------------------------------------------

  /** What a serial transaction that stores no AWB reads about the order's other shipments. */
  function SeenSerially(s: State, id: Uuid): Reads
    requires id in s.cells
  {
    var carrier := OtherCarrier(s, id);
    Reads(carrier, carrier, carrier, false)
  }

  predicate QueueableState(state: BookingState) {
    state in {Draft, NeedsManualAssignment, Failed}
  }

  /** A shipment in a queueable state can be queued if and only if its row froze no amount or nobody else
      carries the order; only the collectible trigger can refuse it. Beside a carrier it freezes nothing. */
  lemma QueueTxExactly(id: Uuid, r: Record, input: BookingInput, outstanding: Option<nat>, carrier: bool)
    requires RecordInv(id, r)
    ensures var tx := QueueTx(r, id, input, outstanding, Reads(carrier, carrier, carrier, false));
            && (tx.Committed? <==> QueueableState(r.row.state) && (r.row.collectible == 0 || !carrier))
            && (tx.Refused? <==> !QueueableState(r.row.state))
            && (tx.Aborted? ==> tx.guard == CollectibleGuard)
            && (tx.Committed? ==>
                  && tx.record.row.state == Queued && tx.record.row.order == r.row.order
                     && tx.record.row.awb == r.row.awb
                  && tx.record.row.shop == r.row.shop && tx.record.row.account == Some(input.accountId)
                  && tx.record.row.collectible == ClaimedCollectible(input, outstanding, carrier))
  {
    hide MerchantReference, Canonical, QueuedEntries, BuildSnapshot, IntentsInv;
  }

  predicate CanQueueAgain(s: State, id: Uuid) {
    && id in s.cells && QueueableState(s.cells[id].record.row.state)
    && (s.cells[id].record.row.collectible == 0 || !OtherCarrier(s, id))
  }

  /** The same of any state with the invariant: the attempt is appended exactly then, and otherwise nothing
      changes. A cash-on-delivery sibling of an active carrier that froze nothing can be queued, for nothing. */
  lemma QueueAgainExactly(s: State, id: Uuid, input: BookingInput)
    requires Inv(s) && id in s.cells
    ensures var step := QueueBooking(id, input, SeenSerially(s, id));
            var s', r := Apply(s, step), s.cells[id].record;
            && ReadsOk(s, step) && s'.cells.Keys == s.cells.Keys
            && (CanQueueAgain(s, id) ==>
                  && |s'.cells[id].record.intents| == |r.intents| + 1 && s'.cells[id].record.row.state == Queued
                  && s'.cells[id].record.row.collectible
                     == ClaimedCollectible(input, Outstanding(s, r.row.order), OtherCarrier(s, id)))
            && (!CanQueueAgain(s, id) ==> s'.cells == s.cells && s'.versions == s.versions)
  {
    hide CellInv, OtherCarrier, QueueTx, AwbUnique, SingleCarrier, RecordInv, ReadsOk, ClaimedCollectible;
    var step := QueueBooking(id, input, SeenSerially(s, id));
    var c, outstanding := s.cells[id], Outstanding(s, s.cells[id].record.row.order);
    assert CellInv(id, c);
    CellRows(id, c);
    QueueTxExactly(id, c.record, input, outstanding, OtherCarrier(s, id));
    RecordInvariant.QueueKeeps(id, c.record, input, outstanding, step.seen);
    SerialOk(s, step, id);
    SealsNothing(s.versions);
    assert s.cells[id := c] == s.cells;
    hide Seal;
  }

  lemma SealsNothing(versions: map<VersionKey, VersionRow>)
    ensures Seal(versions, {}) == versions
  {
  }

  lemma SerialOk(s: State, step: Step, id: Uuid)
    requires id in s.cells && step.QueueBooking? && step.id == id && step.seen == SeenSerially(s, id)
    ensures ReadsOk(s, step)
  {
    hide Duplicate, DuplicateEver, OtherCarrier;
  }

  /** In columns: a shipment can be queued if and only if it is in draft, awaits manual assignment or failed, and
      has frozen nothing or no other confirmed shipment of its order collects. */
  lemma CanQueueExactly(s: State, id: Uuid)
    requires Reachable(s) && id in s.cells
    ensures CanQueueAgain(s, id) <==>
            var row := s.cells[id].record.row;
            && row.state in {Draft, NeedsManualAssignment, Failed}
            && (row.collectible == 0
                || forall other :: other in s.cells && other != id ==>
                     var sibling := s.cells[other].record.row;
                     sibling.order != row.order || sibling.state != Confirmed || sibling.collectible == 0)
  {
    hide IntentsInv, WorkersInv, ResolverOk, SentInv, CountersInv, CancelInv, LedgerInv, FrozenWhole, Reachable;
    ReachableWhole(s);
    forall other | other in s.cells
      ensures var row := s.cells[other].record.row; row.awb.Some? <==> row.state == Confirmed || row.state == Void
    {
      assert CellInv(other, s.cells[other]);
    }
  }

  // ---- Claiming -----------------------------------------------------------------------------------------------

  const NOBODY := Reads(false, false, false, false)

  predicate CanQueue(s: State, id: Uuid) {
    id in s.cells && QueueableState(s.cells[id].record.row.state)
  }

  lemma QueueTxClaims(id: Uuid, r: Record, input: BookingInput, outstanding: nat)
    requires r.row.state in {Draft, NeedsManualAssignment, Failed} && input.paymentMode == Cod
    ensures var result := QueueTx(r, id, input, Some(outstanding), NOBODY);
            && result.Committed? && result.record.row.state == Queued && result.record.row.collectible == outstanding
            && result.record.row.order == r.row.order && result.record.row.awb == r.row.awb
  {
    hide MerchantReference, Canonical, QueuedEntries, BuildSnapshot;
  }

  /** A queueing that commits replaces the subject's row and nothing of the other shipments. */
  lemma QueueApplies(s: State, id: Uuid, input: BookingInput, seen: Reads)
    requires id in s.cells && ReadsOk(s, QueueBooking(id, input, seen))
    requires QueueTx(s.cells[id].record, id, input, Outstanding(s, s.cells[id].record.row.order), seen).Committed?
    ensures var c, s' := s.cells[id], Apply(s, QueueBooking(id, input, seen));
            var result := QueueTx(c.record, id, input, Outstanding(s, c.record.row.order), seen);
            && s'.cells == s.cells[id := c.(record := result.record)] && s'.outstanding == s.outstanding
            && s'.courier == s.courier && s'.requested == s.requested
  {
    hide QueueTx, Seal, NewlySealed, ReadsOk;
  }

  lemma NobodyIsOk(s: State, id: Uuid, input: BookingInput)
    requires id in s.cells && !OtherCarrier(s, id)
    ensures ReadsOk(s, QueueBooking(id, input, NOBODY))
  {
    hide Duplicate, DuplicateEver, OtherCarrier;
  }

  /** Where the order has no other carrier, queueing a COD shipment freezes the whole outstanding. */
  lemma QueueClaims(s: State, id: Uuid, input: BookingInput)
    requires CanQueue(s, id) && !OtherCarrier(s, id) && input.paymentMode == Cod
    requires s.cells[id].record.row.order in s.outstanding
    ensures var s' := Apply(s, QueueBooking(id, input, NOBODY));
            && s'.outstanding == s.outstanding && s'.cells == s.cells[id := s'.cells[id]]
            && var row := s'.cells[id].record.row;
               && row.state == Queued && row.collectible == s.outstanding[s.cells[id].record.row.order]
               && row.order == s.cells[id].record.row.order && row.awb == s.cells[id].record.row.awb
  {
    hide QueueTx, OtherCarrier, Apply, ReadsOk;
    QueueTxClaims(id, s.cells[id].record, input, s.outstanding[s.cells[id].record.row.order]);
    NobodyIsOk(s, id, input);
    QueueApplies(s, id, input, NOBODY);
  }

  /** Two siblings may both freeze the full amount before either is confirmed. */
  lemma BothSiblingsFreeze(s: State, a: Uuid, b: Uuid, input: BookingInput)
    requires CanQueue(s, a) && CanQueue(s, b) && a != b && s.cells[a].record.row.order == s.cells[b].record.row.order
    requires !OtherCarrier(s, a) && !OtherCarrier(s, b) && s.cells[a].record.row.awb.None?
    requires input.paymentMode == Cod && s.cells[a].record.row.order in s.outstanding
    ensures var s' := Apply(Apply(s, QueueBooking(a, input, NOBODY)), QueueBooking(b, input, NOBODY));
            var outstanding := s.outstanding[s.cells[a].record.row.order];
            && s'.cells[a].record.row.state == Queued && s'.cells[a].record.row.collectible == outstanding
            && s'.cells[b].record.row.state == Queued && s'.cells[b].record.row.collectible == outstanding
  {
    QueueClaims(s, a, input);
    var queued := Apply(s, QueueBooking(a, input, NOBODY));
    hide Apply;
    assert !OtherCarrier(queued, b);
    QueueClaims(queued, b, input);
  }

  lemma CancelVoids(s: State, carrier: Uuid, call: nat, seen: Reads)
    requires carrier in s.cells && ReadsOk(s, SettleCancel(carrier, call, seen))
    requires var c := s.cells[carrier];
             call in c.cancels && c.cancels[call].Replied? && c.cancels[call].verdict == CancelAccepted
             && c.record.row.custody == CancelRequested && c.record.row.state == Confirmed
    ensures var s' := Apply(s, SettleCancel(carrier, call, seen));
            && s'.cells == s.cells[carrier := s'.cells[carrier]] && s'.outstanding == s.outstanding
            && s'.cells[carrier].record.row.state == Void && s'.cells[carrier].record.row.collectible == 0
            && s'.cells[carrier].record.row.order == s.cells[carrier].record.row.order
  {
    hide ReadsOk, Seal, NewlySealed;
  }

  /** Cancelling the carrier makes the whole amount claimable again: any sibling that can be queued freezes
      it, one that failed with the amount frozen included. */
  lemma CancellationFrees(s: State, carrier: Uuid, call: nat, seen: Reads, id: Uuid, input: BookingInput)
    requires Inv(s) && carrier in s.cells && s.cells[carrier].record.row.Carrier()
    requires ReadsOk(s, SettleCancel(carrier, call, seen))
    requires var c := s.cells[carrier];
             call in c.cancels && c.cancels[call].Replied? && c.cancels[call].verdict == CancelAccepted
             && c.record.row.custody == CancelRequested && c.record.row.state == Confirmed
    requires CanQueue(s, id) && id != carrier && s.cells[id].record.row.order == s.cells[carrier].record.row.order
    requires input.paymentMode == Cod && s.cells[id].record.row.order in s.outstanding
    ensures var s' := Apply(s, SettleCancel(carrier, call, seen));
            && id in s'.cells && !OtherCarrier(s', id)
            && var queued := Apply(s', QueueBooking(id, input, NOBODY));
               id in queued.cells && queued.cells[id].record.row.state == Queued
               && queued.cells[id].record.row.collectible == s.outstanding[s.cells[id].record.row.order]
  {
    hide CellInv, AwbUnique;
    CancelVoids(s, carrier, call, seen);
    var s' := Apply(s, SettleCancel(carrier, call, seen));
    hide Apply, ReadsOk;
    assert !OtherCarrier(s', id);
    QueueClaims(s', id, input);
  }
}
