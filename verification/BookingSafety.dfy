/** Safety of every run of the booking protocol: the invariant over all shipments, and what follows from
    it whatever the courier answers. */
module BookingSafety {
  import opened Wrappers
  import opened BookingSnapshot
  import opened ShipmentRows
  import opened BookingTransactions
  import opened RecordInvariant
  import opened BookingProtocol
  import opened BookingInvariant
  import opened BookingEvolution

  /** No two non-VOID shipments share shop, courier account and normalised AWB. */
  ghost predicate AwbUnique(s: State) {
    forall a, b :: a in s.cells && b in s.cells && a != b && s.cells[a].record.row.ActiveAwb()
                    && s.cells[b].record.row.ActiveAwb() ==>
      !SameAwb(s.cells[a].record.row, s.cells[b].record.row, s.cells[a].record.row.awb.value)
  }

  /** At most one shipment of an order has a positive collectible on an active AWB. */
  ghost predicate SingleCarrier(s: State) {
    forall a, b :: a in s.cells && b in s.cells && a != b && s.cells[a].record.row.Carrier()
                    && s.cells[b].record.row.Carrier() ==>
      s.cells[a].record.row.order != s.cells[b].record.row.order
  }

  ghost predicate CellsInv(s: State) {
    forall id :: id in s.cells ==> CellInv(id, s.cells[id])
  }

  ghost predicate Inv(s: State) {
    CellsInv(s) && AwbUnique(s) && SingleCarrier(s)
  }

  // ---- Landing ----------------------------------------------------------------------------------------------------

  /** A settling transaction that lands the shipment. */
  ghost predicate LandsBy(c: Cell, c': Cell, step: Step) {
    && (step.SettleWorker? || step.SettleResolver?)
    && ConfirmingAwb(c, step) == c'.record.row.awb && !step.seen.duplicate
    && c'.record.row.account == c.record.row.account && c'.record.row.collectible == c.record.row.collectible
    && (c.record.row.collectible > 0 ==> !step.seen.write)
  }

  lemma ConfirmLands(r: Record, k: nat, awb: string, outcome: IntentOutcome, testMode: bool, duplicate: bool,
                     otherCarrier: bool)
    requires k < |r.intents|
    ensures var result := ConfirmTx(r, k, awb, outcome, testMode, duplicate, otherCarrier);
            result.Committed? && Landed(result.record.row.state) ==>
              && !duplicate && result.record.row.awb == Some(NormalizeAwb(awb))
                 && result.record.row.account == r.row.account
              && result.record.row.collectible == r.row.collectible && (r.row.collectible > 0 ==> !otherCarrier)
  {
    hide NormalizeAwb;
  }

  /** A committed settlement that lands the shipment confirmed it under `awb`. */
  ghost predicate ConfirmedAs(r: Record, result: TxResult, awb: string, seen: Reads)
    requires result.Committed?
  {
    && !seen.duplicate && result.record.row.awb == Some(NormalizeAwb(awb)) && result.record.row.account == r.row.account
    && result.record.row.collectible == r.row.collectible && (r.row.collectible > 0 ==> !seen.write)
  }

  lemma WorkerTxLands(c: Cell, k: nat, testMode: bool, seen: Reads)
    requires k in c.workers && c.workers[k].Answered? && k < |c.record.intents| && !Landed(c.record.row.state)
    ensures var result := SettleWorkerTx(c, k, testMode, seen);
            result.Committed? && Landed(result.record.row.state) ==>
              c.workers[k].answer.Created? && ConfirmedAs(c.record, result, c.workers[k].answer.awb, seen)
  {
    hide NormalizeAwb, ConfirmTx, RowGuardRaises, CollectibleGuardRaises;
    if c.workers[k].answer.Created? {
      ConfirmLands(c.record, k, c.workers[k].answer.awb, IntentConfirmed, testMode, seen.duplicate, seen.write);
    }
  }

  lemma WorkerLands(id: Uuid, c: Cell, k: nat, testMode: bool, seen: Reads)
    requires !Landed(c.record.row.state) && Landed(SettleWorkerStep(c, k, testMode, seen).record.row.state)
    ensures LandsBy(c, SettleWorkerStep(c, k, testMode, seen), SettleWorker(id, k, testMode, seen))
  {
    hide NormalizeAwb, SettleWorkerTx;
    WorkerTxLands(c, k, testMode, seen);
  }

  lemma ResolverTxLands(c: Cell, testMode: bool, seen: Reads)
    requires c.resolver.Looked? && c.resolver.k < |c.record.intents| && !Landed(c.record.row.state)
    ensures var result := SettleResolverTx(c, testMode, seen);
            result.Committed? && Landed(result.record.row.state) ==>
              c.resolver.awb.Some? && ConfirmedAs(c.record, result, c.resolver.awb.value, seen)
  {
    hide NormalizeAwb, ConfirmTx, RowGuardRaises, CollectibleGuardRaises;
    if c.resolver.awb.Some? {
      ConfirmLands(c.record, c.resolver.k, c.resolver.awb.value, ResolvedConfirmed, testMode, seen.duplicate,
                   seen.write);
    }
  }

  lemma ResolverLands(id: Uuid, c: Cell, testMode: bool, seen: Reads)
    requires !Landed(c.record.row.state) && Landed(SettleResolverStep(c, testMode, seen).record.row.state)
    ensures LandsBy(c, SettleResolverStep(c, testMode, seen), SettleResolver(id, testMode, seen))
  {
    hide NormalizeAwb, SettleResolverTx;
    ResolverTxLands(c, testMode, seen);
  }

  /** A shipment lands only by a confirmation that read no duplicate and, if it collects, no carrier. */
  lemma Lands(id: Uuid, c: Cell, step: Step, outstanding: Option<nat>)
    requires CellInv(id, c) && Subject(step) == Some(id)
    requires !Landed(c.record.row.state) && Landed(CellStep(c, step, outstanding).record.row.state)
    ensures LandsBy(c, CellStep(c, step, outstanding), step)
  {
    hide CellInv, LandsBy, SettleWorkerStep, SettleResolverStep;
    if step.SettleWorker? {
      WorkerLands(id, c, step.k, step.testMode, step.seen);
    } else if step.SettleResolver? {
      ResolverLands(id, c, step.testMode, step.seen);
    } else {
      CellRows(id, c);
      OthersDoNotLand(id, c, step, outstanding);
    }
  }

  lemma CancelDoesNotLand(id: Uuid, c: Cell, call: nat, seen: Reads)
    requires RecordInv(id, c.record) && !Landed(c.record.row.state)
    ensures SettleCancelStep(c, call, seen).record == c.record
  {
    hide IntentsInv;
    assert c.record.row.custody == NotApplicable;
    hide RecordInv, UpdateGuarded, UpdatePlain;
  }

  lemma OthersDoNotLand(id: Uuid, c: Cell, step: Step, outstanding: Option<nat>)
    requires RecordInv(id, c.record) && Subject(step) == Some(id) && !step.SettleWorker? && !step.SettleResolver?
    requires !Landed(c.record.row.state)
    ensures !Landed(CellStep(c, step, outstanding).record.row.state)
  {
    hide RecordInv, QueueTx, ClaimTx, RouteTx, SettleCancelStep, RequestCancelTx, SchedulePickupTx, ReversePickupTx;
    hide PickedUpTx;
    if step.QueueBooking? {
      RecordInvariant.QueueKeeps(id, c.record, step.input, outstanding, step.seen);
    } else if step.ClaimJob? {
      RecordInvariant.ClaimKeeps(id, c.record, step.k, step.seen.write);
    } else if step.Route? {
      RouteKeeps(id, c.record, step.workingValues, step.manual, step.seen.write);
    } else if step.SettleCancel? {
      CancelDoesNotLand(id, c, step.call, step.seen);
    } else if step.RequestCancel? {
      CustodyKeeps(id, c.record, RequestCancelTx(c.record));
    } else if step.SchedulePickup? {
      CustodyKeeps(id, c.record, SchedulePickupTx(c.record));
    } else if step.ReversePickup? {
      CustodyKeeps(id, c.record, ReversePickupTx(c.record));
    } else if step.PickedUp? {
      CustodyKeeps(id, c.record, PickedUpTx(c.record));
    }
  }

  // ---- Across shipments ---------------------------------------------------------------------------------------

  /** The cell a step leaves for its subject. */
  ghost predicate CellsAfter(s: State, step: Step, cells: map<Uuid, Cell>) {
    || cells == s.cells
    || (step.InsertShipment? && step.id !in s.cells
        && cells == s.cells[step.id := NewCell(step.shop, step.order, step.workingValues)])
    || (Subject(step).Some? && Subject(step).value in s.cells
        && cells == s.cells[Subject(step).value := NextCell(s, step, Subject(step).value)])
  }

  function NextCell(s: State, step: Step, id: Uuid): Cell
    requires id in s.cells
  {
    CellStep(s.cells[id], step, Outstanding(s, s.cells[id].record.row.order))
  }

  /** A step changes the rows of its subject only. */
  lemma EffectOnCells(s: State, step: Step)
    ensures CellsAfter(s, step, Effect(s, step).cells)
  {
    hide CellStep, NewRequest, NewlySealed, Seal;
  }

  lemma NextCellKeeps(s: State, step: Step, id: Uuid)
    requires CellsInv(s) && id in s.cells && Subject(step) == Some(id)
    ensures CellInv(id, NextCell(s, step, id)) && CellEvolves(s.cells[id], NextCell(s, step, id))
  {
    hide CellInv, CellEvolves, CellStep;
    StepKeepsCell(id, s.cells[id], step, Outstanding(s, s.cells[id].record.row.order));
    StepEvolves(id, s.cells[id], step, Outstanding(s, s.cells[id].record.row.order));
  }

  lemma EvolvesReflexive(c: Cell)
    ensures CellEvolves(c, c)
  {
  }

  ghost predicate StateEvolves(s: State, s': State) {
    forall id :: id in s.cells ==> id in s'.cells && CellEvolves(s.cells[id], s'.cells[id])
  }

  lemma StepKeepsCells(s: State, step: Step)
    requires CellsInv(s)
    ensures CellsInv(Effect(s, step)) && StateEvolves(s, Effect(s, step))
  {
    hide CellInv, CellEvolves, Effect, NextCell, NewCell;
    EffectOnCells(s, step);
    if step.InsertShipment? {
      NewCellInv(step.id, step.shop, step.order, step.workingValues);
    }
    if Subject(step).Some? && Subject(step).value in s.cells {
      NextCellKeeps(s, step, Subject(step).value);
    }
    forall id | id in s.cells
      ensures CellEvolves(s.cells[id], s.cells[id])
    {
      EvolvesReflexive(s.cells[id]);
    }
  }

  /** What a step can do to the AWB and the collectible of its subject, seen from another shipment. */
  ghost predicate ActiveAfter(s: State, step: Step, id: Uuid, row: Shipment)
    requires id in s.cells
  {
    var old_ := s.cells[id].record.row;
    && row.shop == old_.shop && row.order == old_.order
    && (row.ActiveAwb() ==>
          || (old_.ActiveAwb() && row.awb == old_.awb && row.account == old_.account)
          || (Transactional(step) && !step.seen.duplicate && ConfirmingAwb(s.cells[id], step) == row.awb
              && row.account == old_.account))
    && (row.Carrier() ==> old_.Carrier() || (Transactional(step) && !step.seen.write))
  }

  lemma NextCellActive(s: State, step: Step, id: Uuid)
    requires CellsInv(s) && id in s.cells && Subject(step) == Some(id)
    ensures ActiveAfter(s, step, id, NextCell(s, step, id).record.row)
  {
    hide CellInv, CellEvolves, CellStep, ConfirmingAwb;
    NextCellKeeps(s, step, id);
    var c, c' := s.cells[id], NextCell(s, step, id);
    CellStays(id, c, c');
    if Landed(c'.record.row.state) && !Landed(c.record.row.state) {
      Lands(id, c, step, Outstanding(s, c.record.row.order));
    }
  }

  /** A shipment with an AWB has landed; one that had landed keeps AWB, account and, unless voided, collectible. */
  lemma CellStays(id: Uuid, c: Cell, c': Cell)
    requires CellInv(id, c) && CellInv(id, c') && CellEvolves(c, c')
    ensures c'.record.row.shop == c.record.row.shop && c'.record.row.order == c.record.row.order
    ensures c'.record.row.awb.Some? <==> Landed(c'.record.row.state)
    ensures c.record.row.awb.Some? <==> Landed(c.record.row.state)
    ensures Landed(c.record.row.state) ==>
              c'.record.row.awb == c.record.row.awb && c'.record.row.account == c.record.row.account
              && (c'.record.row.ActiveAwb() ==> c.record.row.ActiveAwb())
                 && (c'.record.row.Carrier() ==> c.record.row.Carrier())
  {
    hide BuildSnapshot, IntentsInv, WorkersInv, ResolverOk, SentInv, CancelInv, LedgerInv, CountersInv;
    if Landed(c.record.row.state) {
      SettledHistory(id, c, c');
    }
  }

  /** A landed shipment freezes no further attempt. */
  lemma SettledHistory(id: Uuid, c: Cell, c': Cell)
    requires CellInv(id, c) && CellInv(id, c') && CellEvolves(c, c') && Landed(c.record.row.state)
    ensures c'.record.frozen == c.record.frozen && |c'.record.intents| == |c.record.intents|
  {
    hide BuildRequest, BuildSnapshot, IntentsInv, RequestOf, WorkersInv, ResolverOk, SentInv, CancelInv, LedgerInv;
    var n := |c.record.intents|;
    assert c'.record.intents[n - 1].outcome == c.record.intents[n - 1].outcome;
  }

  lemma StepKeepsUnique(s: State, step: Step)
    requires Inv(s) && ReadsOk(s, step)
    ensures AwbUnique(Effect(s, step)) && SingleCarrier(Effect(s, step))
  {
    hide CellInv, NextCell, Effect, ReadsOk, ActiveAfter;
    EffectOnCells(s, step);
    var s' := Effect(s, step);
    if Subject(step).Some? && Subject(step).value in s.cells
       && s'.cells == s.cells[Subject(step).value := NextCell(s, step, Subject(step).value)] {
      var id := Subject(step).value;
      NextCellActive(s, step, id);
      forall other | other in s.cells && other != id
        ensures Apart(s'.cells[id].record.row, s.cells[other].record.row)
      {
        UniqueAgainst(s, step, id, other);
      }
    }
  }

  /** Two shipments that neither share an active AWB nor both carry the same order. */
  predicate Apart(row: Shipment, otherRow: Shipment) {
    && (row.ActiveAwb() && otherRow.ActiveAwb() ==>
          !SameAwb(row, otherRow, row.awb.value) && !SameAwb(otherRow, row, otherRow.awb.value))
    && (row.Carrier() && otherRow.Carrier() ==> row.order != otherRow.order)
  }

  /** A row that reads rule out of clashing with another shipment's. */
  lemma ApartByReads(s: State, step: Step, id: Uuid, other: Uuid, row: Shipment)
    requires AwbUnique(s) && SingleCarrier(s) && id in s.cells && other in s.cells && other != id
    requires ActiveAfter(s, step, id, row)
    requires Transactional(step) ==> ReadsHold(s, id, ConfirmingAwb(s.cells[id], step), step.seen)
    ensures Apart(row, s.cells[other].record.row)
  {
    hide ConfirmingAwb, CellStep;
    assert Transactional(step) && s.cells[other].record.row.Carrier()
           && s.cells[other].record.row.order == s.cells[id].record.row.order
           ==> OtherCarrier(s, id);
  }

  /** The subject of a step against one other shipment: the reads rule the clash out. */
  lemma UniqueAgainst(s: State, step: Step, id: Uuid, other: Uuid)
    requires Inv(s) && ReadsOk(s, step) && Subject(step) == Some(id) && id in s.cells && other in s.cells && other != id
    requires ActiveAfter(s, step, id, NextCell(s, step, id).record.row)
    ensures Apart(NextCell(s, step, id).record.row, s.cells[other].record.row)
  {
    hide CellsInv, AwbUnique, SingleCarrier, NextCell, ConfirmingAwb, ReadsHold, ActiveAfter, Apart;
    ApartByReads(s, step, id, other, NextCell(s, step, id).record.row);
  }

  /** Every step keeps the invariant, whatever the courier answers. */
  lemma StepKeeps(s: State, step: Step)
    requires Inv(s)
    ensures Inv(Apply(s, step)) && StateEvolves(s, Apply(s, step))
  {
    hide CellInv, CellEvolves, Effect, ReadsHold;
    if ReadsOk(s, step) {
      StepKeepsCells(s, step);
      StepKeepsUnique(s, step);
    } else {
      forall id | id in s.cells
        ensures CellEvolves(s.cells[id], s.cells[id])
      {
        EvolvesReflexive(s.cells[id]);
      }
    }
  }

  /** Every run keeps the invariant and only moves each shipment forward. */
  lemma {:induction false} RunKeeps(s: State, steps: seq<Step>)
    requires Inv(s)
    ensures Inv(Run(s, steps)) && StateEvolves(s, Run(s, steps))
  {
    hide CellInv, CellEvolves, Apply, AwbUnique, SingleCarrier;
    if steps == [] {
      forall id | id in s.cells
        ensures CellEvolves(s.cells[id], s.cells[id])
      {
        EvolvesReflexive(s.cells[id]);
      }
    } else {
      var before := Run(s, steps[..|steps| - 1]);
      RunKeeps(s, steps[..|steps| - 1]);
      StepKeeps(before, steps[|steps| - 1]);
      forall id | id in s.cells
        ensures CellEvolves(s.cells[id], Run(s, steps).cells[id])
      {
        EvolvesTransitive(s.cells[id], before.cells[id], Run(s, steps).cells[id]);
      }
    }
  }

  lemma InitialInv(outstanding: map<Uuid, nat>)
    ensures Inv(Initial(outstanding))
  {
  }

  lemma ReachableInv(s: State)
    requires Reachable(s)
    ensures Inv(s)
  {
    hide CellInv;
    var outstanding, steps :| s == Run(Initial(outstanding), steps);
    RunKeeps(Initial(outstanding), steps);
  }

  lemma HolderHasAccount(s: State, holder: Uuid)
    requires Inv(s) && holder in s.cells && s.cells[holder].record.row.awb.Some?
    ensures s.cells[holder].record.row.account.Some?
  {
    hide IntentsInv, WorkersInv, ResolverOk, SentInv, CancelInv, LedgerInv, CountersInv, AwbUnique, SingleCarrier;
    assert CellInv(holder, s.cells[holder]);
  }
}
