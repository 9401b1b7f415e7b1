/** What a step can and cannot change about a shipment: settled attempts, landed shipments, voided and
    collected shipments keep what they have for the rest of every run. */
module BookingEvolution {
  import opened Wrappers
  import opened BookingSnapshot
  import opened ShipmentRows
  import opened BookingTransactions
  import opened RecordInvariant
  import opened BookingProtocol
  import opened BookingInvariant

  /** Later rows of the same shipment. */
  ghost predicate RecordEvolves(r: Record, r': Record) {
    && r'.row.shop == r.row.shop && r'.row.order == r.row.order
    && |r.intents| <= |r'.intents| && |r.frozen| <= |r'.frozen|
    && (forall k :: 0 <= k < |r.intents| ==>
          && r'.intents[k].reference == r.intents[k].reference && r'.intents[k].digest == r.intents[k].digest
          && (r.intents[k].outcome.Settled() ==> r'.intents[k].outcome == r.intents[k].outcome))
    && (forall k :: 0 <= k < |r.frozen| ==> r'.frozen[k] == r.frozen[k])
    && (Landed(r.row.state) ==>
          && Landed(r'.row.state) && r'.row.awb == r.row.awb && r'.row.isTest == r.row.isTest
             && r'.row.account == r.row.account
          && r'.row.snapshot == r.row.snapshot)
    && (r.row.state == Void || r.row.custody == InCustody ==> r'.row == r.row)
  }

  ghost predicate CellEvolves(c: Cell, c': Cell) {
    && RecordEvolves(c.record, c'.record)
    && c.ledger <= c'.ledger && c.confirms <= c'.confirms && c.reversals <= c'.reversals
    && c.overageRecords <= c'.overageRecords && c.overageReversals <= c'.overageReversals
    && c.sent <= c'.sent && (c.pickedUp ==> c'.pickedUp)
  }

  lemma EvolvesTransitive(a: Cell, b: Cell, c: Cell)
    requires CellEvolves(a, b) && CellEvolves(b, c)
    ensures CellEvolves(a, c)
  {
  }

  lemma SettleEvolves(r: Record, r': Record, k: nat)
    requires |r.intents| == |r.frozen| && k < |r.intents| && !r.intents[k].outcome.Settled() && !Landed(r.row.state)
    requires r.row.custody != InCustody
    requires SameHistory(r, r') && r'.intents == r.intents[k := r'.intents[k]]
    ensures RecordEvolves(r, r')
  {
  }

  lemma SettleWorkerEvolves(id: Uuid, c: Cell, k: nat, testMode: bool, seen: Reads)
    requires CellInv(id, c)
    ensures CellEvolves(c, SettleWorkerStep(c, k, testMode, seen))
  {
    hide BuildRequest, BuildSnapshot, IntentsInv, RequestOf, ConfirmTx, SettleFailedTx, MarkUnknownTx, ResolverOk;
    hide SentInv, CancelInv, LedgerInv, CountersInv;
    RecordReflexive(c.record);
    if k in c.workers && c.workers[k].Answered? && k < |c.record.intents| {
      SettleWorkerTxKeeps(id, c, k, testMode, seen);
      assert WorkerOk(c.record, c.ledger, c.overageRecords, k, c.workers[k]);
      var result, awb := SettleWorkerTx(c, k, testMode, seen), if c.workers[k].answer.Created?
          then c.workers[k].answer.awb else "";
      SettleTouches(c.record, k, awb, IntentConfirmed, testMode, Submitted, seen.duplicate, seen.write);
      SettleTouches(c.record, k, awb, IntentFailed, testMode, Submitted, seen.duplicate, seen.write);
      if result.Committed? {
        SettleEvolves(c.record, result.record, k);
      }
      hide RecordEvolves, RecordInv, WorkersInv, SettleWorkerTx;
    }
  }

  /** The confirming, failing and marking transactions touch intent k and the row only. */
  lemma SettleTouches(r: Record, k: nat, awb: string, outcome: IntentOutcome, testMode: bool, from: BookingState,
                      duplicate: bool, otherCarrier: bool)
    requires k < |r.intents|
    ensures TouchesOnly(r, k, ConfirmTx(r, k, awb, outcome, testMode, duplicate, otherCarrier))
    ensures TouchesOnly(r, k, SettleFailedTx(r, k, from, outcome, otherCarrier))
    ensures TouchesOnly(r, k, MarkUnknownTx(r, k, otherCarrier))
  {
    hide NormalizeAwb;
  }

  ghost predicate TouchesOnly(r: Record, k: nat, result: TxResult)
    requires k < |r.intents|
  {
    result.Committed? ==> k < |result.record.intents|
                          && result.record.intents == r.intents[k := result.record.intents[k]]
  }

  lemma SettleResolverEvolves(id: Uuid, c: Cell, testMode: bool, seen: Reads)
    requires CellInv(id, c)
    ensures CellEvolves(c, SettleResolverStep(c, testMode, seen))
  {
    hide BuildRequest, BuildSnapshot, IntentsInv, RequestOf, ConfirmTx, SettleFailedTx, MarkUnknownTx, WorkersInv;
    hide SentInv, CancelInv, LedgerInv, CountersInv;
    RecordReflexive(c.record);
    if c.resolver.Looked? && c.resolver.k < |c.record.intents| {
      SettleResolverTxKeeps(id, c, testMode, seen);
      var result, awb := SettleResolverTx(c, testMode, seen), c.resolver.awb.GetOr("");
      SettleTouches(c.record, c.resolver.k, awb, ResolvedConfirmed, testMode, OutcomeUnknown, seen.duplicate,
                    seen.write);
      SettleTouches(c.record, c.resolver.k, awb, ResolvedFailed, testMode, OutcomeUnknown, seen.duplicate, seen.write);
      if result.Committed? {
        SettleEvolves(c.record, result.record, c.resolver.k);
      }
      hide RecordEvolves, RecordInv, ResolverOk, SettleResolverTx;
    }
  }

  lemma QueueEvolves(id: Uuid, c: Cell, input: BookingInput, outstanding: Option<nat>, seen: Reads)
    requires CellInv(id, c)
    ensures CellEvolves(c, WithRecord(c, QueueTx(c.record, id, input, outstanding, seen)))
  {
    hide CellInv, RecordInv, QueueTx;
    CellRows(id, c);
    RecordInvariant.QueueKeeps(id, c.record, input, outstanding, seen);
    RecordReflexive(c.record);
    if QueueTx(c.record, id, input, outstanding, seen).Committed? {
      UnlandedAlone(id, c.record);
    }
  }

  /** A shipment that has not landed is not in custody. */
  lemma UnlandedAlone(id: Uuid, r: Record)
    requires RecordInv(id, r) && !Landed(r.row.state)
    ensures r.row.custody == NotApplicable
  {
    hide IntentsInv;
  }

  lemma RowsEvolve(id: Uuid, c: Cell, result: TxResult)
    requires CellInv(id, c)
    requires CustodyTx(c.record, result)
             || (exists seen: bool :: result == SettleCancelledTx(c.record, seen))
             || (exists k, seen: bool :: result == ClaimTx(c.record, k, seen))
             || (exists w, manual, seen: bool :: result == RouteTx(c.record, w, manual, seen))
    ensures result.Committed? ==> RecordEvolves(c.record, result.record)
  {
    hide BuildRequest, BuildSnapshot, IntentsInv, RequestOf;
    if CustodyTx(c.record, result) {
      CustodyKeeps(id, c.record, result);
    } else if seen: bool :| result == SettleCancelledTx(c.record, seen) {
      SettleCancelledKeeps(id, c.record, seen);
    } else if k, seen: bool :| result == ClaimTx(c.record, k, seen) {
      RecordInvariant.ClaimKeeps(id, c.record, k, seen);
    } else {
      var w, manual, seen: bool :| result == RouteTx(c.record, w, manual, seen);
      RouteKeeps(id, c.record, w, manual, seen);
    }
  }

  lemma CancelTxsEvolve(id: Uuid, c: Cell, call: nat, seen: Reads)
    requires CellInv(id, c) && call in c.cancels && c.cancels[call].Replied?
    ensures var accepted, rejected := SettleCancelledTx(c.record, seen.write),
            SettleRejectedTx(c.record, c.cancels[call].previous);
            && (accepted.Committed? ==> RecordEvolves(c.record, accepted.record))
            && (rejected.Committed? ==> RecordEvolves(c.record, rejected.record))
  {
    hide IntentsInv, RowInv, SentInv, WorkersInv, ResolverOk, CountersInv, LedgerInv, RecordEvolves;
    hide SettleCancelledTx, SettleRejectedTx;
    assert CancelOk(c.record.row, c.reversals, c.overageReversals, c.cancels[call]);
    assert CustodyTx(c.record, SettleRejectedTx(c.record, c.cancels[call].previous));
    RowsEvolve(id, c, SettleCancelledTx(c.record, seen.write));
    RowsEvolve(id, c, SettleRejectedTx(c.record, c.cancels[call].previous));
  }

  lemma CancelEvolves(id: Uuid, c: Cell, call: nat, seen: Reads)
    requires CellInv(id, c)
    ensures CellEvolves(c, SettleCancelStep(c, call, seen))
  {
    hide CellInv, RecordEvolves, SettleCancelledTx, SettleRejectedTx;
    RecordReflexive(c.record);
    if call in c.cancels && c.cancels[call].Replied? {
      CancelTxsEvolve(id, c, call, seen);
    }
  }

  /** Steps that write rows through one of the smaller transactions. */
  lemma RowStepEvolves(id: Uuid, c: Cell, step: Step, outstanding: Option<nat>)
    requires CellInv(id, c)
    requires step.Route? || step.ClaimJob? || step.RequestCancel? || step.SchedulePickup? || step.ReversePickup?
             || step.PickedUp?
    ensures CellEvolves(c, CellStep(c, step, outstanding))
  {
    hide CellInv, CellEvolves;
    if step.Route? || step.ClaimJob? {
      DraftStepEvolves(id, c, step, outstanding);
    } else {
      CustodyStepEvolves(id, c, step, outstanding);
    }
  }

  lemma DraftStepEvolves(id: Uuid, c: Cell, step: Step, outstanding: Option<nat>)
    requires CellInv(id, c) && (step.Route? || step.ClaimJob?)
    ensures CellEvolves(c, CellStep(c, step, outstanding))
  {
    hide CellInv, RecordEvolves, RouteTx, ClaimTx, CustodyTx, BuildRequest;
    RecordReflexive(c.record);
    if step.Route? {
      RowsEvolve(id, c, RouteTx(c.record, step.workingValues, step.manual, step.seen.write));
    } else {
      RowsEvolve(id, c, ClaimTx(c.record, step.k, step.seen.write));
    }
  }

  lemma CustodyStepEvolves(id: Uuid, c: Cell, step: Step, outstanding: Option<nat>)
    requires CellInv(id, c) && (step.RequestCancel? || step.SchedulePickup? || step.ReversePickup? || step.PickedUp?)
    ensures CellEvolves(c, CellStep(c, step, outstanding))
  {
    hide CellInv, RecordEvolves, RequestCancelTx, SchedulePickupTx, ReversePickupTx, PickedUpTx, CustodyTx;
    RecordReflexive(c.record);
    CustodyTxs(c.record);
    if step.RequestCancel? {
      RowsEvolve(id, c, RequestCancelTx(c.record));
    } else if step.SchedulePickup? {
      RowsEvolve(id, c, SchedulePickupTx(c.record));
    } else if step.ReversePickup? {
      RowsEvolve(id, c, ReversePickupTx(c.record));
    } else {
      RowsEvolve(id, c, PickedUpTx(c.record));
    }
  }

  lemma CustodyTxs(r: Record)
    ensures CustodyTx(r, RequestCancelTx(r)) && CustodyTx(r, SchedulePickupTx(r)) && CustodyTx(r, ReversePickupTx(r))
    ensures CustodyTx(r, PickedUpTx(r))
  {
  }

  lemma RecordReflexive(r: Record)
    ensures RecordEvolves(r, r)
  {
  }

  lemma CourierCallEvolves(c: Cell, step: Step, outstanding: Option<nat>)
    requires step.SendCreate? || step.CreateAnswered? || step.DebitByWorker? || step.OverageByWorker?
             || step.CrashWorker? || step.ForgetMemo?
    ensures CellEvolves(c, CellStep(c, step, outstanding))
  {
    hide RecordEvolves, WorkerAnswer, Memoised;
    RecordReflexive(c.record);
  }

  lemma ResolverCallEvolves(c: Cell, step: Step, outstanding: Option<nat>)
    requires step.ResolverSees? || step.ResolverLoads? || step.ResolverLooks? || step.DebitByResolver?
             || step.OverageByResolver?
             || step.CrashResolver?
    ensures CellEvolves(c, CellStep(c, step, outstanding))
  {
    hide RecordEvolves;
    RecordReflexive(c.record);
  }

  lemma CancelCallEvolves(c: Cell, step: Step, outstanding: Option<nat>)
    requires step.CancelAnswered? || step.ReverseLedger? || step.ReverseOverage? || step.CrashCancel?
             || step.InsertShipment?
    ensures CellEvolves(c, CellStep(c, step, outstanding))
  {
    hide RecordEvolves;
    RecordReflexive(c.record);
  }

  /** Every step only ever moves a shipment forward. */
  lemma StepEvolves(id: Uuid, c: Cell, step: Step, outstanding: Option<nat>)
    requires CellInv(id, c) && Subject(step) == Some(id)
    ensures CellEvolves(c, CellStep(c, step, outstanding))
  {
    hide CellInv, CellEvolves, CellStep, QueueTx, SettleWorkerStep, SettleResolverStep, SettleCancelStep;
    if step.QueueBooking? || step.SettleWorker? || step.SettleResolver? || step.SettleCancel? {
      SettlingEvolves(id, c, step, outstanding);
    } else if step.Route? || step.ClaimJob? || step.RequestCancel? || step.SchedulePickup? || step.ReversePickup?
       || step.PickedUp? {
      RowStepEvolves(id, c, step, outstanding);
    } else if step.CancelAnswered? || step.ReverseLedger? || step.ReverseOverage? || step.CrashCancel?
       || step.InsertShipment? {
      CancelCallEvolves(c, step, outstanding);
    } else if step.SendCreate? || step.CreateAnswered? || step.DebitByWorker? || step.OverageByWorker?
       || step.CrashWorker? || step.ForgetMemo? {
      CourierCallEvolves(c, step, outstanding);
    } else {
      ResolverCallEvolves(c, step, outstanding);
    }
  }

  lemma SettlingEvolves(id: Uuid, c: Cell, step: Step, outstanding: Option<nat>)
    requires CellInv(id, c) && Subject(step) == Some(id)
    requires step.QueueBooking? || step.SettleWorker? || step.SettleResolver? || step.SettleCancel?
    ensures CellEvolves(c, CellStep(c, step, outstanding))
  {
    hide CellInv, CellEvolves, QueueTx, SettleWorkerStep, SettleResolverStep, SettleCancelStep;
    if step.QueueBooking? {
      QueueEvolves(id, c, step.input, outstanding, step.seen);
    } else if step.SettleWorker? {
      SettleWorkerEvolves(id, c, step.k, step.testMode, step.seen);
    } else if step.SettleResolver? {
      SettleResolverEvolves(id, c, step.testMode, step.seen);
    } else {
      CancelEvolves(id, c, step.call, step.seen);
    }
  }
}
