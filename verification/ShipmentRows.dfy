/** Shipment and booking_intent rows, their state enums and the triggers in force on `shipment`
    (migrations 0003 and 0009). A raising trigger aborts the transaction with no effect. */
module ShipmentRows {
  import opened Wrappers
  import opened BookingSnapshot

  datatype BookingState =
    Draft | NeedsManualAssignment | Queued | Submitted | Confirmed | Failed | OutcomeUnknown | Void

  datatype CustodyState =
    NotApplicable | PickupPending | PickupScheduled | InCustody | CancelRequested | Cancelled | CancelRejected

  datatype IntentOutcome =
    InFlight | IntentConfirmed | IntentFailed | Unknown | ResolvedConfirmed | ResolvedFailed
  {
    predicate Settled() {
      !InFlight? && !Unknown?
    }

    predicate SettledConfirmed() {
      IntentConfirmed? || ResolvedConfirmed?
    }

    predicate SettledFailed() {
      IntentFailed? || ResolvedFailed?
    }
  }

  datatype Intent = Intent(reference: string, digest: seq<Entry>, outcome: IntentOutcome)

  /** Amounts are whole paise; `awb` is awb_normalized. */
  datatype Shipment = Shipment(
    shop: Uuid, order: Uuid, account: Option<string>, state: BookingState, custody: CustodyState, awb: Option<string>,
    collectible: nat, isTest: bool, workingValues: string, snapshot: Option<Snapshot>)
  {
    /** A non-VOID shipment holding an AWB. */
    predicate ActiveAwb() {
      awb.Some? && state != Void
    }

    /** The shipment collects the order's cash. */
    predicate Carrier() {
      collectible > 0 && ActiveAwb()
    }
  }

  datatype Guard = CollectibleGuard | RowGuard

  datatype Written = Row(row: Shipment) | Raised(guard: Guard)

  /** guard_shipment_row, migration 0009. */
  predicate RowGuardRaises(old_: Shipment, new_: Shipment) {
    || (new_.snapshot != old_.snapshot && !(old_.state == Draft && new_.state == Queued))
    || (new_.isTest != old_.isTest && !(!old_.isTest && new_.state == Confirmed))
    || (new_.workingValues != old_.workingValues && new_.state != Draft && new_.state != NeedsManualAssignment)
  }

  /** enforce_single_collectible: `otherCarrier` is its EXISTS over the order's other shipments. */
  predicate CollectibleGuardRaises(new_: Shipment, otherCarrier: bool) {
    new_.collectible > 0 && otherCarrier
  }

  /** An UPDATE that names collectible, awb_normalized or booking_state: both triggers fire. */
  function UpdateGuarded(old_: Shipment, new_: Shipment, otherCarrier: bool): Written {
    if CollectibleGuardRaises(new_, otherCarrier) then Raised(CollectibleGuard)
    else UpdatePlain(old_, new_)
  }

  /** Any other UPDATE: only the row guard fires. */
  function UpdatePlain(old_: Shipment, new_: Shipment): Written {
    if RowGuardRaises(old_, new_) then Raised(RowGuard) else Row(new_)
  }
}
