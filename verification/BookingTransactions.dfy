/** The database transactions of the booking, cancellation and pickup services, one shipment's rows
    at a time. What a transaction reads about other shipments is a parameter: `otherCarrier` answers
    the collectible trigger and the claim query, `duplicate` the AWB query. */
module BookingTransactions {
  import opened Wrappers
  import opened BookingSnapshot
  import opened ShipmentRows

  /** What a booking attempt froze. */
  datatype Frozen = Frozen(input: BookingInput, collectible: nat) {
    function Snapshot(): Snapshot {
      BuildSnapshot(input, collectible)
    }
  }

  /** A shipment row, its booking intents oldest first, and what each of them froze. */
  datatype Record = Record(row: Shipment, intents: seq<Intent>, frozen: seq<Frozen>) {
    predicate Unresolved(k: nat) {
      k < |intents| && !intents[k].outcome.Settled()
    }
  }

  datatype TxResult =
    | Committed(record: Record)
    | Refused                  // rolled back, or committed without a write, on a guard of the service
    | Aborted(guard: Guard)    // a trigger raised

  function SetOutcome(r: Record, k: nat, outcome: IntentOutcome): Record
    requires k < |r.intents|
  {
    r.(intents := r.intents[k := r.intents[k].(outcome := outcome)])
  }

  function CommitRow(r: Record, w: Written): TxResult {
    match w
    case Row(row) => Committed(r.(row := row))
    case Raised(guard) => Aborted(guard)
  }

  // ---- queueBooking -----------------------------------------------------------------------------------

  /** What a transaction read about other shipments: whether the order has another carrier, as seen by
      the claim query, by the trigger on the re-entry to DRAFT and by the trigger on the last write;
      and whether another non-VOID shipment holds the AWB. Each read is a statement of its own. */
  datatype Reads = Reads(claim: bool, reentry: bool, write: bool, duplicate: bool)

  /** The answers that let the least commit: another carrier, and no duplicate seen. */
  const CAUTIOUS := Reads(true, true, true, false)

  function ClaimedCollectible(input: BookingInput, outstanding: Option<nat>, carrierFound: bool): nat {
    if input.paymentMode == Cod && !carrierFound && outstanding.Some? then outstanding.value else 0
  }

  function QueueTx(r: Record, id: Uuid, input: BookingInput, outstanding: Option<nat>, seen: Reads): TxResult {
    if !(r.row.state in {Draft, NeedsManualAssignment, Failed}) then Refused else
      var collectible := ClaimedCollectible(input, outstanding, seen.claim);
      var frozen := Frozen(input, collectible);
      var reference := MerchantReference(r.row.shop, id, |r.intents| + 1);
      var intent := Intent(reference, Canonical(QueuedEntries(reference, id, input, collectible)), InFlight);
      var reentered := if r.row.state == Draft then Row(r.row)
                       else UpdateGuarded(r.row, r.row.(state := Draft), seen.reentry);
      if reentered.Raised? then Aborted(reentered.guard) else
        var queued := UpdateGuarded(reentered.row,
                                    reentered.row.(state := Queued, account := Some(input.accountId),
                                                   collectible := collectible, snapshot := Some(frozen.Snapshot())),
                                    seen.write);
        CommitRow(r.(intents := r.intents + [intent], frozen := r.frozen + [frozen]), queued)
  }

  // ---- The worker -------------------------------------------------------------------------------------

  function ClaimTx(r: Record, k: nat, otherCarrier: bool): TxResult {
    if k >= |r.intents| || !r.intents[k].outcome.InFlight? || !(r.row.state in {Queued, Submitted}) then Refused
    else if r.row.state == Queued then CommitRow(r, UpdateGuarded(r.row, r.row.(state := Submitted), otherCarrier))
    else Committed(r)
  }

  /** confirmBooking, for the worker and for both resolvers. */
  function ConfirmTx(r: Record, k: nat, awbRaw: string, outcome: IntentOutcome, testMode: bool,
                     duplicate: bool, otherCarrier: bool): TxResult
    requires k < |r.intents|
  {
    if !(r.row.state in {Submitted, OutcomeUnknown}) then Refused
    else if duplicate then
      CommitRow(SetOutcome(r, k, IntentFailed), UpdateGuarded(r.row, r.row.(state := Failed), otherCarrier))
    else
      CommitRow(SetOutcome(r, k, outcome),
                UpdateGuarded(r.row, r.row.(state := Confirmed, awb := Some(NormalizeAwb(awbRaw)),
                                            custody := PickupPending, isTest := testMode), otherCarrier))
  }

  function SettleFailedTx(r: Record, k: nat, from: BookingState, outcome: IntentOutcome, otherCarrier: bool): TxResult
    requires k < |r.intents|
  {
    if r.row.state != from then Refused
    else CommitRow(SetOutcome(r, k, outcome), UpdateGuarded(r.row, r.row.(state := Failed), otherCarrier))
  }

  function MarkUnknownTx(r: Record, k: nat, otherCarrier: bool): TxResult
    requires k < |r.intents|
  {
    if r.row.state != Submitted then Refused
    else CommitRow(SetOutcome(r, k, Unknown), UpdateGuarded(r.row, r.row.(state := OutcomeUnknown), otherCarrier))
  }

  // ---- Cancellation -----------------------------------------------------------------------------------

  function RequestCancelTx(r: Record): TxResult {
    if r.row.state != Confirmed || !(r.row.custody in {PickupPending, PickupScheduled}) then Refused
    else CommitRow(r, UpdatePlain(r.row, r.row.(custody := CancelRequested)))
  }

  /** Refused covers both the pickup race and the row settled by a concurrent path. */
  function SettleCancelledTx(r: Record, otherCarrier: bool): TxResult {
    if r.row.custody != CancelRequested then Refused
    else CommitRow(r, UpdateGuarded(r.row, r.row.(custody := Cancelled, state := Void, collectible := 0), otherCarrier))
  }

  /** Two guarded statements: CANCEL_REQUESTED to CANCEL_REJECTED, then back to the previous state. */
  function SettleRejectedTx(r: Record, previous: CustodyState): TxResult {
    var rejected := if r.row.custody == CancelRequested then UpdatePlain(r.row, r.row.(custody := CancelRejected))
        else Row(r.row);
    if rejected.Raised? then Aborted(rejected.guard)
    else if rejected.row.custody != CancelRejected then Refused
    else CommitRow(r, UpdatePlain(rejected.row, rejected.row.(custody := previous)))
  }

  // ---- Pickup, tracking and the writers of draft rows ---------------------------------------------------

  function SchedulePickupTx(r: Record): TxResult {
    if r.row.custody != PickupPending then Refused
    else CommitRow(r, UpdatePlain(r.row, r.row.(custody := PickupScheduled)))
  }

  function ReversePickupTx(r: Record): TxResult {
    if r.row.custody != PickupScheduled then Refused
    else CommitRow(r, UpdatePlain(r.row, r.row.(custody := PickupPending)))
  }

  /** The tracking reducer's PICKED_UP event. */
  function PickedUpTx(r: Record): TxResult {
    if !(r.row.custody in {PickupPending, PickupScheduled, CancelRequested}) then Refused
    else CommitRow(r, UpdatePlain(r.row, r.row.(custody := InCustody)))
  }

  /** Order derivation and rule routing: working values, and DRAFT or NEEDS_MANUAL_ASSIGNMENT. */
  function RouteTx(r: Record, workingValues: string, manual: bool, otherCarrier: bool): TxResult {
    if !(r.row.state in {Draft, NeedsManualAssignment}) then Refused
    else
      var state := if manual then NeedsManualAssignment else Draft;
      CommitRow(r, UpdateGuarded(r.row, r.row.(workingValues := workingValues, state := state), otherCarrier))
  }
}
