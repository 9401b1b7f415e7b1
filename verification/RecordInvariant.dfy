/** What the transactions keep about one shipment's rows: how the booking state, the intents, the frozen
    snapshots and the custody state hang together. */
module RecordInvariant {
  import opened Wrappers
  import opened BookingSnapshot
  import opened ShipmentRows
  import opened BookingTransactions

  /** Intent k carries the reference of attempt k + 1 and the digest of what that attempt froze. */
  ghost predicate IntentFrozen(id: Uuid, shop: Uuid, k: nat, intent: Intent, frozen: Frozen) {
    var reference := MerchantReference(shop, id, k + 1);
    intent.reference == reference
    && intent.digest == Canonical(QueuedEntries(reference, id, frozen.input, frozen.collectible))
  }

  ghost predicate IntentsInv(id: Uuid, r: Record) {
    |r.intents| == |r.frozen|
    && forall k :: 0 <= k < |r.intents| ==> IntentFrozen(id, r.row.shop, k, r.intents[k], r.frozen[k])
  }

  predicate Landed(state: BookingState) {
    state == Confirmed || state == Void
  }

  /** The booking state says how the latest intent stands. */
  ghost predicate Coupled(state: BookingState, outcome: IntentOutcome) {
    && (state == Queued || state == Submitted <==> outcome == InFlight)
    && (state == OutcomeUnknown <==> outcome == Unknown)
    && (state == Failed <==> outcome.SettledFailed())
    && (Landed(state) <==> outcome.SettledConfirmed())
    && state != Draft && state != NeedsManualAssignment
  }

  ghost predicate RowInv(r: Record)
    requires |r.intents| == |r.frozen|
  {
    var row, n := r.row, |r.intents|;
    && (n == 0 ==> row.state in {Draft, NeedsManualAssignment} && row.snapshot == None && row.account == None
                   && row.collectible == 0)
    && (n > 0 ==> Coupled(row.state, r.intents[n - 1].outcome)
                  && row.snapshot == Some(r.frozen[n - 1].Snapshot())
                  && row.account == Some(r.frozen[n - 1].input.accountId)
                  && row.collectible == if row.state == Void then 0 else r.frozen[n - 1].collectible)
    && (forall k :: 0 <= k < n - 1 ==> r.intents[k].outcome.SettledFailed())
    && (row.awb.Some? <==> Landed(row.state))
    && (row.custody != NotApplicable <==> Landed(row.state))
    && (row.custody == Cancelled <==> row.state == Void)
    && row.custody != CancelRejected
    && (row.isTest ==> Landed(row.state))
  }

  ghost predicate RecordInv(id: Uuid, r: Record) {
    |r.intents| == |r.frozen| && IntentsInv(id, r) && RowInv(r)
  }

  ghost predicate IsLatest(r: Record, k: nat) {
    k + 1 == |r.intents|
  }

  /** Nothing but outcomes changed in the history of attempts. */
  ghost predicate SameHistory(r: Record, r': Record) {
    && r'.row.shop == r.row.shop && r'.row.order == r.row.order && r'.row.snapshot == r.row.snapshot
    && r'.frozen == r.frozen && |r'.intents| == |r.intents|
    && forall k :: 0 <= k < |r.intents| ==>
         r'.intents[k].reference == r.intents[k].reference && r'.intents[k].digest == r.intents[k].digest
  }

  /** One more attempt, the earlier ones untouched. */
  ghost predicate Extends(r: Record, r': Record) {
    && |r'.intents| == |r.intents| + 1 && |r'.frozen| == |r.frozen| + 1
    && (forall k :: 0 <= k < |r.intents| ==> r'.intents[k] == r.intents[k])
    && (forall k :: 0 <= k < |r.frozen| ==> r'.frozen[k] == r.frozen[k])
  }

  lemma HistoryKeepsIntents(id: Uuid, r: Record, r': Record)
    requires IntentsInv(id, r) && SameHistory(r, r')
    ensures IntentsInv(id, r')
  {
    hide MerchantReference, Canonical, QueuedEntries;
    forall k | 0 <= k < |r'.intents|
      ensures IntentFrozen(id, r'.row.shop, k, r'.intents[k], r'.frozen[k])
    {
      assert IntentFrozen(id, r.row.shop, k, r.intents[k], r.frozen[k]);
    }
  }

  /** Only the latest intent can be unresolved, and then the shipment is still with the courier. */
  lemma UnresolvedIsLatest(id: Uuid, r: Record, k: nat)
    requires RecordInv(id, r) && r.Unresolved(k)
    ensures IsLatest(r, k) && r.row.state in {Queued, Submitted, OutcomeUnknown}
  {
    hide MerchantReference, Canonical, QueuedEntries;
    assert k < |r.intents| - 1 ==> r.intents[k].outcome.SettledFailed();
  }

  /** What a committed queueing writes. */
  ghost predicate QueuedAs(id: Uuid, r: Record, r': Record, attempt: Frozen) {
    var reference := MerchantReference(r.row.shop, id, |r.intents| + 1);
    && r.row.state in {Draft, NeedsManualAssignment, Failed}
    && r'.row == r.row.(state := Queued, account := Some(attempt.input.accountId), collectible := attempt.collectible,
                        snapshot := Some(attempt.Snapshot()))
    && r'.intents == r.intents + [Intent(reference,
                                         Canonical(QueuedEntries(reference, id, attempt.input, attempt.collectible)),
                                             InFlight)]
    && r'.frozen == r.frozen + [attempt]
  }

  lemma QueueWrites(id: Uuid, r: Record, input: BookingInput, outstanding: Option<nat>, seen: Reads)
    ensures var result := QueueTx(r, id, input, outstanding, seen);
            && result != Aborted(RowGuard)
            && (result.Committed? ==> QueuedAs(id, r, result.record,
                                               Frozen(input, ClaimedCollectible(input, outstanding, seen.claim))))
  {
    hide MerchantReference, Canonical, QueuedEntries, BuildSnapshot, ClaimedCollectible;
  }

  lemma QueuedKeepsIntents(id: Uuid, r: Record, r': Record, attempt: Frozen)
    requires IntentsInv(id, r) && QueuedAs(id, r, r', attempt)
    ensures IntentsInv(id, r') && Extends(r, r') && r'.frozen[|r.frozen|] == attempt
    ensures r'.intents[|r.intents|].outcome == InFlight
  {
    hide MerchantReference, Canonical, QueuedEntries, BuildSnapshot;
    forall k | 0 <= k < |r'.intents|
      ensures IntentFrozen(id, r'.row.shop, k, r'.intents[k], r'.frozen[k])
    {
      if k < |r.intents| {
        assert IntentFrozen(id, r.row.shop, k, r.intents[k], r.frozen[k]);
      }
    }
  }

  lemma QueuedKeepsRow(id: Uuid, r: Record, r': Record, attempt: Frozen)
    requires |r.intents| == |r.frozen| && RowInv(r) && QueuedAs(id, r, r', attempt)
    ensures |r'.intents| == |r'.frozen| && RowInv(r') && !Landed(r.row.state)
  {
    hide MerchantReference, Canonical, QueuedEntries, BuildSnapshot;
    assert forall k :: 0 <= k < |r.intents| ==> r.intents[k].outcome.SettledFailed();
  }

  /** Queueing succeeds in freezing a new attempt; a failure of the trigger leaves no trace. */
  lemma QueueKeeps(id: Uuid, r: Record, input: BookingInput, outstanding: Option<nat>, seen: Reads)
    requires RecordInv(id, r)
    ensures var result := QueueTx(r, id, input, outstanding, seen);
            && result != Aborted(RowGuard)
            && (result.Committed? ==>
                  var r' := result.record;
                  && RecordInv(id, r')
                  && Extends(r, r') && r'.frozen[|r.frozen|]
                     == Frozen(input, ClaimedCollectible(input, outstanding, seen.claim))
                  && r'.row.state == Queued && !Landed(r.row.state)
                  && r'.row.shop == r.row.shop && r'.row.order == r.row.order
                  && r'.intents[|r.intents|].outcome == InFlight)
  {
    hide QueueTx, IntentsInv, RowInv, ClaimedCollectible;
    var result := QueueTx(r, id, input, outstanding, seen);
    QueueWrites(id, r, input, outstanding, seen);
    if result.Committed? {
      QueuedKeepsIntents(id, r, result.record, Frozen(input, ClaimedCollectible(input, outstanding, seen.claim)));
      QueuedKeepsRow(id, r, result.record, Frozen(input, ClaimedCollectible(input, outstanding, seen.claim)));
    }
  }

  lemma ClaimKeeps(id: Uuid, r: Record, k: nat, otherCarrier: bool)
    requires RecordInv(id, r)
    ensures var result := ClaimTx(r, k, otherCarrier);
            && result != Aborted(RowGuard)
            && (result.Committed? ==>
                  && RecordInv(id, result.record) && SameHistory(r, result.record) && result.record.intents == r.intents
                  && IsLatest(r, k) && result.record.row == r.row.(state := Submitted)
                  && r.row.state in {Queued, Submitted} && r.row.snapshot == Some(r.frozen[k].Snapshot()))
  {
    hide MerchantReference, Canonical, QueuedEntries, BuildSnapshot;
    var result := ClaimTx(r, k, otherCarrier);
    if result.Committed? {
      UnresolvedIsLatest(id, r, k);
      HistoryKeepsIntents(id, r, result.record);
    }
  }

  /** A row that settles, or leaves unknown, the latest attempt of one that has not landed. */
  ghost predicate SettlesRow(r: Record, row': Shipment, outcome: IntentOutcome) {
    && row' == r.row.(state := row'.state, custody := row'.custody, awb := row'.awb, isTest := row'.isTest)
    && Coupled(row'.state, outcome) && row'.state != Void
    && if row'.state == Confirmed then row'.awb.Some? && row'.custody == PickupPending
       else row'.awb == r.row.awb && row'.custody == r.row.custody && row'.isTest == r.row.isTest
  }

  lemma SettleKeepsRow(r: Record, k: nat, row': Shipment, outcome: IntentOutcome)
    requires |r.intents| == |r.frozen| && RowInv(r) && IsLatest(r, k) && !Landed(r.row.state)
    requires SettlesRow(r, row', outcome)
    ensures RowInv(SetOutcome(r, k, outcome).(row := row'))
  {
    hide BuildSnapshot;
  }

  lemma SettleKeeps(id: Uuid, r: Record, k: nat, row': Shipment, outcome: IntentOutcome)
    requires RecordInv(id, r) && IsLatest(r, k) && !Landed(r.row.state) && SettlesRow(r, row', outcome)
    ensures var r' := SetOutcome(r, k, outcome).(row := row');
            RecordInv(id, r') && SameHistory(r, r')
  {
    hide IntentsInv, RowInv, Coupled;
    SettleKeepsRow(r, k, row', outcome);
    HistoryKeepsIntents(id, r, SetOutcome(r, k, outcome).(row := row'));
  }

  lemma NotTestYet(id: Uuid, r: Record)
    requires RecordInv(id, r)
    ensures r.row.state in {Submitted, OutcomeUnknown} ==> !r.row.isTest
  {
    hide IntentsInv;
  }

  /** The row a confirmation writes. */
  function ConfirmedRow(row: Shipment, awb: string, testMode: bool, duplicate: bool): Shipment {
    if duplicate then row.(state := Failed)
    else row.(state := Confirmed, awb := Some(NormalizeAwb(awb)), custody := PickupPending, isTest := testMode)
  }

  lemma ConfirmWrites(r: Record, k: nat, awb: string, outcome: IntentOutcome, testMode: bool, duplicate: bool,
                      otherCarrier: bool)
    requires k < |r.intents| && (r.row.state in {Submitted, OutcomeUnknown} ==> !r.row.isTest)
    ensures var result := ConfirmTx(r, k, awb, outcome, testMode, duplicate, otherCarrier);
            && result != Aborted(RowGuard)
            && (result.Committed? ==>
                  && r.row.state in {Submitted, OutcomeUnknown}
                  && result.record == SetOutcome(r, k, if duplicate then IntentFailed else outcome)
                                      .(row := ConfirmedRow(r.row, awb, testMode, duplicate)))
  {
    hide NormalizeAwb;
  }

  lemma ConfirmedSettles(r: Record, awb: string, outcome: IntentOutcome, testMode: bool, duplicate: bool)
    requires outcome.SettledConfirmed()
    ensures SettlesRow(r, ConfirmedRow(r.row, awb, testMode, duplicate), if duplicate then IntentFailed else outcome)
  {
    hide NormalizeAwb;
  }

  /** Settling the latest attempt: the three ways out of SUBMITTED and OUTCOME_UNKNOWN. */
  lemma ConfirmKeeps(id: Uuid, r: Record, k: nat, awb: string, outcome: IntentOutcome, testMode: bool, duplicate: bool,
                     otherCarrier: bool)
    requires RecordInv(id, r) && IsLatest(r, k) && outcome.SettledConfirmed()
    ensures var result := ConfirmTx(r, k, awb, outcome, testMode, duplicate, otherCarrier);
            && result != Aborted(RowGuard)
            && (result.Committed? ==>
                  && RecordInv(id, result.record) && SameHistory(r, result.record) && !Landed(r.row.state)
                  && result.record.row.state == (if duplicate then Failed else Confirmed)
                  && (!duplicate ==> result.record.row.custody == PickupPending && result.record.row.isTest == testMode)
                  && result.record.intents[k].outcome == if duplicate then IntentFailed else outcome)
  {
    hide RecordInv, NormalizeAwb, SameHistory, ConfirmTx, SettlesRow;
    NotTestYet(id, r);
    ConfirmWrites(r, k, awb, outcome, testMode, duplicate, otherCarrier);
    ConfirmedSettles(r, awb, outcome, testMode, duplicate);
    if ConfirmTx(r, k, awb, outcome, testMode, duplicate, otherCarrier).Committed? {
      SettleKeeps(id, r, k, ConfirmedRow(r.row, awb, testMode, duplicate), if duplicate then IntentFailed else outcome);
    }
  }

  lemma SettleFailedKeeps(id: Uuid, r: Record, k: nat, from: BookingState, outcome: IntentOutcome, otherCarrier: bool)
    requires RecordInv(id, r) && IsLatest(r, k) && outcome.SettledFailed() && from in {Submitted, OutcomeUnknown}
    ensures var result := SettleFailedTx(r, k, from, outcome, otherCarrier);
            && result != Aborted(RowGuard)
            && (result.Committed? ==>
                  && RecordInv(id, result.record) && SameHistory(r, result.record)
                  && r.row.state == from && result.record.row == r.row.(state := Failed)
                     && result.record.intents[k].outcome == outcome)
  {
    hide RecordInv, SameHistory;
    var result := SettleFailedTx(r, k, from, outcome, otherCarrier);
    if result.Committed? {
      SettleKeeps(id, r, k, result.record.row, outcome);
    }
  }

  lemma MarkUnknownKeeps(id: Uuid, r: Record, k: nat, otherCarrier: bool)
    requires RecordInv(id, r) && IsLatest(r, k)
    ensures var result := MarkUnknownTx(r, k, otherCarrier);
            && result != Aborted(RowGuard)
            && (result.Committed? ==>
                  && RecordInv(id, result.record) && SameHistory(r, result.record)
                  && r.row.state == Submitted && result.record.row == r.row.(state := OutcomeUnknown)
                  && result.record.intents[k].outcome == Unknown)
  {
    hide RecordInv, SameHistory;
    var result := MarkUnknownTx(r, k, otherCarrier);
    if result.Committed? {
      SettleKeeps(id, r, k, result.record.row, Unknown);
    }
  }

  /** The transactions that touch custody only. */
  ghost predicate CustodyTx(r: Record, result: TxResult) {
    || result == RequestCancelTx(r)
    || result == SchedulePickupTx(r) || result == ReversePickupTx(r) || result == PickedUpTx(r)
    || exists previous | previous in {PickupPending, PickupScheduled} :: result == SettleRejectedTx(r, previous)
  }

  /** They write custody only, from a state in which the parcel is out of the courier's hands to one that is
      not final by cancellation. */
  lemma CustodyWrites(r: Record, result: TxResult)
    requires CustodyTx(r, result)
    ensures !result.Aborted?
    ensures result.Committed? ==>
              && result.record == r.(row := r.row.(custody := result.record.row.custody))
              && r.row.custody in {PickupPending, PickupScheduled, CancelRequested, CancelRejected}
              && result.record.row.custody in {PickupPending, PickupScheduled, CancelRequested, InCustody}
  {
  }

  lemma CustodyKeepsRow(r: Record, custody: CustodyState)
    requires |r.intents| == |r.frozen| && RowInv(r)
    requires r.row.custody in {PickupPending, PickupScheduled, CancelRequested, CancelRejected}
    requires custody in {PickupPending, PickupScheduled, CancelRequested, InCustody}
    ensures RowInv(r.(row := r.row.(custody := custody))) && r.row.state == Confirmed
  {
    hide BuildSnapshot;
  }

  lemma CustodyKeeps(id: Uuid, r: Record, result: TxResult)
    requires RecordInv(id, r) && CustodyTx(r, result)
    ensures result != Aborted(RowGuard) && result != Aborted(CollectibleGuard)
    ensures result.Committed? ==>
              && RecordInv(id, result.record) && SameHistory(r, result.record) && result.record.intents == r.intents
              && r.row.state == Confirmed && r.row.custody !in {InCustody, Cancelled}
              && result.record.row == r.row.(custody := result.record.row.custody)
  {
    hide IntentsInv, RowInv, CustodyTx;
    CustodyWrites(r, result);
    if result.Committed? {
      CustodyKeepsRow(r, result.record.row.custody);
      HistoryKeepsIntents(id, r, result.record);
    }
  }

  lemma SettleCancelledKeeps(id: Uuid, r: Record, otherCarrier: bool)
    requires RecordInv(id, r)
    ensures var result := SettleCancelledTx(r, otherCarrier);
            && !result.Aborted?
            && (result.Committed? ==>
                  && RecordInv(id, result.record) && SameHistory(r, result.record) && result.record.intents == r.intents
                  && r.row.state == Confirmed && r.row.custody == CancelRequested
                  && result.record.row.state == Void && result.record.row.isTest == r.row.isTest)
  {
    hide MerchantReference, Canonical, QueuedEntries, BuildSnapshot;
    var result := SettleCancelledTx(r, otherCarrier);
    if result.Committed? {
      HistoryKeepsIntents(id, r, result.record);
    }
  }

  lemma RouteKeeps(id: Uuid, r: Record, workingValues: string, manual: bool, otherCarrier: bool)
    requires RecordInv(id, r)
    ensures var result := RouteTx(r, workingValues, manual, otherCarrier);
            && !result.Aborted?
            && (result.Committed? ==>
                  && RecordInv(id, result.record) && SameHistory(r, result.record) && result.record.intents == r.intents
                  && r.intents == [] && !Landed(result.record.row.state)
                  && result.record.row.custody == r.row.custody && result.record.row.isTest == r.row.isTest)
  {
    hide MerchantReference, Canonical, QueuedEntries, BuildSnapshot;
    var result := RouteTx(r, workingValues, manual, otherCarrier);
    if result.Committed? {
      HistoryKeepsIntents(id, r, result.record);
    }
  }
}
