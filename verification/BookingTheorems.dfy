/** What every run of the booking protocol satisfies, whatever the courier answers and wherever the
    processes crash: the coupling of shipments and intents, custody, the ledger, the row guard and the
    frozen request. */
module BookingTheorems {
  import opened Wrappers
  import opened BookingSnapshot
  import opened ShipmentRows
  import opened BookingTransactions
  import opened RecordInvariant
  import opened BookingProtocol
  import opened BookingInvariant
  import opened BookingEvolution
  import opened BookingSafety
  import ExactlyOnce

  lemma ReachableCell(s: State, id: Uuid)
    requires Reachable(s) && id in s.cells
    ensures CellInv(id, s.cells[id])
  {
    hide CellInv;
    ReachableInv(s);
  }

  /** The later state of one shipment. */
  lemma Later(s: State, steps: seq<Step>, id: Uuid)
    requires Reachable(s) && id in s.cells
    ensures id in Run(s, steps).cells && CellEvolves(s.cells[id], Run(s, steps).cells[id])
    ensures CellInv(id, s.cells[id]) && CellInv(id, Run(s, steps).cells[id])
  {
    hide CellInv, CellEvolves, Run;
    ReachableInv(s);
    RunKeeps(s, steps);
  }

  // ---- Intents and states ----------------------------------------------------------------------------------------

  /** At most one intent is unresolved and it is the latest; its outcome and the booking state agree. */
  lemma IntentStateCoupling(s: State, id: Uuid)
    requires Reachable(s) && id in s.cells
    ensures var r := s.cells[id].record;
            var n := |r.intents|;
            && (forall k :: r.Unresolved(k) ==> IsLatest(r, k))
            && (r.row.state == Queued || r.row.state == Submitted <==> n > 0 && r.intents[n - 1].outcome == InFlight)
            && (r.row.state == OutcomeUnknown <==> n > 0 && r.intents[n - 1].outcome == Unknown)
            && (r.row.state == Failed <==> n > 0 && r.intents[n - 1].outcome.SettledFailed())
            && (Landed(r.row.state) <==> n > 0 && r.intents[n - 1].outcome.SettledConfirmed())
  {
    hide IntentsInv, WorkersInv, ResolverOk, SentInv, CountersInv, CancelInv, LedgerInv;
    ReachableCell(s, id);
    var r := s.cells[id].record;
    forall k | r.Unresolved(k)
      ensures IsLatest(r, k)
    {
      UnresolvedIsLatest(id, r, k);
    }
  }

  /** A settled intent keeps its outcome, and every intent its reference and digest, for the rest of the run. */
  lemma SettledForever(s: State, steps: seq<Step>, id: Uuid, k: nat)
    requires Reachable(s) && id in s.cells && k < |s.cells[id].record.intents|
    ensures var intent := s.cells[id].record.intents[k];
            id in Run(s, steps).cells
            && var r' := Run(s, steps).cells[id].record;
               && k < |r'.intents| && r'.intents[k].reference == intent.reference
                  && r'.intents[k].digest == intent.digest
               && (intent.outcome.Settled() ==> r'.intents[k].outcome == intent.outcome)
  {
    hide CellInv, Run;
    Later(s, steps, id);
  }

  /** No two attempts of any run share a merchant reference. */
  lemma AllReferencesDistinct(s: State, a: Uuid, i: nat, b: Uuid, j: nat)
    requires Reachable(s) && a in s.cells && b in s.cells
    requires i < |s.cells[a].record.intents| && j < |s.cells[b].record.intents| && (a != b || i != j)
    ensures s.cells[a].record.intents[i].reference != s.cells[b].record.intents[j].reference
  {
    hide CellInv, Reachable, AwbUnique, SingleCarrier;
    ReachableInv(s);
    if s.cells[a].record.intents[i].reference == s.cells[b].record.intents[j].reference {
      ExactlyOnce.ReferencesDistinct(s, a, i, b, j);
    }
  }

  // ---- AWBs --------------------------------------------------------------------------------------------------------

  /** No two non-VOID shipments share shop, account and AWB; an AWB is present exactly in CONFIRMED and VOID;
      a shipment that has one keeps it, and VOID is never left. */
  lemma AwbUniqueness(s: State, steps: seq<Step>, id: Uuid)
    requires Reachable(s) && id in s.cells
    ensures AwbUnique(s)
    ensures var row := s.cells[id].record.row;
            && (row.awb.Some? <==> row.state == Confirmed || row.state == Void)
            && id in Run(s, steps).cells
            && (row.awb.Some? ==> Run(s, steps).cells[id].record.row.awb == row.awb)
            && (row.state == Void ==> Run(s, steps).cells[id].record.row == row)
  {
    hide Run, IntentsInv, WorkersInv, ResolverOk, SentInv, CountersInv, CancelInv, LedgerInv;
    assert Inv(s) by { ReachableInv(s); }
    Later(s, steps, id);
  }

  /** In columns: of two shipments of one shop and account that both show an AWB and are not VOID, the AWBs
      differ; of two of one order with an AWB, not VOID, at most one collects. */
  lemma NoTwoAlike(s: State, a: Uuid, b: Uuid)
    requires Reachable(s) && a in s.cells && b in s.cells && a != b
    requires s.cells[a].record.row.awb.Some? && s.cells[a].record.row.state != Void
    requires s.cells[b].record.row.awb.Some? && s.cells[b].record.row.state != Void
    ensures var x, y := s.cells[a].record.row, s.cells[b].record.row;
            && (x.shop == y.shop && x.account == y.account ==> x.awb != y.awb)
            && (x.order == y.order ==> x.collectible == 0 || y.collectible == 0)
  {
    hide Reachable, CellInv;
    ReachableInv(s);
    HolderHasAccount(s, a);
  }

  // ---- Custody and cancellation -------------------------------------------------------------------------------

  /** Pickup is the point of no return: the row of a collected shipment never changes again, it is not VOID,
      and its debit is not reversed. */
  lemma PickupIsFinal(s: State, steps: seq<Step>, id: Uuid)
    requires Reachable(s) && id in s.cells && s.cells[id].record.row.custody == InCustody
    ensures id in Run(s, steps).cells
    ensures var c' := Run(s, steps).cells[id];
            && c'.record.row == s.cells[id].record.row && c'.record.row.state == Confirmed
            && c'.reversals == 0 && c'.overageReversals == 0 && Reversal !in c'.ledger
            && forall call :: call in c'.cancels ==> c'.cancels[call] != Done(true)
  {
    hide Run, IntentsInv, WorkersInv, ResolverOk, SentInv, CountersInv;
    Later(s, steps, id);
    var c' := Run(s, steps).cells[id];
    forall call | call in c'.cancels
      ensures c'.cancels[call] != Done(true)
    {
      assert CancelOk(c'.record.row, c'.reversals, c'.overageReversals, c'.cancels[call]);
    }
  }

  /** IN_CUSTODY is exactly what a courier pickup event leaves, and it is permanent. */
  lemma PickedUpIsCustody(s: State, id: Uuid)
    requires Reachable(s) && id in s.cells
    ensures s.cells[id].pickedUp <==> s.cells[id].record.row.custody == InCustody
    ensures s.cells[id].record.row.state == Void <==> s.cells[id].record.row.custody == Cancelled
    ensures s.cells[id].record.row.custody == NotApplicable <==> !Landed(s.cells[id].record.row.state)
    ensures s.cells[id].record.row.custody != CancelRejected
  {
    hide IntentsInv, WorkersInv, ResolverOk, SentInv, CountersInv, CancelInv, LedgerInv;
    ReachableCell(s, id);
  }

  /** A cancellation that answered `cancelled: true` left the shipment VOID for good; at most one
      cancellation is under way and the ledger reversal is attempted at most once. */
  lemma CancelledIsVoid(s: State, steps: seq<Step>, id: Uuid, call: nat)
    requires Reachable(s) && id in s.cells
    ensures var c := s.cells[id];
            && (call in c.cancels && c.cancels[call] == Done(true) ==>
                  id in Run(s, steps).cells && Run(s, steps).cells[id].record.row.state == Void)
            && c.reversals <= 1 && c.overageReversals <= c.reversals
            && (forall other ::
                  call in c.cancels && other in c.cancels && other != call && c.cancels[call].Active() ==>
                    !c.cancels[other].Active())
  {
    hide Run, IntentsInv, WorkersInv, ResolverOk, SentInv, CountersInv;
    Later(s, steps, id);
    var c := s.cells[id];
    if call in c.cancels {
      assert CancelOk(c.record.row, c.reversals, c.overageReversals, c.cancels[call]);
    }
  }

  // ---- The ledger ---------------------------------------------------------------------------------------------

  function Count(ledger: seq<Direction>, d: Direction): nat {
    if ledger == [] then 0 else (if ledger[0] == d then 1 else 0) + Count(ledger[1..], d)
  }

  lemma {:induction false} CountDistinct(ledger: seq<Direction>, d: Direction)
    requires forall i, j :: 0 <= i < j < |ledger| ==> ledger[i] != ledger[j]
    ensures Count(ledger, d) == if d in ledger then 1 else 0
  {
    if ledger != [] {
      CountDistinct(ledger[1..], d);
      assert ledger == [ledger[0]] + ledger[1..];
      assert d in ledger <==> ledger[0] == d || d in ledger[1..];
    }
  }

  /** At most one DEBIT and one REVERSAL; a DEBIT only for a live shipment that was confirmed, a REVERSAL only
      for one that is VOID; entries are never taken back. */
  lemma LedgerSafety(s: State, steps: seq<Step>, id: Uuid)
    requires Reachable(s) && id in s.cells
    ensures var c := s.cells[id];
            && Count(c.ledger, Debit) <= 1 && Count(c.ledger, Reversal) <= 1
            && (Debit in c.ledger ==> c.confirms == 1 && !c.record.row.isTest && Landed(c.record.row.state))
            && (Reversal in c.ledger ==> c.record.row.state == Void && !c.record.row.isTest)
            && (Reversal in c.ledger <==> c.reversals == 1)
            && c.overageRecords <= 1 && (c.overageRecords == 1 ==> Debit in c.ledger)
            && id in Run(s, steps).cells && c.ledger <= Run(s, steps).cells[id].ledger
  {
    hide Run, IntentsInv, WorkersInv, ResolverOk, SentInv, CancelInv;
    Later(s, steps, id);
    CountDistinct(s.cells[id].ledger, Debit);
    CountDistinct(s.cells[id].ledger, Reversal);
  }

  /** A shipment is confirmed at most once in its life. */
  lemma ConfirmedOnce(s: State, id: Uuid)
    requires Reachable(s) && id in s.cells
    ensures s.cells[id].confirms == if Landed(s.cells[id].record.row.state) then 1 else 0
  {
    hide IntentsInv, RowInv, WorkersInv, ResolverOk, SentInv, CancelInv, LedgerInv;
    ReachableCell(s, id);
  }

  // ---- The row guard ------------------------------------------------------------------------------------------

  /** The transaction a step runs, if it runs one. */
  function TransactionOf(s: State, step: Step): Option<TxResult> {
    if Subject(step).None? || Subject(step).value !in s.cells then None else
      var c := s.cells[Subject(step).value];
      if step.Route? then Some(RouteTx(c.record, step.workingValues, step.manual, step.seen.write))
      else if step.QueueBooking? then Some(QueueTx(c.record, step.id, step.input, Outstanding(s, c.record.row.order),
                                                   step.seen))
      else if step.ClaimJob? then Some(ClaimTx(c.record, step.k, step.seen.write))
      else if step.SettleWorker? && step.k in c.workers && c.workers[step.k].Answered? && step.k < |c.record.intents|
      then Some(SettleWorkerTx(c, step.k, step.testMode, step.seen))
      else if step.SettleResolver? && c.resolver.Looked? && c.resolver.k < |c.record.intents|
      then Some(SettleResolverTx(c, step.testMode, step.seen))
      else if step.RequestCancel? then Some(RequestCancelTx(c.record))
      else if step.SettleCancel? && step.call in c.cancels && c.cancels[step.call].Replied?
      then match c.cancels[step.call].verdict
           case CancelAccepted => Some(SettleCancelledTx(c.record, step.seen.write))
           case CancelRefused => Some(SettleRejectedTx(c.record, c.cancels[step.call].previous))
           case CancelAmbiguous => None
      else if step.SchedulePickup? then Some(SchedulePickupTx(c.record))
      else if step.ReversePickup? then Some(ReversePickupTx(c.record))
      else if step.PickedUp? then Some(PickedUpTx(c.record))
      else None
  }

  lemma BookingPassesGuard(s: State, step: Step, id: Uuid)
    requires Subject(step) == Some(id) && id in s.cells && CellInv(id, s.cells[id])
    requires step.Route? || step.QueueBooking? || step.ClaimJob?
    ensures TransactionOf(s, step) != Some(Aborted(RowGuard))
  {
    hide CellInv, RecordInv, RouteTx, QueueTx, ClaimTx;
    var c := s.cells[id];
    CellRows(id, c);
    if step.Route? {
      RouteKeeps(id, c.record, step.workingValues, step.manual, step.seen.write);
    } else if step.QueueBooking? {
      RecordInvariant.QueueKeeps(id, c.record, step.input, Outstanding(s, c.record.row.order), step.seen);
    } else {
      RecordInvariant.ClaimKeeps(id, c.record, step.k, step.seen.write);
    }
  }

  lemma SettlingPassesGuard(s: State, step: Step, id: Uuid)
    requires Subject(step) == Some(id) && id in s.cells && CellInv(id, s.cells[id])
    requires step.SettleWorker? || step.SettleResolver?
    ensures TransactionOf(s, step) != Some(Aborted(RowGuard))
  {
    hide CellInv, RecordInv, SettleWorkerTx, SettleResolverTx, SettlesTo;
    var c := s.cells[id];
    if step.SettleWorker? {
      if step.k in c.workers && c.workers[step.k].Answered? && step.k < |c.record.intents| {
        SettleWorkerTxKeeps(id, c, step.k, step.testMode, step.seen);
      }
    } else if c.resolver.Looked? && c.resolver.k < |c.record.intents| {
      SettleResolverTxKeeps(id, c, step.testMode, step.seen);
    }
  }

  lemma CancelPassesGuard(s: State, step: Step, id: Uuid)
    requires step.SettleCancel? && step.id == id && id in s.cells && CellInv(id, s.cells[id])
    ensures TransactionOf(s, step) != Some(Aborted(RowGuard))
  {
    hide CellInv, RecordInv, CustodyTx, SettleCancelledTx, SettleRejectedTx;
    var c := s.cells[id];
    if step.call in c.cancels && c.cancels[step.call].Replied? {
      CellRows(id, c);
      SettleCancelledKeeps(id, c.record, step.seen.write);
      RepliedRow(id, c, step.call);
      RejectedIsCustody(c.record, c.cancels[step.call].previous);
      CustodyKeeps(id, c.record, SettleRejectedTx(c.record, c.cancels[step.call].previous));
    }
  }

  lemma CustodyPassesGuard(s: State, step: Step, id: Uuid)
    requires Subject(step) == Some(id) && id in s.cells && RecordInv(id, s.cells[id].record)
    requires step.RequestCancel? || step.SchedulePickup? || step.ReversePickup? || step.PickedUp?
    ensures TransactionOf(s, step) != Some(Aborted(RowGuard))
  {
    hide RecordInv, CustodyTx, RequestCancelTx, SchedulePickupTx, ReversePickupTx, PickedUpTx;
    var r := s.cells[id].record;
    CustodyTxs(r);
    if step.RequestCancel? {
      CustodyKeeps(id, r, RequestCancelTx(r));
    } else if step.SchedulePickup? {
      CustodyKeeps(id, r, SchedulePickupTx(r));
    } else if step.ReversePickup? {
      CustodyKeeps(id, r, ReversePickupTx(r));
    } else {
      CustodyKeeps(id, r, PickedUpTx(r));
    }
  }

  lemma RejectedIsCustody(r: Record, previous: CustodyState)
    requires previous in {PickupPending, PickupScheduled}
    ensures CustodyTx(r, SettleRejectedTx(r, previous))
  {
  }

  /** guard_shipment_row refuses no write that the services issue in a reachable state, and the worker never
      meets a claimed shipment without a snapshot. */
  lemma ServicesRefineRowGuard(s: State, step: Step)
    requires Reachable(s)
    ensures TransactionOf(s, step) != Some(Aborted(RowGuard))
    ensures step.ClaimJob? && TransactionOf(s, step).Some? && TransactionOf(s, step).value.Committed? ==>
              step.k < |s.cells[step.id].record.frozen|
              && s.cells[step.id].record.row.snapshot == Some(s.cells[step.id].record.frozen[step.k].Snapshot())
  {
    hide CellInv, RecordInv, TransactionOf;
    if Subject(step).Some? && Subject(step).value in s.cells {
      var id := Subject(step).value;
      ReachableCell(s, id);
      CellRows(id, s.cells[id]);
      if step.Route? || step.QueueBooking? || step.ClaimJob? {
        BookingPassesGuard(s, step, id);
      } else if step.SettleWorker? || step.SettleResolver? {
        SettlingPassesGuard(s, step, id);
      } else if step.SettleCancel? {
        CancelPassesGuard(s, step, id);
      } else if step.RequestCancel? || step.SchedulePickup? || step.ReversePickup? || step.PickedUp? {
        CustodyPassesGuard(s, step, id);
      } else {
        NoTransaction(s, step);
      }
      ClaimsFrozen(s, step, id);
    } else {
      NoTransaction(s, step);
    }
  }

  lemma NoTransaction(s: State, step: Step)
    requires Subject(step).None? || Subject(step).value !in s.cells || !(
               step.Route? || step.QueueBooking? || step.ClaimJob? || step.SettleWorker? || step.SettleResolver?
                   || step.SettleCancel?
               || step.RequestCancel? || step.SchedulePickup? || step.ReversePickup? || step.PickedUp?)
    ensures TransactionOf(s, step).None?
  {
  }

  lemma ClaimsFrozen(s: State, step: Step, id: Uuid)
    requires Subject(step) == Some(id) && id in s.cells && RecordInv(id, s.cells[id].record)
    ensures step.ClaimJob? && TransactionOf(s, step).Some? && TransactionOf(s, step).value.Committed? ==>
              step.k < |s.cells[id].record.frozen|
              && s.cells[id].record.row.snapshot == Some(s.cells[id].record.frozen[step.k].Snapshot())
  {
    hide RecordInv, ClaimTx;
    if step.ClaimJob? {
      RecordInvariant.ClaimKeeps(id, s.cells[id].record, step.k, step.seen.write);
      ClaimInFrozen(id, s.cells[id].record, step.k, step.seen.write);
    }
  }

  lemma ClaimInFrozen(id: Uuid, r: Record, k: nat, otherCarrier: bool)
    requires RecordInv(id, r)
    ensures ClaimTx(r, k, otherCarrier).Committed? ==> k < |r.frozen|
  {
    hide IntentsInv, RowInv;
  }

  /** The snapshot is that of the latest attempt, so it changes exactly when an attempt is frozen; is_test,
      the account and the snapshot never change once the shipment has landed. */
  lemma SnapshotOncePerIntent(s: State, steps: seq<Step>, id: Uuid)
    requires Reachable(s) && id in s.cells
    ensures id in Run(s, steps).cells
    ensures var r, r' := s.cells[id].record, Run(s, steps).cells[id].record;
            && |r.frozen| == |r.intents|
            && r.row.snapshot == (if r.intents == [] then None else Some(r.frozen[|r.intents| - 1].Snapshot()))
            && |r.intents| <= |r'.intents|
            && (|r'.intents| == |r.intents| ==> r'.row.snapshot == r.row.snapshot)
            && (Landed(r.row.state) ==> r'.row.isTest == r.row.isTest && r'.row.snapshot == r.row.snapshot
                                        && |r'.intents| == |r.intents|)
            && (!Landed(r.row.state) ==> !r.row.isTest)
  {
    hide Run, BuildSnapshot, IntentsInv, WorkersInv, ResolverOk, SentInv, CancelInv, LedgerInv;
    Later(s, steps, id);
    if Landed(s.cells[id].record.row.state) {
      SettledHistory(id, s.cells[id], Run(s, steps).cells[id]);
    }
  }

  // ---- The frozen request -------------------------------------------------------------------------------------

  /** Every create ever sent for an intent was built from what the intent froze, however often the shipment
      has been queued again since, and the digest recomputed over the request is the stored one. */
  lemma FrozenRequest(s: State, steps: seq<Step>, id: Uuid, i: nat)
    requires Reachable(s) && id in s.cells && i < |s.cells[id].sent|
    ensures var c := s.cells[id];
            var k, request := c.sent[i].0, c.sent[i].1;
            && k < |c.record.intents| && k < |c.record.frozen|
            && request == BuildRequest(c.record.intents[k].reference, c.record.intents[k].digest,
                                       c.record.frozen[k].Snapshot())
            && Canonical(SentEntries(id, c.record.frozen[k].input.accountId, request)) == c.record.intents[k].digest
            && request.digest == c.record.intents[k].digest
            && id in Run(s, steps).cells && c.sent <= Run(s, steps).cells[id].sent
  {
    hide Run, RowInv, WorkersInv, ResolverOk, CancelInv, LedgerInv, CountersInv, Canonical, QueuedEntries;
    hide SentEntries, MerchantReference, BuildSnapshot;
    Later(s, steps, id);
    var r, k := s.cells[id].record, s.cells[id].sent[i].0;
    assert IntentFrozen(id, r.row.shop, k, r.intents[k], r.frozen[k]);
    SentDigestIsQueuedDigest(r.intents[k].reference, id, r.frozen[k].input, r.frozen[k].collectible,
                             r.intents[k].digest);
  }
}
