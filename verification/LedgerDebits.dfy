/** When the DEBIT of a confirmed shipment is in the entitlement ledger: after the confirmation has committed it
    is written unless the process that confirmed has not got there yet, died, or found no subscription. */
module LedgerDebits {
  import opened Wrappers
  import opened BookingSnapshot
  import opened ShipmentRows
  import opened BookingTransactions
  import opened RecordInvariant
  import opened BookingProtocol
  import opened BookingInvariant
  import opened BookingEvolution
  import opened BookingSafety

  /** A process has confirmed the shipment for real and is about to debit. */
  predicate Pending(c: Cell) {
    || (exists k :: k in c.workers && c.workers[k] == AfterConfirm(false))
    || c.resolver == ResolverAfterConfirm(false)
  }

  /** The step ends that process without a debit: it dies, or finds no active subscription. */
  predicate DropsDebit(c: Cell, step: Step) {
    || ((step.CrashWorker? || (step.DebitByWorker? && !step.subscribed)) && step.k in c.workers
        && c.workers[step.k] == AfterConfirm(false))
    || ((step.CrashResolver? || (step.DebitByResolver? && !step.subscribed))
        && c.resolver == ResolverAfterConfirm(false))
  }

  /** Some step of the run dropped the shipment's debit. */
  ghost predicate Dropped(s: State, steps: seq<Step>, id: Uuid) {
    steps != [] &&
      var front, last := steps[..|steps| - 1], steps[|steps| - 1];
      || Dropped(s, front, id)
      || (Subject(last) == Some(id) && id in Run(s, front).cells && DropsDebit(Run(s, front).cells[id], last))
  }

  predicate Live(c: Cell) {
    Landed(c.record.row.state) && !c.record.row.isTest
  }

  /** A live shipment's debit is in exactly one place; any other shipment has none anywhere. */
  predicate DebitInv(c: Cell, dropped: bool) {
    if Live(c) then
      && (Debit in c.ledger || Pending(c) || dropped)
      && !(Debit in c.ledger && Pending(c)) && !(Debit in c.ledger && dropped) && !(Pending(c) && dropped)
    else Debit !in c.ledger && !Pending(c) && !dropped
  }

  // ---- Steps that have nothing to do with it ------------------------------------------------------------------

  ghost predicate SameDebit(c: Cell, c': Cell) {
    (Debit in c'.ledger <==> Debit in c.ledger) && Pending(c') == Pending(c) && Live(c') == Live(c)
  }

  /** Ledger, workers and resolver as they were, the subject landed as before. */
  lemma UntouchedDebit(c: Cell, c': Cell)
    requires c'.ledger == c.ledger && c'.workers == c.workers && c'.resolver == c.resolver && Live(c') == Live(c)
    ensures SameDebit(c, c')
  {
  }

  /** Only settling lands a shipment, and what has landed stays landed and as real as it was. */
  lemma LiveStays(id: Uuid, c: Cell, step: Step, outstanding: Option<nat>)
    requires CellInv(id, c) && Subject(step) == Some(id) && !step.SettleWorker? && !step.SettleResolver?
    ensures Live(CellStep(c, step, outstanding)) == Live(c)
  {
    hide CellInv, CellStep, RecordInv;
    CellRows(id, c);
    if Landed(c.record.row.state) {
      StepEvolves(id, c, step, outstanding);
    } else {
      OthersDoNotLand(id, c, step, outstanding);
    }
  }

  ghost predicate OnlyRows(c: Cell, c': Cell) {
    c'.ledger == c.ledger && c'.workers == c.workers && c'.resolver == c.resolver
  }

  lemma RowStepsLeave(c: Cell, step: Step, outstanding: Option<nat>)
    requires step.Route? || step.QueueBooking? || step.SchedulePickup? || step.ReversePickup?
    ensures OnlyRows(c, CellStep(c, step, outstanding))
  {
    hide QueueTx, RouteTx, SchedulePickupTx, ReversePickupTx;
  }

  lemma CustodyStepsLeave(c: Cell, step: Step, outstanding: Option<nat>)
    requires step.RequestCancel? || step.PickedUp? || step.SettleCancel?
    ensures OnlyRows(c, CellStep(c, step, outstanding))
  {
    hide RequestCancelTx, PickedUpTx, SettleCancelledTx, SettleRejectedTx;
  }

  lemma CancelCallsLeave(c: Cell, step: Step, outstanding: Option<nat>)
    requires step.CancelAnswered? || step.ReverseLedger? || step.ReverseOverage? || step.CrashCancel?
             || step.ForgetMemo? || step.InsertShipment?
    ensures var c' := CellStep(c, step, outstanding);
            (Debit in c'.ledger <==> Debit in c.ledger) && c'.workers == c.workers && c'.resolver == c.resolver
  {
  }

  /** A worker not yet past its confirmation moves on without passing it. */
  lemma WorkerMoves(c: Cell, c': Cell, k: nat)
    requires c'.ledger == c.ledger && c'.resolver == c.resolver && Live(c') == Live(c)
    requires k in c.workers ==> c.workers[k] != AfterConfirm(false)
    requires c'.workers == c.workers || c'.workers == c.workers - {k}
             || (k in c'.workers && c'.workers[k] != AfterConfirm(false) && c'.workers == c.workers[k := c'.workers[k]])
    ensures SameDebit(c, c')
  {
    assert forall j :: j != k ==> (j in c'.workers <==> j in c.workers)
                                  && (j in c.workers ==> c'.workers[j] == c.workers[j]);
  }

  lemma ResolverMoves(c: Cell, c': Cell)
    requires c'.ledger == c.ledger && c'.workers == c.workers && Live(c') == Live(c)
    requires c.resolver != ResolverAfterConfirm(false) && c'.resolver != ResolverAfterConfirm(false)
    ensures SameDebit(c, c')
  {
  }

  lemma WorkerCallsKeep(c: Cell, step: Step, outstanding: Option<nat>)
    requires step.ClaimJob? || step.SendCreate? || step.CreateAnswered? || step.OverageByWorker?
    requires Live(CellStep(c, step, outstanding)) == Live(c)
    ensures SameDebit(c, CellStep(c, step, outstanding))
  {
    hide ClaimTx, BuildRequest, WorkerAnswer, Memoised, SameDebit, Live;
    if step.k in c.workers && c.workers[step.k] == AfterConfirm(false) {
      hide Pending;
      UntouchedDebit(c, CellStep(c, step, outstanding));
    } else {
      WorkerMoves(c, CellStep(c, step, outstanding), step.k);
    }
  }

  lemma ResolverCallsKeep(c: Cell, step: Step, outstanding: Option<nat>)
    requires step.ResolverSees? || step.ResolverLoads? || step.ResolverLooks? || step.OverageByResolver?
    requires Live(CellStep(c, step, outstanding)) == Live(c)
    ensures SameDebit(c, CellStep(c, step, outstanding))
  {
    hide SameDebit, Live, Pending;
    if c.resolver == ResolverAfterConfirm(false) {
      UntouchedDebit(c, CellStep(c, step, outstanding));
    } else {
      ResolverMoves(c, CellStep(c, step, outstanding));
    }
  }

  // ---- The debit ----------------------------------------------------------------------------------------------

  /** The one process that can be about to debit. */
  lemma OnePending(id: Uuid, c: Cell)
    requires CellInv(id, c)
    ensures forall k :: k in c.workers && c.workers[k] == AfterConfirm(false) ==>
              c.workers - {k} == map[] && c.resolver != ResolverAfterConfirm(false)
    ensures forall k :: k in c.workers && c.workers[k].AfterConfirm? ==>
              Landed(c.record.row.state) && c.workers[k].test == c.record.row.isTest
    ensures c.resolver.ResolverAfterConfirm? ==> Landed(c.record.row.state) && c.resolver.test == c.record.row.isTest
  {
    hide BuildRequest, BuildSnapshot, IntentsInv, RequestOf, SentInv, CancelInv, LedgerInv, CountersInv;
    forall k | k in c.workers && c.workers[k].AfterConfirm?
      ensures c.workers - {k} == map[] && !c.resolver.ResolverAfterConfirm?
      ensures Landed(c.record.row.state) && c.workers[k].test == c.record.row.isTest
    {
      OnlyWorker(id, c, k, c.workers[k]);
      assert WorkerOk(c.record, c.ledger, c.overageRecords, k, c.workers[k]);
    }
  }

  lemma NoneLeft(c: Cell)
    requires c.workers == map[] && c.resolver != ResolverAfterConfirm(false)
    ensures !Pending(c)
  {
  }

  /** The confirming process debits, and nobody else is about to. */
  lemma Debited(c: Cell, c': Cell, dropped: bool)
    requires DebitInv(c, dropped) && Pending(c) && Live(c') == Live(c) && !Pending(c')
    requires c'.ledger == InsertOnce(c.ledger, Debit)
    ensures DebitInv(c', dropped)
  {
    hide Live, Pending;
    assert Debit in c'.ledger;
  }

  /** The confirming process is gone without a debit. */
  lemma Undebited(c: Cell, c': Cell, dropped: bool)
    requires DebitInv(c, dropped) && Pending(c) && Live(c') == Live(c) && !Pending(c') && c'.ledger == c.ledger
    ensures DebitInv(c', true)
  {
    hide Live, Pending;
  }

  lemma WorkerDebits(id: Uuid, c: Cell, step: Step, outstanding: Option<nat>, dropped: bool)
    requires CellInv(id, c) && DebitInv(c, dropped) && (step.DebitByWorker? || step.CrashWorker?)
    requires Live(CellStep(c, step, outstanding)) == Live(c)
    ensures DebitInv(CellStep(c, step, outstanding), dropped || DropsDebit(c, step))
  {
    hide CellInv, DebitInv, Live, InsertOnce, SameDebit;
    OnePending(id, c);
    var c' := CellStep(c, step, outstanding);
    if step.k in c.workers && c.workers[step.k] == AfterConfirm(false) {
      assert forall k :: k in c'.workers ==> k == step.k && c'.workers[k] == AfterDebit by {
        assert forall k :: k in c.workers && k != step.k ==> k in c.workers - {step.k};
      }
      if step.CrashWorker? || !step.subscribed {
        Undebited(c, c', dropped);
      } else {
        Debited(c, c', dropped);
      }
    } else {
      hide Pending;
      DebitMovesOther(c, c', step);
      KeepsInv(c, c', dropped);
    }
  }

  lemma DebitMovesOther(c: Cell, c': Cell, step: Step)
    requires step.DebitByWorker? || step.CrashWorker?
    requires !(step.k in c.workers && c.workers[step.k] == AfterConfirm(false)) && Live(c') == Live(c)
    requires c' == if step.DebitByWorker? then WorkerDebitStep(c, step.k, step.subscribed) else DropWorker(c, step.k)
    ensures SameDebit(c, c')
  {
    hide Live, SameDebit;
    WorkerMoves(c, c', step.k);
  }

  lemma KeepsInv(c: Cell, c': Cell, dropped: bool)
    requires DebitInv(c, dropped) && SameDebit(c, c')
    ensures DebitInv(c', dropped)
  {
  }

  lemma ResolverDebits(id: Uuid, c: Cell, step: Step, outstanding: Option<nat>, dropped: bool)
    requires CellInv(id, c) && DebitInv(c, dropped) && (step.DebitByResolver? || step.CrashResolver?)
    requires Live(CellStep(c, step, outstanding)) == Live(c)
    ensures DebitInv(CellStep(c, step, outstanding), dropped || DropsDebit(c, step))
  {
    hide CellInv, DebitInv, Live, InsertOnce, SameDebit;
    OnePending(id, c);
    var c' := CellStep(c, step, outstanding);
    if c.resolver == ResolverAfterConfirm(false) {
      assert forall k :: k in c.workers ==> c.workers[k] != AfterConfirm(false);
      if step.CrashResolver? || !step.subscribed {
        Undebited(c, c', dropped);
      } else {
        Debited(c, c', dropped);
      }
    } else {
      hide Pending;
      ResolverMoves(c, c');
      KeepsInv(c, c', dropped);
    }
  }

  // ---- Settling -----------------------------------------------------------------------------------------------

  /** Before a settlement nothing of a debit exists; afterwards the confirming process owes it, if the shipment
      is live. */
  lemma SettledDebit(id: Uuid, c: Cell, c': Cell, dropped: bool)
    requires CellInv(id, c) && DebitInv(c, dropped) && !Landed(c.record.row.state) && c'.ledger == c.ledger
    requires CellInv(id, c') && (Landed(c'.record.row.state) ==>
               (exists k, test :: k in c'.workers && c'.workers[k] == AfterConfirm(test))
                   || c'.resolver.ResolverAfterConfirm?)
    ensures DebitInv(c', dropped)
  {
    OnePending(id, c');
    hide CellInv;
  }

  /** A settlement lands the shipment only by confirming it. */
  lemma ConfirmsOrNot(id: Uuid, r: Record, result: TxResult, outcome: IntentOutcome, testMode: bool)
    requires SettlesTo(id, r, result, outcome, testMode) && result.Committed?
    ensures Landed(result.record.row.state) <==> result.record.row.state == Confirmed
  {
    hide RecordInv, SameHistory;
  }

  lemma WorkerSettles(id: Uuid, c: Cell, k: nat, testMode: bool, seen: Reads)
    requires CellInv(id, c)
    ensures var c' := SettleWorkerStep(c, k, testMode, seen);
            && c'.ledger == c.ledger
            && (c' == c || (!Landed(c.record.row.state)
                            && (Landed(c'.record.row.state) ==>
                                k in c'.workers && c'.workers[k] == AfterConfirm(testMode))))
  {
    hide CellInv, SettleWorkerTx, SettlesTo;
    if k in c.workers && c.workers[k].Answered? && k < |c.record.intents| {
      AnsweredIsSubmitted(id, c, k);
      SettleWorkerTxKeeps(id, c, k, testMode, seen);
      var result := SettleWorkerTx(c, k, testMode, seen);
      if result.Committed? {
        ConfirmsOrNot(id, c.record, result, IntentConfirmed, testMode);
      }
    }
  }

  lemma ResolverSettles(id: Uuid, c: Cell, testMode: bool, seen: Reads)
    requires CellInv(id, c)
    ensures var c' := SettleResolverStep(c, testMode, seen);
            && c'.ledger == c.ledger
            && (c' == c || (!Landed(c.record.row.state)
                            && (Landed(c'.record.row.state) ==> c'.resolver.ResolverAfterConfirm?)))
  {
    hide CellInv, SettleResolverTx, SettlesTo;
    if c.resolver.Looked? && c.resolver.k < |c.record.intents| {
      LookedIsUnknown(id, c);
      SettleResolverTxKeeps(id, c, testMode, seen);
      var result := SettleResolverTx(c, testMode, seen);
      if result.Committed? {
        ConfirmsOrNot(id, c.record, result, ResolvedConfirmed, testMode);
      }
    }
  }

  lemma SettlingKeeps(id: Uuid, c: Cell, step: Step, outstanding: Option<nat>, dropped: bool)
    requires CellInv(id, c) && DebitInv(c, dropped) && Subject(step) == Some(id)
    requires (step.SettleWorker? || step.SettleResolver?)
    ensures DebitInv(CellStep(c, step, outstanding), dropped)
  {
    hide CellInv, SettleWorkerStep, SettleResolverStep, DebitInv;
    var c' := CellStep(c, step, outstanding);
    StepKeepsCell(id, c, step, outstanding);
    if step.SettleWorker? {
      WorkerSettles(id, c, step.k, step.testMode, step.seen);
    } else {
      ResolverSettles(id, c, step.testMode, step.seen);
    }
    if c' != c {
      SettledDebit(id, c, c', dropped);
    }
  }

  // ---- Every step ---------------------------------------------------------------------------------------------

  lemma QuietStepsKeep(c: Cell, step: Step, outstanding: Option<nat>)
    requires !step.SettleWorker? && !step.SettleResolver? && !step.DebitByWorker? && !step.CrashWorker?
    requires !step.DebitByResolver?
             && !step.CrashResolver? && Subject(step).Some?
    requires Live(CellStep(c, step, outstanding)) == Live(c)
    ensures SameDebit(c, CellStep(c, step, outstanding))
  {
    hide CellStep, Live, Pending;
    if step.ClaimJob? || step.SendCreate? || step.CreateAnswered? || step.OverageByWorker? {
      WorkerCallsKeep(c, step, outstanding);
    } else if step.ResolverSees? || step.ResolverLoads? || step.ResolverLooks? || step.OverageByResolver? {
      ResolverCallsKeep(c, step, outstanding);
    } else if step.CancelAnswered? || step.ReverseLedger? || step.ReverseOverage? || step.CrashCancel?
       || step.ForgetMemo? || step.InsertShipment? {
      CancelCallsLeave(c, step, outstanding);
      SamePending(c, CellStep(c, step, outstanding));
    } else {
      if step.RequestCancel? || step.PickedUp? || step.SettleCancel? {
        CustodyStepsLeave(c, step, outstanding);
      } else {
        RowStepsLeave(c, step, outstanding);
      }
      SamePending(c, CellStep(c, step, outstanding));
    }
  }

  lemma SamePending(c: Cell, c': Cell)
    requires c'.workers == c.workers && c'.resolver == c.resolver
    ensures Pending(c') == Pending(c)
  {
  }

  /** Every step leaves the debit of its shipment in exactly one place; it goes missing by the steps that drop it. */
  lemma StepKeepsDebit(id: Uuid, c: Cell, step: Step, outstanding: Option<nat>, dropped: bool)
    requires CellInv(id, c) && DebitInv(c, dropped) && Subject(step) == Some(id)
    ensures DebitInv(CellStep(c, step, outstanding), dropped || DropsDebit(c, step))
  {
    hide CellInv, CellStep, DebitInv, Live, SameDebit;
    if step.SettleWorker? || step.SettleResolver? {
      SettlingKeeps(id, c, step, outstanding, dropped);
    } else {
      LiveStays(id, c, step, outstanding);
      if step.DebitByWorker? || step.CrashWorker? {
        WorkerDebits(id, c, step, outstanding, dropped);
      } else if step.DebitByResolver? || step.CrashResolver? {
        ResolverDebits(id, c, step, outstanding, dropped);
      } else {
        QuietStepsKeep(c, step, outstanding);
        KeepsInv(c, CellStep(c, step, outstanding), dropped);
      }
    }
  }

  lemma ApplyKeepsDebit(s: State, step: Step, id: Uuid, dropped: bool)
    requires Inv(s) && id in Apply(s, step).cells && (id in s.cells ==> DebitInv(s.cells[id], dropped))
    requires (id !in s.cells ==> !dropped)
    ensures DebitInv(Apply(s, step).cells[id], dropped
                     || (Subject(step) == Some(id) && id in s.cells && DropsDebit(s.cells[id], step)))
  {
    hide CellInv, CellStep, DebitInv, DropsDebit, Effect, AwbUnique, SingleCarrier, ReadsOk;
    if Subject(step) == Some(id) && id in s.cells && DropsDebit(s.cells[id], step) {
      DropsAlways(s, step, id);
    }
    if ReadsOk(s, step) {
      EffectOnCells(s, step);
      if id !in s.cells {
        NewCellOwesNothing(step.shop, step.order, step.workingValues);
      } else if Subject(step) == Some(id) {
        StepKeepsDebit(id, s.cells[id], step, Outstanding(s, s.cells[id].record.row.order), dropped);
        EffectOnSubject(s, step, id);
      }
    }
  }

  lemma EffectOnSubject(s: State, step: Step, id: Uuid)
    requires Subject(step) == Some(id) && id in s.cells
    ensures id in Effect(s, step).cells
    ensures Effect(s, step).cells[id] == CellStep(s.cells[id], step, Outstanding(s, s.cells[id].record.row.order))
  {
    hide Seal, NewlySealed, NewRequest;
    if !step.InsertShipment? {
      hide CellStep;
    }
  }

  lemma DropsAlways(s: State, step: Step, id: Uuid)
    requires Subject(step) == Some(id) && id in s.cells && DropsDebit(s.cells[id], step)
    ensures ReadsOk(s, step)
  {
  }

  lemma NewCellOwesNothing(shop: Uuid, order: Uuid, workingValues: string)
    ensures DebitInv(NewCell(shop, order, workingValues), false)
  {
  }

  // ---- Over runs ----------------------------------------------------------------------------------------------

  lemma NotThere(s: State, steps: seq<Step>, id: Uuid)
    requires Inv(s) && id !in Run(s, steps).cells
    ensures !Dropped(s, steps, id)
    decreases |steps|
  {
    hide Inv, Apply, DropsDebit;
    if steps != [] {
      var front := steps[..|steps| - 1];
      RunKeeps(s, front);
      StepKeeps(Run(s, front), steps[|steps| - 1]);
      NotThere(s, front, id);
    }
  }

  lemma {:induction false} RunKeepsDebit(s: State, steps: seq<Step>, id: Uuid)
    requires Inv(s) && id !in s.cells && id in Run(s, steps).cells
    ensures DebitInv(Run(s, steps).cells[id], Dropped(s, steps, id))
  {
    hide Inv, Apply, DropsDebit, DebitInv;
    if steps != [] {
      var front := steps[..|steps| - 1];
      RunKeeps(s, front);
      if id in Run(s, front).cells {
        RunKeepsDebit(s, front, id);
      } else {
        NotThere(s, front, id);
      }
      ApplyKeepsDebit(Run(s, front), steps[|steps| - 1], id, Dropped(s, front, id));
    }
  }

  /** Over every run: a shipment that was confirmed and is not a test has its DEBIT if and only if no process
      is still about to write it and no step dropped it, and these three exclude each other; any other
      shipment has no DEBIT. */
  lemma DebitExactly(outstanding: map<Uuid, nat>, steps: seq<Step>, id: Uuid)
    requires id in Run(Initial(outstanding), steps).cells
    ensures var c, dropped := Run(Initial(outstanding), steps).cells[id], Dropped(Initial(outstanding), steps, id);
            && (Live(c) ==> (Debit in c.ledger <==> !Pending(c) && !dropped) && !(Pending(c) && dropped))
            && (!Live(c) ==> Debit !in c.ledger && !Pending(c) && !dropped)
  {
    hide Run, Live, Pending, Dropped;
    InitialInv(outstanding);
    RunKeepsDebit(Initial(outstanding), steps, id);
  }

  /** So a REVERSAL stands without a DEBIT exactly when the debit is still about to be written, or was dropped
      by a crash between confirmation and debit or for want of a subscription. */
  lemma ReversalWithoutDebitExactly(outstanding: map<Uuid, nat>, steps: seq<Step>, id: Uuid)
    requires id in Run(Initial(outstanding), steps).cells
    requires Reversal in Run(Initial(outstanding), steps).cells[id].ledger
    ensures var c, dropped := Run(Initial(outstanding), steps).cells[id], Dropped(Initial(outstanding), steps, id);
            Debit !in c.ledger <==> Pending(c) || dropped
  {
    hide Run, Pending, Dropped, RecordInv, WorkersInv, ResolverOk, SentInv, CancelInv, CountersInv;
    InitialInv(outstanding);
    RunKeeps(Initial(outstanding), steps);
    DebitExactly(outstanding, steps, id);
    assert CellInv(id, Run(Initial(outstanding), steps).cells[id]);
  }
}
