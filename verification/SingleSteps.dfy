/** One step of a run, reduced to the cell of its shipment. */
module SingleSteps {
  import opened Wrappers
  import opened BookingSnapshot
  import opened ShipmentRows
  import opened BookingTransactions
  import opened BookingProtocol
  import opened Collectible

  /** The state after the cell of one shipment became `c`. */
  function WithCell(s: State, id: Uuid, c: Cell): State {
    s.(cells := s.cells[id := c])
  }

  /** A step that neither queues nor sends touches nothing but the cell of its shipment. */
  lemma AppliesTo(s: State, step: Step, id: Uuid)
    requires Subject(step) == Some(id) && id in s.cells && ReadsOk(s, step)
    requires !step.InsertShipment? && !step.QueueBooking? && !step.SendCreate?
    ensures Apply(s, step) == WithCell(s, id, CellStep(s.cells[id], step, None))
    ensures CellStep(s.cells[id], step, None) == s.cells[id] ==> Apply(s, step) == s
  {
    hide ReadsOk, Seal, RouteTx, ClaimStep, SendStep, AnswerStep, SettleWorkerStep, SettleResolverStep;
    hide SettleCancelStep, RequestCancelStep, LedgerReversalStep, PickedUpStep, SchedulePickupTx, ReversePickupTx;
    SealsNothing(s.versions);
    assert s.cells[id := s.cells[id]] == s.cells;
  }

  lemma StepsOnCustody(c: Cell, step: Step)
    ensures step.RequestCancel? ==> CellStep(c, step, None) == RequestCancelStep(c, step.call)
    ensures step.CancelAnswered? ==> CellStep(c, step, None) == CancelAnswerStep(c, step.call, step.verdict)
    ensures step.SettleCancel? ==> CellStep(c, step, None) == SettleCancelStep(c, step.call, step.seen)
    ensures step.ReverseLedger? ==> CellStep(c, step, None) == LedgerReversalStep(c, step.call, step.subscribed)
    ensures step.ReverseOverage? ==> CellStep(c, step, None) == OverageReversalStep(c, step.call)
    ensures step.SchedulePickup? ==> CellStep(c, step, None) == WithRecord(c, SchedulePickupTx(c.record))
    ensures step.ReversePickup? ==> CellStep(c, step, None) == WithRecord(c, ReversePickupTx(c.record))
    ensures step.PickedUp? ==> CellStep(c, step, None) == PickedUpStep(c)
    ensures step.CrashCancel? ==> CellStep(c, step, None) == CrashCancelStep(c, step.call)
  {
    hide RequestCancelStep, CancelAnswerStep, SettleCancelStep, LedgerReversalStep, OverageReversalStep;
    hide CrashCancelStep, SchedulePickupTx, ReversePickupTx, PickedUpStep, WithRecord;
  }

  lemma StepsOfWorker(c: Cell, step: Step)
    ensures step.Route? ==>
              CellStep(c, step, None)
              == WithRecord(c, RouteTx(c.record, step.workingValues, step.manual, step.seen.write))
    ensures step.ClaimJob? ==> CellStep(c, step, None) == ClaimStep(c, step.k, step.seen)
    ensures step.CreateAnswered? ==> CellStep(c, step, None) == AnswerStep(c, step.k, step.reply)
    ensures step.SettleWorker? ==>
              CellStep(c, step, None) == SettleWorkerStep(c, step.k, step.testMode, step.seen)
    ensures step.DebitByWorker? ==> CellStep(c, step, None) == WorkerDebitStep(c, step.k, step.subscribed)
    ensures step.OverageByWorker? ==> CellStep(c, step, None) == WorkerOverageStep(c, step.k)
    ensures step.CrashWorker? ==> CellStep(c, step, None) == DropWorker(c, step.k)
    ensures step.ForgetMemo? ==> CellStep(c, step, None) == c.(memo := c.memo - {step.k})
  {
    hide ClaimStep, AnswerStep, SettleWorkerStep, WorkerDebitStep, WorkerOverageStep, DropWorker, RouteTx, WithRecord;
  }

  lemma StepsOfResolver(c: Cell, step: Step)
    ensures step.ResolverSees? && c.resolver.Resting? && c.record.row.state == OutcomeUnknown ==>
              CellStep(c, step, None) == c.(resolver := SawUnknown)
    ensures step.ResolverLoads? ==> CellStep(c, step, None) == ResolverLoadStep(c, step.k)
    ensures step.ResolverLooks? && c.resolver.Loaded? ==>
              CellStep(c, step, None) == c.(resolver := Looked(c.resolver.k, step.awb))
    ensures step.SettleResolver? ==> CellStep(c, step, None) == SettleResolverStep(c, step.testMode, step.seen)
    ensures step.DebitByResolver? ==> CellStep(c, step, None) == ResolverDebitStep(c, step.subscribed)
    ensures step.OverageByResolver? ==> CellStep(c, step, None) == ResolverOverageStep(c)
    ensures step.CrashResolver? ==> CellStep(c, step, None) == c.(resolver := Resting)
  {
    hide ResolverLoadStep, SettleResolverStep, ResolverDebitStep, ResolverOverageStep;
  }

  // ---- Reachable states -------------------------------------------------------------------------------------------

  lemma ReachableNext(s: State, step: Step)
    requires Reachable(s)
    ensures Reachable(Apply(s, step))
  {
    hide Apply;
    var outstanding, steps :| s == Run(Initial(outstanding), steps);
    assert (steps + [step])[..|steps|] == steps;
    assert Apply(s, step) == Run(Initial(outstanding), steps + [step]);
  }

  lemma {:induction false} ReachableRun(s: State, steps: seq<Step>)
    requires Reachable(s)
    ensures Reachable(Run(s, steps))
  {
    hide Reachable, Apply;
    if steps != [] {
      ReachableRun(s, steps[..|steps| - 1]);
      ReachableNext(Run(s, steps[..|steps| - 1]), steps[|steps| - 1]);
    }
  }
}
