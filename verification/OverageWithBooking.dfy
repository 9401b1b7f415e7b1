/** Overage charging driven by the booking and cancellation machines: the protocol calls the recording at
    most once and the reversal at most once per shipment, so conservation holds of every joint run, however
    the recording, the submission and the reversal of a shipment interleave. */
module OverageWithBooking {
  import opened Wrappers
  import opened BookingSnapshot
  import opened RecordInvariant
  import B = BookingProtocol
  import T = BookingTransactions
  import BookingInvariant
  import BookingEvolution
  import BookingSafety
  import opened Overage
  import opened OverageInvariant
  import opened OverageTheorems

  datatype Joint = Joint(booking: B.State, billing: Billing)

  /** A step of the protocol (with the id of the billing call it may start, and the credit that call may find),
      or a move of the billing calls under way. */
  datatype JointStep = Booking(step: B.Step, call: nat, credit: Option<nat>) | Billed(move: Move)

  /** The billing call a protocol step makes. */
  function Calls(s: B.State, s': B.State, step: B.Step, call: nat, credit: Option<nat>): Option<Move> {
    if B.Subject(step).None? || B.Subject(step).value !in s.cells || B.Subject(step).value !in s'.cells then None
    else
      var id := B.Subject(step).value;
      if s'.cells[id].overageRecords > s.cells[id].overageRecords then Some(BeginRecord(call, id, credit))
      else if s'.cells[id].overageReversals > s.cells[id].overageReversals then Some(BeginReversal(call, id))
      else None
  }

  ghost function JointNext(j: Joint, step: JointStep): Joint {
    match step
    case Booking(b, call, credit) =>
      var booking := B.Apply(j.booking, b);
      var move := Calls(j.booking, booking, b, call, credit);
      Joint(booking, if move.Some? then Next(j.billing, move.value) else j.billing)
    case Billed(move) =>
      if move.BeginRecord? || move.BeginReversal? then j else j.(billing := Next(j.billing, move))
  }

  ghost function RunJoint(j: Joint, steps: seq<JointStep>): Joint {
    if steps == [] then j else JointNext(RunJoint(j, steps[..|steps| - 1]), steps[|steps| - 1])
  }

  /** The shipments billing has heard of are those the protocol has called it for. */
  ghost predicate Heard(j: Joint) {
    && (forall id :: id in j.billing.began ==> id in j.booking.cells && j.booking.cells[id].overageRecords >= 1)
    && (forall id :: id in j.billing.fates ==> id in j.booking.cells && j.booking.cells[id].overageReversals >= 1)
  }

  ghost predicate JointInv(j: Joint) {
    BookingSafety.Inv(j.booking) && BillingInv(j.billing) && Heard(j)
  }

  lemma CountersBounded(s: B.State, id: Uuid)
    requires BookingSafety.Inv(s) && id in s.cells
    ensures s.cells[id].overageRecords <= 1 && s.cells[id].overageReversals <= 1
  {
    hide RecordInv, BookingInvariant.WorkersInv, BookingInvariant.ResolverOk, BookingInvariant.SentInv;
    hide BookingInvariant.CancelInv;
    assert BookingInvariant.CellInv(id, s.cells[id]);
  }

  lemma CountersGrow(s: B.State, s': B.State, id: Uuid)
    requires BookingSafety.StateEvolves(s, s') && id in s.cells
    ensures id in s'.cells && s.cells[id].overageRecords <= s'.cells[id].overageRecords
            && s.cells[id].overageReversals <= s'.cells[id].overageReversals
  {
    hide BookingEvolution.RecordEvolves;
    assert BookingEvolution.CellEvolves(s.cells[id], s'.cells[id]);
  }

  /** The protocol's own bounds make every call it starts the first of its kind for the shipment. */
  lemma CallsAreDisciplined(j: Joint, step: B.Step, call: nat, credit: Option<nat>)
    requires JointInv(j)
    ensures var booking := B.Apply(j.booking, step);
            var move := Calls(j.booking, booking, step, call, credit);
            && BookingSafety.Inv(booking) && BookingSafety.StateEvolves(j.booking, booking)
            && (move.Some? ==> Disciplined(j.billing, move.value))
  {
    hide BookingSafety.Inv, B.Apply, BillingInv, BookingSafety.StateEvolves;
    BookingSafety.StepKeeps(j.booking, step);
    var booking := B.Apply(j.booking, step);
    if B.Subject(step).Some? && B.Subject(step).value in booking.cells && B.Subject(step).value in j.booking.cells {
      CountersBounded(booking, B.Subject(step).value);
    }
  }

  /** Billing is called exactly where the services call it: the recording after a DEBIT, by the worker or the
      resolver that wrote it, and the reversal after a REVERSAL. */
  lemma BillingIsCalled(j: Joint, step: B.Step, call: nat, credit: Option<nat>)
    requires B.Subject(step).Some? && B.Subject(step).value in j.booking.cells
    ensures var id, c := B.Subject(step).value, j.booking.cells[B.Subject(step).value];
            var j' := JointNext(j, Booking(step, call, credit));
            && (step.OverageByWorker? && step.k in c.workers && c.workers[step.k].AfterDebit? ==>
                  j'.billing == Next(j.billing, BeginRecord(call, id, credit)))
            && (step.OverageByResolver? && c.resolver.ResolverAfterDebit? ==>
                  j'.billing == Next(j.billing, BeginRecord(call, id, credit)))
            && (step.ReverseOverage? && step.call in c.cancels && c.cancels[step.call].AfterReversal? ==>
                  j'.billing == Next(j.billing, BeginReversal(call, id)))
            && (!step.OverageByWorker? && !step.OverageByResolver? && !step.ReverseOverage? ==>
                  j'.billing == j.billing)
  {
    hide Next, B.Apply;
    if step.OverageByWorker? || step.OverageByResolver? || step.ReverseOverage? {
      CallsBilling(j.booking, step, call, credit);
    } else {
      KeepsCounters(j.booking, step);
    }
  }

  lemma CallsBilling(s: B.State, step: B.Step, call: nat, credit: Option<nat>)
    requires B.Subject(step).Some? && B.Subject(step).value in s.cells
    ensures var id, c := B.Subject(step).value, s.cells[B.Subject(step).value];
            var move := Calls(s, B.Apply(s, step), step, call, credit);
            && (step.OverageByWorker? && step.k in c.workers && c.workers[step.k].AfterDebit? ==>
                  move == Some(BeginRecord(call, id, credit)))
            && (step.OverageByResolver? && c.resolver.ResolverAfterDebit? ==>
                  move == Some(BeginRecord(call, id, credit)))
            && (step.ReverseOverage? && step.call in c.cancels && c.cancels[step.call].AfterReversal? ==>
                  move == Some(BeginReversal(call, id)))
  {
    hide B.Seal;
  }

  lemma KeepsCounters(s: B.State, step: B.Step)
    requires B.Subject(step).Some? && B.Subject(step).value in s.cells
    requires !step.OverageByWorker? && !step.OverageByResolver? && !step.ReverseOverage?
    ensures var id, s' := B.Subject(step).value, B.Apply(s, step);
            && id in s'.cells && s'.cells[id].overageRecords == s.cells[id].overageRecords
            && s'.cells[id].overageReversals == s.cells[id].overageReversals
  {
    hide B.Seal, B.CellStep, B.ReadsOk, B.NewRequest, B.NewlySealed;
    var id := B.Subject(step).value;
    CellKeepsCounters(s.cells[id], step, B.Outstanding(s, s.cells[id].record.row.order));
  }

  lemma WorkerKeepsCounters(c: B.Cell, k: nat, testMode: bool, seen: T.Reads)
    ensures var c' := B.SettleWorkerStep(c, k, testMode, seen);
            c'.overageRecords == c.overageRecords && c'.overageReversals == c.overageReversals
  {
    hide B.SettleWorkerTx;
  }

  lemma ResolverKeepsCounters(c: B.Cell, testMode: bool, seen: T.Reads)
    ensures var c' := B.SettleResolverStep(c, testMode, seen);
            c'.overageRecords == c.overageRecords && c'.overageReversals == c.overageReversals
  {
    hide B.SettleResolverTx;
  }

  lemma CancelKeepsCounters(c: B.Cell, call: nat, seen: T.Reads)
    ensures var c' := B.SettleCancelStep(c, call, seen);
            c'.overageRecords == c.overageRecords && c'.overageReversals == c.overageReversals
  {
    hide T.SettleCancelledTx, T.SettleRejectedTx;
  }

  lemma CellKeepsCounters(c: B.Cell, step: B.Step, outstanding: Option<nat>)
    requires !step.OverageByWorker? && !step.OverageByResolver? && !step.ReverseOverage?
    ensures var c' := B.CellStep(c, step, outstanding);
            c'.overageRecords == c.overageRecords && c'.overageReversals == c.overageReversals
  {
    hide T.QueueTx, T.ClaimTx, T.RouteTx, T.RequestCancelTx, T.PickedUpTx, T.SchedulePickupTx, T.ReversePickupTx;
    hide B.WorkerAnswer, B.CanHear, B.SettleWorkerStep, B.SettleResolverStep, B.SettleCancelStep;
    if step.SettleWorker? {
      WorkerKeepsCounters(c, step.k, step.testMode, step.seen);
    } else if step.SettleResolver? {
      ResolverKeepsCounters(c, step.testMode, step.seen);
    } else if step.SettleCancel? {
      CancelKeepsCounters(c, step.call, step.seen);
    }
  }

  lemma NextHears(s: Billing, move: Move)
    ensures Next(s, move).began <= s.began + (if move.BeginRecord? then {move.shipment} else {})
    ensures Next(s, move).fates.Keys <= s.fates.Keys + (if move.BeginReversal? then {move.shipment} else {})
  {
    hide ChargedSince, KeyTaken, Newest;
  }

  lemma NothingForgotten(s: B.State, s': B.State)
    requires BookingSafety.StateEvolves(s, s')
    ensures forall id :: id in s.cells ==>
              id in s'.cells && s.cells[id].overageRecords <= s'.cells[id].overageRecords
              && s.cells[id].overageReversals <= s'.cells[id].overageReversals
  {
    hide BookingSafety.StateEvolves;
    forall id | id in s.cells
      ensures id in s'.cells && s.cells[id].overageRecords <= s'.cells[id].overageRecords
              && s.cells[id].overageReversals <= s'.cells[id].overageReversals
    {
      CountersGrow(s, s', id);
    }
  }

  lemma StepHeard(j: Joint, step: B.Step, call: nat, credit: Option<nat>)
    requires JointInv(j)
    ensures Heard(JointNext(j, Booking(step, call, credit)))
  {
    hide BookingSafety.Inv, BookingSafety.StateEvolves, B.Apply, BillingInv, Next, Disciplined;
    CallsAreDisciplined(j, step, call, credit);
    var booking := B.Apply(j.booking, step);
    NothingForgotten(j.booking, booking);
    var move := Calls(j.booking, booking, step, call, credit);
    if move.Some? {
      NextHears(j.billing, move.value);
    }
  }

  lemma JointKeeps(j: Joint, step: JointStep)
    requires JointInv(j)
    ensures JointInv(JointNext(j, step))
  {
    hide BookingSafety.Inv, BookingSafety.StateEvolves, B.Apply, BillingInv, Next, Disciplined;
    if step.Booking? {
      CallsAreDisciplined(j, step.step, step.call, step.credit);
      StepHeard(j, step.step, step.call, step.credit);
      var move := Calls(j.booking, B.Apply(j.booking, step.step), step.step, step.call, step.credit);
      hide Calls, Heard;
      if move.Some? {
        NextKeeps(j.billing, move.value);
      }
    } else if !step.move.BeginRecord? && !step.move.BeginReversal? {
      OtherMovesFree(j.billing, step.move);
      NextKeeps(j.billing, step.move);
      NextHears(j.billing, step.move);
    }
  }

  lemma OtherMovesFree(s: Billing, move: Move)
    requires !move.BeginRecord? && !move.BeginReversal?
    ensures Disciplined(s, move)
  {
  }

  lemma {:induction false} RunJointKeeps(j: Joint, steps: seq<JointStep>)
    requires JointInv(j)
    ensures JointInv(RunJoint(j, steps))
  {
    hide JointInv, JointNext;
    if steps != [] {
      var front := steps[..|steps| - 1];
      RunJointKeeps(j, front);
      JointKeeps(RunJoint(j, front), steps[|steps| - 1]);
    }
  }

  /** A shipment that was not confirmed live costs no overage, and a credit is held only for a VOID one. */
  ghost predicate BilledRightly(j: Joint) {
    && (forall i :: 0 <= i < |j.billing.usages| ==>
          var id := j.billing.usages[i].shipment;
          id in j.booking.cells && j.booking.cells[id].confirms == 1 && !j.booking.cells[id].record.row.isTest
          && B.Debit in j.booking.cells[id].ledger)
    && (forall i :: 0 <= i < |j.billing.credits| && j.billing.credits[i].source < |j.billing.usages| ==>
          var id := j.billing.usages[j.billing.credits[i].source].shipment;
          id in j.booking.cells && j.booking.cells[id].record.row.state.Void?)
  }

  lemma RecordedIsLive(s: B.State, id: Uuid)
    requires BookingSafety.Inv(s) && id in s.cells
    ensures s.cells[id].overageRecords >= 1 ==>
              s.cells[id].confirms == 1 && !s.cells[id].record.row.isTest && B.Debit in s.cells[id].ledger
    ensures s.cells[id].overageReversals >= 1 ==> s.cells[id].record.row.state.Void?
  {
    hide RecordInv, BookingInvariant.WorkersInv, BookingInvariant.ResolverOk, BookingInvariant.SentInv;
    hide BookingInvariant.CancelInv;
    assert BookingInvariant.CellInv(id, s.cells[id]);
  }

  ghost predicate JointlyReachable(j: Joint) {
    exists outstanding, unit, cap, steps :: j == RunJoint(Joint(B.Initial(outstanding), Opening(unit, cap)), steps)
  }

  lemma FirstJoint(outstanding: map<Uuid, nat>, unit: nat, cap: nat)
    ensures JointInv(Joint(B.Initial(outstanding), Opening(unit, cap))) && Billable(Opening(unit, cap))
  {
    hide BookingSafety.Inv, BillingInv, Billable;
    BookingSafety.InitialInv(outstanding);
    OpeningInv(unit, cap);
    OpeningBillable(unit, cap);
  }

  /** The billing half of a joint run is a run of disciplined callers, so whatever holds of those holds here:
      conservation, who is credited, the cap. */
  lemma {:induction false} JointIsBillable(j: Joint, steps: seq<JointStep>)
    requires JointInv(j) && Billable(j.billing)
    ensures Billable(RunJoint(j, steps).billing)
  {
    hide JointInv, Billable, BillingInv, Next, B.Apply, BookingSafety.Inv, BookingSafety.StateEvolves, Calls;
    hide Disciplined;
    if steps != [] {
      var front, last := RunJoint(j, steps[..|steps| - 1]), steps[|steps| - 1];
      JointIsBillable(j, steps[..|steps| - 1]);
      RunJointKeeps(j, steps[..|steps| - 1]);
      if last.Booking? {
        CallsAreDisciplined(front, last.step, last.call, last.credit);
        var move := Calls(front.booking, B.Apply(front.booking, last.step), last.step, last.call, last.credit);
        if move.Some? {
          BillableStep(front.billing, move.value);
        }
      } else if !last.move.BeginRecord? && !last.move.BeginReversal? {
        OtherMovesFree(front.billing, last.move);
        BillableStep(front.billing, last.move);
      }
    }
  }

  lemma HeardRightly(j: Joint)
    requires JointInv(j)
    ensures BilledRightly(j)
  {
    hide BookingSafety.Inv, CallsInv, CallsApart, ReversalsInv, ConsumersInv;
    forall id | id in j.booking.cells
      ensures j.booking.cells[id].overageRecords >= 1 ==>
                j.booking.cells[id].confirms == 1 && !j.booking.cells[id].record.row.isTest
                    && B.Debit in j.booking.cells[id].ledger
      ensures j.booking.cells[id].overageReversals >= 1 ==> j.booking.cells[id].record.row.state.Void?
    {
      RecordedIsLive(j.booking, id);
    }
    forall i | 0 <= i < |j.billing.credits| && j.billing.credits[i].source < |j.billing.usages|
      ensures j.billing.usages[j.billing.credits[i].source].shipment in j.billing.fates
    {
      var u := j.billing.credits[i].source;
      assert FateOk(j.billing.usages[u], u, FateOf(j.billing.fates, j.billing.usages[u].shipment),
                    NotSource(j.billing.credits, u));
    }
    hide FatesInv, SourcesInv;
  }

  /** Conservation over every joint run: per shipment at most one record or consumed credit, one submission per
      record, at most one credit per record, exact and only for a VOID shipment, and a total that is never
      negative. */
  lemma OverageConserved(j: Joint)
    requires JointlyReachable(j)
    ensures Billable(j.billing)
    ensures OneOutcome(j.billing) && CreditsExact(j.billing) && SentOnce(j.billing)
    ensures ShopifyTotal(j.billing.usages) + CreditTotal(j.billing.credits) >= 0
    ensures BilledRightly(j)
  {
    hide JointInv, RunJoint, Billable, OneOutcome, CreditsExact, SentOnce, BilledRightly, ShopifyTotal, CreditTotal;
    var outstanding, unit, cap, steps :| j == RunJoint(Joint(B.Initial(outstanding), Opening(unit, cap)), steps);
    FirstJoint(outstanding, unit, cap);
    RunJointKeeps(Joint(B.Initial(outstanding), Opening(unit, cap)), steps);
    JointIsBillable(Joint(B.Initial(outstanding), Opening(unit, cap)), steps);
    Conservation(j.billing);
    HeardRightly(j);
  }
}
