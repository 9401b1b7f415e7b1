/** When it is safe to queue failed shipments again. Whatever the courier's answers were worth so far: from a
    state with nothing in flight, honest continuations book no shipment twice if no shipment has two live
    attempts, none that can be queued again has one, and every AWB held is one the courier issued. */
module RetrySafety {
  import opened Wrappers
  import opened BookingSnapshot
  import opened ShipmentRows
  import opened BookingTransactions
  import opened RecordInvariant
  import opened BookingProtocol
  import opened BookingInvariant
  import opened BookingEvolution
  import opened BookingSafety
  import opened ExactlyOnce
  import opened Collectible
  import opened SettledAttempts

  // ---- States with nothing in flight --------------------------------------------------------------------------

  /** Every attempt is settled and no cancellation is under way. */
  ghost predicate Quiescent(s: State) {
    && (forall id, k :: id in s.cells && 0 <= k < |s.cells[id].record.intents| ==>
        s.cells[id].record.intents[k].outcome.Settled())
    && (forall id, call :: id in s.cells && call in s.cells[id].cancels ==> !s.cells[id].cancels[call].Active())
  }

  /** The attempt is booked at the courier, or was sent to it and can still be. */
  predicate Live(s: State, id: Uuid, k: nat) {
    id in s.cells && k < |s.cells[id].record.intents|
        && LiveReference(WordOf(s), s.cells[id].record.intents[k].reference)
  }

  /** A carrier whose cancellation can no longer be requested. */
  predicate Settled(carrier: Shipment) {
    carrier.Carrier() && carrier.custody !in {PickupPending, PickupScheduled}
  }

  /** The row froze an amount, and another shipment collects the order's cash for good. */
  predicate Stuck(s: State, id: Uuid)
    requires id in s.cells
  {
    && s.cells[id].record.row.collectible > 0
    && exists carrier :: carrier in s.cells && carrier != id
                         && s.cells[carrier].record.row.order == s.cells[id].record.row.order
                         && Settled(s.cells[carrier].record.row)
  }

  predicate CanRetry(s: State, id: Uuid) {
    id in s.cells && QueueableState(s.cells[id].record.row.state) && !Stuck(s, id)
  }

  ghost predicate SafeToRetry(s: State) {
    && (forall id, i, j :: Live(s, id, i) && Live(s, id, j) ==> i == j)
    && (forall id, k :: CanRetry(s, id) ==> !Live(s, id, k))
  }

  ghost predicate Issued(courier: Courier, awb: string) {
    exists reference :: IsBooked(courier, reference) && NormalizeAwb(courier[reference].awb) == awb
  }

  /** Every AWB a shipment holds was issued by the courier, for whatever attempt. */
  ghost predicate AwbsIssued(s: State) {
    forall id :: id in s.cells && s.cells[id].record.row.awb.Some? ==>
          Issued(s.courier, s.cells[id].record.row.awb.value)
  }

  predicate BookedAttempt(s: State, id: Uuid, k: nat) {
    id in s.cells && k < |s.cells[id].record.intents| && IsBooked(s.courier, s.cells[id].record.intents[k].reference)
  }

  /** At most one attempt of a shipment is booked. */
  ghost predicate AtMostOnce(s: State) {
    forall id, i, j :: BookedAttempt(s, id, i) && BookedAttempt(s, id, j) ==> i == j
  }

  // ---- What can never be queued again -------------------------------------------------------------------------

  ghost predicate SettledCell(c: Cell) {
    && c.record.row.state == Confirmed && Settled(c.record.row)
    && forall call :: call in c.cancels ==> !c.cancels[call].Active()
  }

  lemma BookingLeavesSettled(id: Uuid, c: Cell, step: Step, outstanding: Option<nat>)
    requires CellInv(id, c) && SettledCell(c) && Subject(step) == Some(id)
    requires step.Route? || step.QueueBooking? || step.ClaimJob? || step.SettleWorker? || step.SettleResolver?
    ensures CellStep(c, step, outstanding).record == c.record && CellStep(c, step, outstanding).cancels == c.cancels
  {
    hide CellInv, Settled, SettleWorkerTx, SettleResolverTx;
    if step.SettleWorker? && step.k in c.workers && c.workers[step.k].Answered? {
      AnsweredIsSubmitted(id, c, step.k);
    }
    if step.SettleResolver? && c.resolver.Looked? {
      LookedIsUnknown(id, c);
    }
  }

  lemma CustodyLeavesSettled(id: Uuid, c: Cell, step: Step, outstanding: Option<nat>)
    requires SettledCell(c) && Subject(step) == Some(id)
    requires step.RequestCancel? || step.CancelAnswered? || step.SettleCancel? || step.SchedulePickup?
             || step.ReversePickup? || step.PickedUp?
    ensures SettledCell(CellStep(c, step, outstanding))
  {
    hide CancelSettled;
  }

  lemma CallsLeaveSettled(id: Uuid, c: Cell, step: Step, outstanding: Option<nat>)
    requires SettledCell(c) && Subject(step) == Some(id)
    requires !step.Route? && !step.QueueBooking? && !step.ClaimJob? && !step.SettleWorker? && !step.SettleResolver?
    requires !step.RequestCancel? && !step.CancelAnswered? && !step.SettleCancel? && !step.SchedulePickup?
    requires !step.ReversePickup? && !step.PickedUp?
    ensures SettledCell(CellStep(c, step, outstanding))
  {
    hide WorkerAnswer, Memoised, InsertOnce;
    CallsFreezeNothing(c, step, outstanding);
  }

  /** A carrier in custody, or left CANCEL_REQUESTED by a call that ended, stays the carrier. */
  lemma SettledStep(id: Uuid, c: Cell, step: Step, outstanding: Option<nat>)
    requires CellInv(id, c) && SettledCell(c) && Subject(step) == Some(id)
    ensures SettledCell(CellStep(c, step, outstanding))
  {
    hide CellInv, CellStep;
    if step.Route? || step.QueueBooking? || step.ClaimJob? || step.SettleWorker? || step.SettleResolver? {
      BookingLeavesSettled(id, c, step, outstanding);
    } else if step.RequestCancel? || step.CancelAnswered? || step.SettleCancel? || step.SchedulePickup?
       || step.ReversePickup? || step.PickedUp? {
      CustodyLeavesSettled(id, c, step, outstanding);
    } else {
      CallsLeaveSettled(id, c, step, outstanding);
    }
  }

  lemma SettledApply(s: State, step: Step, id: Uuid)
    requires Inv(s) && id in s.cells && SettledCell(s.cells[id])
    ensures id in Apply(s, step).cells && SettledCell(Apply(s, step).cells[id])
  {
    hide CellInv, SettledCell, CellStep, Effect, AwbUnique, SingleCarrier, ReadsOk;
    if ReadsOk(s, step) {
      EffectOnCells(s, step);
      if Subject(step) == Some(id) {
        SettledStep(id, s.cells[id], step, Outstanding(s, s.cells[id].record.row.order));
      }
    }
  }

  lemma {:induction false} SettledRun(s: State, steps: seq<Step>, id: Uuid)
    requires Inv(s) && id in s.cells && SettledCell(s.cells[id])
    ensures id in Run(s, steps).cells && SettledCell(Run(s, steps).cells[id]) && CarrierThroughout(s, steps, id)
  {
    hide Inv, Apply;
    if steps != [] {
      var front := steps[..|steps| - 1];
      SettledRun(s, front, id);
      RunKeeps(s, front);
      SettledApply(Run(s, front), steps[|steps| - 1], id);
    }
  }

  lemma SettledCarrier(s: State, id: Uuid)
    requires Inv(s) && Quiescent(s) && id in s.cells && Settled(s.cells[id].record.row)
    ensures SettledCell(s.cells[id])
  {
    hide IntentsInv, WorkersInv, ResolverOk, SentInv, CancelInv, LedgerInv, CountersInv, AwbUnique, SingleCarrier;
    assert CellInv(id, s.cells[id]);
  }

  lemma StuckForever(s: State, steps: seq<Step>, id: Uuid)
    requires Inv(s) && Quiescent(s) && id in s.cells && Stuck(s, id)
    ensures id in Run(s, steps).cells && Run(s, steps).cells[id].record == s.cells[id].record
  {
    hide Inv, Run, Quiescent, Settled;
    var carrier :| carrier in s.cells && carrier != id
        && s.cells[carrier].record.row.order == s.cells[id].record.row.order
                   && Settled(s.cells[carrier].record.row);
    SettledCarrier(s, carrier);
    SettledRun(s, steps, carrier);
    assert s.cells[carrier].record.row.Carrier() by { SettledCarries(s.cells[carrier].record.row); }
    OvertakenIsStuck(s, steps, id, carrier);
  }

  lemma SettledCarries(row: Shipment)
    requires Settled(row)
    ensures row.Carrier()
  {
  }

  lemma FailedOrLanded(s: State, id: Uuid)
    requires Inv(s) && Quiescent(s) && id in s.cells && s.cells[id].record.intents != []
    ensures Landed(s.cells[id].record.row.state) || s.cells[id].record.row.state == Failed
  {
    hide IntentsInv, WorkersInv, ResolverOk, SentInv, CancelInv, LedgerInv, CountersInv, AwbUnique, SingleCarrier;
    assert CellInv(id, s.cells[id]);
    assert s.cells[id].record.intents[|s.cells[id].record.intents| - 1].outcome.Settled();
  }

  /** A shipment that was attempted and cannot be queued again gets no further attempt. */
  lemma NoFurtherAttempt(s: State, steps: seq<Step>, id: Uuid)
    requires Inv(s) && Quiescent(s) && id in s.cells && s.cells[id].record.intents != [] && !CanRetry(s, id)
    ensures id in Run(s, steps).cells && |Run(s, steps).cells[id].record.intents| == |s.cells[id].record.intents|
  {
    FailedOrLanded(s, id);
    hide CellInv, CellEvolves, Run, Quiescent, Stuck, AwbUnique, SingleCarrier;
    if Landed(s.cells[id].record.row.state) {
      RunKeeps(s, steps);
      SettledHistory(id, s.cells[id], Run(s, steps).cells[id]);
    } else {
      StuckForever(s, steps, id);
    }
  }

  // ---- The courier the database believes in -------------------------------------------------------------------

  ghost function AttemptReferences(s: State): set<string> {
    set id, k | id in s.cells && 0 <= k < |s.cells[id].record.intents| :: s.cells[id].record.intents[k].reference
  }

  ghost predicate ConfirmedAttempt(s: State, id: Uuid, k: nat, reference: string) {
    Attempt(s, id, k, reference) && s.cells[id].record.intents[k].outcome.SettledConfirmed()
        && s.cells[id].record.row.awb.Some?
  }

  /** What the database says of a reference: the AWB it shows, or that it is not booked. */
  ghost function Believed(s: State, reference: string): Ruling {
    if exists id, k: nat :: ConfirmedAttempt(s, id, k, reference) then
      var id, k: nat :| ConfirmedAttempt(s, id, k, reference); Booked(s.cells[id].record.row.awb.value)
    else Barred
  }

  ghost function AsBelieved(s: State): State {
    s.(courier := map reference | reference in AttemptReferences(s) :: Believed(s, reference))
  }

  lemma BelievedOf(s: State, id: Uuid, k: nat)
    requires CellsInv(s) && id in s.cells && k < |s.cells[id].record.intents|
    ensures var c := s.cells[id];
            Believed(s, c.record.intents[k].reference)
            == if c.record.intents[k].outcome.SettledConfirmed() && c.record.row.awb.Some?
                then Booked(c.record.row.awb.value) else Barred
  {
    hide CellInv;
    var reference := s.cells[id].record.intents[k].reference;
    forall id', k': nat | ConfirmedAttempt(s, id', k', reference)
      ensures id' == id && k' == k
    {
      ReferencesDistinct(s, id, k, id', k');
    }
    assert s.cells[id].record.intents[k].outcome.SettledConfirmed() && s.cells[id].record.row.awb.Some? ==>
             ConfirmedAttempt(s, id, k, reference);
    hide ConfirmedAttempt;
  }

  lemma ConfirmedHasAwb(id: Uuid, r: Record, k: nat)
    requires RecordInv(id, r) && k < |r.intents|
    ensures r.intents[k].outcome.SettledConfirmed() ==> r.row.awb.Some?
  {
    hide IntentsInv, BuildSnapshot;
    assert k < |r.intents| - 1 ==> r.intents[k].outcome.SettledFailed();
  }

  /** With everything settled no process has anything to say. */
  lemma NobodySpeaks(s: State, id: Uuid)
    requires CellsInv(s) && Quiescent(s) && id in s.cells
    ensures (forall k :: k in s.cells[id].workers ==> !s.cells[id].workers[k].Answered?)
    ensures !s.cells[id].resolver.Looked?
    ensures forall k :: !s.cells[id].record.Unresolved(k)
  {
    hide CellInv;
    var c := s.cells[id];
    forall k | k in c.workers && c.workers[k].Answered?
      ensures c.record.Unresolved(k)
    {
      AnsweredUnresolved(id, c, k);
    }
    if c.resolver.Looked? {
      LookedAtLatest(id, c);
    }
  }

  lemma BelievedRules(s: State, id: Uuid, k: nat)
    requires CellsInv(s) && Quiescent(s) && id in s.cells && NormalAwb(s.cells[id].record.row)
    requires k < |s.cells[id].record.intents|
    ensures Ruled(WordOf(AsBelieved(s)), s.cells[id].record.row.awb, s.cells[id].record.intents[k])
  {
    hide CellInv, NormalizeAwb, Believed, RecordInv;
    var c := s.cells[id];
    assert c.record.intents[k].reference in AttemptReferences(s);
    BelievedOf(s, id, k);
    CellRows(id, c);
    ConfirmedHasAwb(id, c.record, k);
  }

  lemma BelievedOk(s: State, id: Uuid)
    requires CellsInv(s) && Quiescent(s) && id in s.cells && NormalAwb(s.cells[id].record.row)
    ensures CourierOk(WordOf(AsBelieved(s)), s.cells[id])
  {
    hide CellsInv, Ruled, AsBelieved, NormalAwb, Told;
    NobodySpeaks(s, id);
    forall k: nat | k < |s.cells[id].record.intents|
      ensures Ruled(WordOf(AsBelieved(s)), s.cells[id].record.row.awb, s.cells[id].record.intents[k])
    {
      BelievedRules(s, id, k);
    }
    hide Quiescent;
  }

  lemma AllAreSettled(s: State)
    requires Quiescent(s)
    ensures AllSettled(s, AttemptReferences(s))
  {
    forall reference | reference in AttemptReferences(s)
      ensures exists id, k :: SettledAttempt(s, id, k, reference)
    {
      var id, k :| id in s.cells && 0 <= k < |s.cells[id].record.intents|
          && s.cells[id].record.intents[k].reference == reference;
      assert SettledAttempt(s, id, k, reference);
    }
  }

  /** Had the courier said what the database believes, the run so far would have been honest. */
  lemma BelievedHonest(s: State)
    requires Inv(s) && AwbsNormal(s) && Quiescent(s)
    ensures HonestInv(AsBelieved(s), AttemptReferences(s))
  {
    hide CellInv, NormalAwb, CourierOk, Quiescent, AwbUnique, SingleCarrier;
    AllAreSettled(s);
    var t, base := AsBelieved(s), AttemptReferences(s);
    assert forall reference :: IsBooked(t.courier, reference) ==> reference in base;
    assert AllSettled(t, base) by {
      hide AsBelieved, AttemptReferences;
      SettledSame(s, t, base);
    }
    assert Inv(t) by { InvOfCells(s, t); }
    forall id | id in s.cells
      ensures CourierOk(WordOf(t), s.cells[id])
    {
      BelievedOk(s, id);
    }
  }

  lemma SettledSame(s: State, t: State, base: set<string>)
    requires AllSettled(s, base) && t.cells == s.cells
    ensures AllSettled(t, base)
  {
    forall reference | reference in base
      ensures exists id, k :: SettledAttempt(t, id, k, reference)
    {
      var id, k :| SettledAttempt(s, id, k, reference);
      assert SettledAttempt(t, id, k, reference);
    }
  }

  lemma InvOfCells(s: State, t: State)
    requires Inv(s) && t.cells == s.cells
    ensures Inv(t)
  {
    hide CellInv;
  }

  // ---- The two couriers side by side --------------------------------------------------------------------------

  /** The couriers agree on every reference that is not among the old ones. */
  ghost predicate Agree(courier: Courier, believed: Courier, base: set<string>) {
    && base <= believed.Keys
    && (forall reference :: reference !in base ==> (reference in courier <==> reference in believed))
    && (forall reference :: reference !in base && reference in courier ==> courier[reference] == believed[reference])
  }

  ghost predicate Alike(s: State, t: State, base: set<string>) {
    t == s.(courier := t.courier) && Agree(s.courier, t.courier, base)
  }

  /** The AWBs the database believes in for old references were issued. */
  ghost predicate OldIssued(courier: Courier, believed: Courier, base: set<string>) {
    forall reference :: reference in base && IsBooked(believed, reference) ==>
          Issued(courier, NormalizeAwb(believed[reference].awb))
  }

  lemma SameReads(s: State, t: State, step: Step)
    requires t == s.(courier := t.courier)
    ensures ReadsOk(t, step) == ReadsOk(s, step)
  {
    hide ConfirmingAwb;
  }

  lemma SameCells(s: State, t: State, step: Step)
    requires t == s.(courier := t.courier)
    ensures ReadsOk(t, step) == ReadsOk(s, step)
    ensures Effect(t, step) == Effect(s, step).(courier := Effect(t, step).courier)
  {
    SameReads(s, t, step);
    hide ReadsOk, CellStep, NewRequest, NewlySealed, Seal, SealGuardRaises, CellEffect;
    if Subject(step).Some? && Subject(step).value in s.cells {
      SameCellEffect(s, t, step);
    }
    assert SealGuardRaises(s.versions, (if step.WriteVersion? || step.DeleteVersion? then step.key else ServiceKey("")))
           == SealGuardRaises(t.versions, (if step.WriteVersion? || step.DeleteVersion? then step.key
                                           else ServiceKey("")));
  }

  lemma SameCellEffect(s: State, t: State, step: Step)
    requires t == s.(courier := t.courier) && Subject(step).Some? && Subject(step).value in s.cells
    ensures CellEffect(t, step) == CellEffect(s, step).(courier := t.courier)
    ensures CellEffect(s, step).courier == s.courier
  {
    hide CellStep, NewRequest, NewlySealed, Seal;
    var order := s.cells[Subject(step).value].record.row.order;
    assert Outstanding(t, order) == Outstanding(s, order);
    hide Outstanding;
  }

  lemma EffectOnRulings(s: State, step: Step)
    ensures Effect(s, step).courier
            == if step.CourierRules? && step.reference !in s.courier && step.reference in s.requested
               then s.courier[step.reference := step.ruling] else s.courier
  {
    hide CellStep, NewRequest, NewlySealed, Seal, SealGuardRaises;
  }

  lemma RulesAgree(s: State, t: State, step: Step, base: set<string>)
    requires Alike(s, t, base)
    ensures Agree(Effect(s, step).courier, Effect(t, step).courier, base)
    ensures forall reference :: reference in base ==> Effect(t, step).courier[reference] == t.courier[reference]
  {
    EffectOnRulings(s, step);
    EffectOnRulings(t, step);
    hide Effect;
  }

  lemma IssuedStays(courier: Courier, courier': Courier, awb: string)
    requires Issued(courier, awb) && CourierExtends(courier, courier')
    ensures Issued(courier', awb)
  {
    var reference :| IsBooked(courier, reference) && NormalizeAwb(courier[reference].awb) == awb;
    assert IsBooked(courier', reference) && courier'[reference] == courier[reference];
    hide NormalizeAwb;
  }

  lemma ApplyAlike(s: State, t: State, step: Step, base: set<string>)
    requires Alike(s, t, base) && OldIssued(s.courier, t.courier, base)
    ensures Alike(Apply(s, step), Apply(t, step), base)
    ensures OldIssued(Apply(s, step).courier, Apply(t, step).courier, base)
  {
    hide Effect, ReadsOk, NormalizeAwb, Issued, Agree;
    SameCells(s, t, step);
    RulesAgree(s, t, step, base);
    if ReadsOk(s, step) {
      assert base <= t.courier.Keys by { BaseKnown(s, t, base); }
      EffectOnCourier(s, step);
      forall reference | reference in base && IsBooked(Effect(t, step).courier, reference)
        ensures Issued(Effect(s, step).courier, NormalizeAwb(Effect(t, step).courier[reference].awb))
      {
        IssuedStays(s.courier, Effect(s, step).courier, NormalizeAwb(t.courier[reference].awb));
      }
    }
  }

  lemma BaseKnown(s: State, t: State, base: set<string>)
    requires Alike(s, t, base)
    ensures base <= t.courier.Keys
  {
  }

  /** Reports are about attempts in flight. */
  lemma ReportIsNew(s: State, step: Step, base: set<string>)
    requires CellsInv(s) && AllSettled(s, base) && Report(s, step).Some?
    ensures Report(s, step).value.0 !in base
  {
    hide CellInv, WorkerAnswer, LookupAnswer;
    var c := s.cells[step.id];
    if step.CreateAnswered? {
      AskerUnresolved(step.id, c, step.k);
      NotInBase(s, step.id, step.k, base);
    } else {
      LoadedUnresolved(step.id, c);
      NotInBase(s, step.id, c.resolver.k, base);
    }
  }

  lemma LoadedUnresolved(id: Uuid, c: Cell)
    requires CellInv(id, c) && c.resolver.Loaded?
    ensures c.record.Unresolved(c.resolver.k)
  {
    hide BuildSnapshot, IntentsInv, WorkersInv, SentInv, CancelInv, LedgerInv, CountersInv;
  }

  lemma TruthfulAlike(s: State, t: State, step: Step, base: set<string>)
    requires CellsInv(s) && AllSettled(s, base) && Alike(s, t, base) && Truthful(s, step)
    ensures Truthful(t, step)
  {
    hide CellsInv, AllSettled;
    assert Report(t, step) == Report(s, step) by { hide WorkerAnswer, LookupAnswer; }
    hide Report;
    if Report(s, step).Some? {
      ReportIsNew(s, step, base);
    }
  }

  lemma FreshAlike(s: State, t: State, step: Step, base: set<string>)
    requires Alike(s, t, base) && OldIssued(s.courier, t.courier, base) && FreshAwb(s, step)
    ensures FreshAwb(t, step)
  {
    hide NormalizeAwb;
    if step.CourierRules? && step.ruling.Booked? && step.reference !in t.courier {
      forall reference | IsBooked(t.courier, reference) && reference != step.reference
        ensures NormalizeAwb(t.courier[reference].awb) != NormalizeAwb(step.ruling.awb)
      {
        if reference in base {
          var issued :| IsBooked(s.courier, issued)
              && NormalizeAwb(s.courier[issued].awb) == NormalizeAwb(t.courier[reference].awb);
        } else {
          assert IsBooked(s.courier, reference);
        }
      }
    }
  }

  /** A run that is honest with the courier as it is, is honest with the courier the database believes in. */
  lemma {:induction false} RunAlike(s: State, t: State, steps: seq<Step>, base: set<string>)
    requires Inv(s) && AllSettled(s, base) && Alike(s, t, base) && OldIssued(s.courier, t.courier, base)
    requires HonestRun(s, steps)
    ensures HonestRun(t, steps) && Alike(Run(s, steps), Run(t, steps), base)
    ensures OldIssued(Run(s, steps).courier, Run(t, steps).courier, base) && AllSettled(Run(s, steps), base)
  {
    hide Inv, Alike, OldIssued, AllSettled, Apply, Truthful, FreshAwb, StateEvolves;
    if steps != [] {
      var front, last := steps[..|steps| - 1], steps[|steps| - 1];
      RunAlike(s, t, front, base);
      RunKeeps(s, front);
      var s', t' := Run(s, front), Run(t, front);
      CellsOf(s');
      TruthfulAlike(s', t', last, base);
      FreshAlike(s', t', last, base);
      ApplyAlike(s', t', last, base);
      StepKeeps(s', last);
      SettledLasts(s', Apply(s', last), base);
    }
  }

  // ---- Honest continuations -----------------------------------------------------------------------------------

  lemma {:induction false} CourierRuns(s: State, steps: seq<Step>)
    ensures CourierExtends(s.courier, Run(s, steps).courier)
  {
    hide Effect, ReadsOk;
    if steps != [] {
      CourierRuns(s, steps[..|steps| - 1]);
      EffectOnCourier(Run(s, steps[..|steps| - 1]), steps[|steps| - 1]);
    }
  }

  /** What is booked in the end was live before, if it was settled then: a settled attempt that was not sent is
      not sent later, and so not booked. */
  lemma BookedWasLive(s: State, steps: seq<Step>, id: Uuid, k: nat)
    requires Inv(s) && Traced(s) && Quiescent(s) && id in s.cells && k < |s.cells[id].record.intents|
    requires IsBooked(Run(s, steps).courier, s.cells[id].record.intents[k].reference)
    ensures Live(s, id, k)
  {
    hide Inv, Run;
    assert s.cells[id].record.intents[k].outcome.Settled();
    CourierRuns(s, steps);
    if s.cells[id].record.intents[k].reference !in s.requested {
      UnsentNeverBooked(s, steps, id, k);
    }
  }

  /** A reference of an attempt that existed before is that attempt's. */
  lemma OldAttempt(s: State, s': State, id: Uuid, k: nat)
    requires CellsInv(s') && StateEvolves(s, s') && id in s'.cells && k < |s'.cells[id].record.intents|
    requires s'.cells[id].record.intents[k].reference in AttemptReferences(s)
    ensures id in s.cells && k < |s.cells[id].record.intents|
    ensures s.cells[id].record.intents[k].reference == s'.cells[id].record.intents[k].reference
  {
    hide CellInv, CellEvolves;
    var reference := s'.cells[id].record.intents[k].reference;
    var id', k' :| id' in s.cells && 0 <= k' < |s.cells[id'].record.intents|
        && s.cells[id'].record.intents[k'].reference == reference;
    AttemptLasts(s, s', id', k', reference);
    ReferencesDistinct(s', id, k, id', k');
  }

  /** In an honest continuation, an attempt that is booked and was followed by another existed before. */
  lemma EarlierIsOld(s: State, steps: seq<Step>, id: Uuid, i: nat)
    requires Reachable(s) && Quiescent(s) && AwbsIssued(s) && HonestRun(s, steps) && id in Run(s, steps).cells
    requires i + 1 < |Run(s, steps).cells[id].record.intents|
    requires IsBooked(Run(s, steps).courier, Run(s, steps).cells[id].record.intents[i].reference)
    ensures Run(s, steps).cells[id].record.intents[i].reference in AttemptReferences(s)
  {
    var t, base := AsBelieved(s), AttemptReferences(s);
    hide Reachable, Run, HonestRun, HonestInv, CellInv, AttemptReferences, AsBelieved, Traced;
    ReachableNormal(s);
    BelievedHonest(s);
    StartsAlike(s);
    AllAreSettled(s);
    hide AwbsIssued, AwbsNormal, Quiescent, AllSettled, OldIssued, Inv;
    RunAlike(s, t, steps, base);
    HonestRunKeeps(t, steps, base);
    EarlierNotBooked(Run(t, steps), id, i, base);
  }

  lemma RulingsAreOld(s: State)
    requires Traced(s)
    ensures s.courier.Keys <= AttemptReferences(s)
  {
    forall reference | reference in s.courier
      ensures reference in AttemptReferences(s)
    {
      assert reference in s.requested;
      var id: Uuid, k: nat :| Attempt(s, id, k, reference);
      assert s.cells[id].record.intents[k].reference in AttemptReferences(s);
    }
  }

  lemma StartsAlike(s: State)
    requires Inv(s) && Traced(s) && AwbsIssued(s) && AwbsNormal(s)
    ensures Alike(s, AsBelieved(s), AttemptReferences(s))
    ensures OldIssued(s.courier, AsBelieved(s).courier, AttemptReferences(s))
  {
    hide CellInv, Believed, AwbUnique, SingleCarrier, NormalizeAwb;
    var t, base := AsBelieved(s), AttemptReferences(s);
    RulingsAreOld(s);
    hide Traced, Inv;
    hide Issued;
    forall reference | reference in base && IsBooked(t.courier, reference)
      ensures Issued(s.courier, NormalizeAwb(t.courier[reference].awb))
    {
      var id, k :| id in s.cells && 0 <= k < |s.cells[id].record.intents|
          && s.cells[id].record.intents[k].reference == reference;
      BelievedOf(s, id, k);
    }
  }

  /** Safe to retry: every honest continuation books every shipment at most once. */
  lemma SafeStaysOnce(s: State, steps: seq<Step>)
    requires Reachable(s) && Quiescent(s) && SafeToRetry(s) && AwbsIssued(s) && HonestRun(s, steps)
    ensures AtMostOnce(Run(s, steps))
  {
    hide Reachable, Run, HonestRun, CellInv, SafeToRetry, AwbsIssued, Quiescent;
    var e := Run(s, steps);
    forall id, i, j | BookedAttempt(e, id, i) && BookedAttempt(e, id, j)
      ensures i == j
    {
      if i < j {
        TwiceIsUnsafe(s, steps, id, i, j);
      } else if j < i {
        TwiceIsUnsafe(s, steps, id, j, i);
      }
    }
  }

  /** Two bookings in the end mean two live attempts before, or one of a shipment that could be queued again. */
  lemma TwiceIsUnsafe(s: State, steps: seq<Step>, id: Uuid, i: nat, j: nat)
    requires Reachable(s) && Quiescent(s) && AwbsIssued(s) && HonestRun(s, steps)
    requires i < j && BookedAttempt(Run(s, steps), id, i) && BookedAttempt(Run(s, steps), id, j)
    ensures !SafeToRetry(s)
  {
    hide Run, HonestRun, CellInv, AttemptReferences, AwbsIssued, Quiescent, CanRetry, Live, AwbUnique, SingleCarrier;
    hide CellEvolves;
    EarlierIsOld(s, steps, id, i);
    assert Inv(s) && Traced(s) by { hide Inv, Traced; ReachableNormal(s); }
    hide Reachable;
    RunKeeps(s, steps);
    OldAttempt(s, Run(s, steps), id, i);
    BookedWasLive(s, steps, id, i);
    if j < |s.cells[id].record.intents| {
      SameReference(s, Run(s, steps), id, j);
      BookedWasLive(s, steps, id, j);
    } else if !CanRetry(s, id) {
      NoFurtherAttempt(s, steps, id);
    }
  }

  lemma SameReference(s: State, s': State, id: Uuid, k: nat)
    requires StateEvolves(s, s') && id in s.cells && k < |s.cells[id].record.intents|
    ensures id in s'.cells && k < |s'.cells[id].record.intents|
            && s'.cells[id].record.intents[k].reference == s.cells[id].record.intents[k].reference
  {
    assert CellEvolves(s.cells[id], s'.cells[id]);
  }
}
