/** What holds of attempts that are settled, whatever the courier answers: one whose create never left the
    process is never sent later, and every AWB stored is in normal form. */
module SettledAttempts {
  import opened Wrappers
  import opened BookingSnapshot
  import opened ShipmentRows
  import opened RecordInvariant
  import opened BookingProtocol
  import opened BookingInvariant
  import opened BookingEvolution
  import opened BookingSafety
  import opened ExactlyOnce

  // ---- Attempts that were never sent -----------------------------------------------------------------------------

  /** A step requests references of attempts in flight only. */
  lemma RequestsInFlight(s: State, step: Step, id: Uuid, k: nat)
    requires CellsInv(s) && id in s.cells && k < |s.cells[id].record.intents|
    requires s.cells[id].record.intents[k].reference in Effect(s, step).requested
    ensures s.cells[id].record.intents[k].reference in s.requested || s.cells[id].record.Unresolved(k)
  {
    hide CellsInv, Effect, NewRequest;
    EffectOnRequests(s, step);
    var reference := s.cells[id].record.intents[k].reference;
    if reference !in s.requested {
      NewRequestTraced(s, step, reference);
      SenderUnresolved(s, step, reference);
      ReferencesDistinct(s, id, k, step.id, step.k);
    }
  }

  lemma SenderUnresolved(s: State, step: Step, reference: string)
    requires CellsInv(s) && Subject(step).Some? && Subject(step).value in s.cells
    requires reference in NewRequest(s.cells[Subject(step).value], step)
    ensures step.SendCreate? && s.cells[step.id].record.Unresolved(step.k)
  {
    hide CellInv;
    AskerUnresolved(step.id, s.cells[step.id], step.k);
  }

  /** An attempt that was settled without its create having left the process is never sent later, in any run. */
  lemma {:induction false} UnsentForever(s: State, steps: seq<Step>, id: Uuid, k: nat)
    requires Inv(s) && id in s.cells && k < |s.cells[id].record.intents|
    requires s.cells[id].record.intents[k].outcome.Settled()
    requires s.cells[id].record.intents[k].reference !in s.requested
    ensures s.cells[id].record.intents[k].reference !in Run(s, steps).requested
  {
    hide Inv, Apply, StateEvolves;
    if steps != [] {
      var front, reference := Run(s, steps[..|steps| - 1]), s.cells[id].record.intents[k].reference;
      UnsentForever(s, steps[..|steps| - 1], id, k);
      RunKeeps(s, steps[..|steps| - 1]);
      CellsOf(front);
      SettledAttemptLasts(s, front, id, k, reference);
      StillUnsent(front, steps[|steps| - 1], id, k, reference);
    }
  }

  lemma StillUnsent(s: State, step: Step, id: Uuid, k: nat, reference: string)
    requires CellsInv(s) && SettledAttempt(s, id, k, reference) && reference !in s.requested
    ensures reference !in Apply(s, step).requested
  {
    hide CellsInv, Effect, ReadsOk;
    if reference in Effect(s, step).requested {
      RequestsInFlight(s, step, id, k);
    }
  }

  /** So it is never booked, and queueing the shipment again cannot book it twice on its account. */
  lemma UnsentNeverBooked(s: State, steps: seq<Step>, id: Uuid, k: nat)
    requires Inv(s) && Traced(s) && id in s.cells && k < |s.cells[id].record.intents|
    requires s.cells[id].record.intents[k].outcome.Settled() && s.cells[id].record.intents[k].reference !in s.requested
    ensures s.cells[id].record.intents[k].reference !in Run(s, steps).courier
  {
    hide Inv, Run;
    UnsentForever(s, steps, id, k);
    RunTraces(s, steps);
  }

  lemma CellsOf(s: State)
    requires Inv(s)
    ensures CellsInv(s)
  {
  }

  // ---- Normal AWBs --------------------------------------------------------------------------------------------

  ghost predicate NormalAwb(row: Shipment) {
    row.awb.Some? ==> NormalizeAwb(row.awb.value) == row.awb.value
  }

  ghost predicate AwbsNormal(s: State) {
    forall id :: id in s.cells ==> NormalAwb(s.cells[id].record.row)
  }

  lemma ConfirmsNormal(c: Cell, step: Step)
    ensures var awb := ConfirmingAwb(c, step); awb.Some? ==> NormalizeAwb(awb.value) == awb.value
  {
    if step.SettleWorker? && step.k in c.workers && c.workers[step.k].Answered? && c.workers[step.k].answer.Created? {
      NormalizeIdempotent(c.workers[step.k].answer.awb);
    } else if step.SettleResolver? && c.resolver.Looked? && c.resolver.awb.Some? {
      NormalizeIdempotent(c.resolver.awb.value);
    }
    hide NormalizeAwb;
  }

  lemma NextCellNormal(s: State, step: Step, id: Uuid)
    requires CellsInv(s) && id in s.cells && Subject(step) == Some(id) && NormalAwb(s.cells[id].record.row)
    ensures NormalAwb(NextCell(s, step, id).record.row)
  {
    hide CellInv, CellEvolves, CellStep, NormalizeAwb;
    NextCellKeeps(s, step, id);
    var c, c' := s.cells[id], NextCell(s, step, id);
    CellStays(id, c, c');
    if Landed(c'.record.row.state) && !Landed(c.record.row.state) {
      Lands(id, c, step, Outstanding(s, c.record.row.order));
      ConfirmsNormal(c, step);
    }
  }

  lemma EffectNormal(s: State, step: Step)
    requires CellsInv(s) && AwbsNormal(s)
    ensures AwbsNormal(Effect(s, step))
  {
    hide CellsInv, NormalizeAwb, NextCell, Effect;
    EffectOnCells(s, step);
    if Subject(step).Some? && Subject(step).value in s.cells {
      NextCellNormal(s, step, Subject(step).value);
    }
  }

  lemma {:induction false} RunNormal(s: State, steps: seq<Step>)
    requires Inv(s) && AwbsNormal(s)
    ensures AwbsNormal(Run(s, steps))
  {
    hide Inv, AwbsNormal, Effect, ReadsOk;
    if steps != [] {
      var front := Run(s, steps[..|steps| - 1]);
      RunNormal(s, steps[..|steps| - 1]);
      RunKeeps(s, steps[..|steps| - 1]);
      CellsOf(front);
      EffectNormal(front, steps[|steps| - 1]);
    }
  }

  lemma InitialNormal(outstanding: map<Uuid, nat>)
    ensures AwbsNormal(Initial(outstanding))
  {
  }

  /** What every run keeps, honest or not. */
  lemma ReachableNormal(s: State)
    requires Reachable(s)
    ensures Inv(s) && AwbsNormal(s) && Traced(s)
  {
    hide Inv, AwbsNormal, Run, Traced;
    var outstanding, steps :| s == Run(Initial(outstanding), steps);
    InitialInv(outstanding);
    InitialTraced(outstanding);
    InitialNormal(outstanding);
    RunKeeps(Initial(outstanding), steps);
    RunTraces(Initial(outstanding), steps);
    RunNormal(Initial(outstanding), steps);
  }
}
