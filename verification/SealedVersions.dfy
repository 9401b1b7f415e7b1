/** Sealed master data: the version rows a booking refers to stay as they are for the rest of the run, and
    their columns are the frozen ones exactly when the booking had read current rows. */
module SealedVersions {
  import opened Wrappers
  import opened BookingSnapshot
  import opened ShipmentRows
  import opened BookingTransactions
  import opened RecordInvariant
  import opened BookingProtocol
  import opened BookingInvariant
  import opened BookingEvolution
  import opened BookingSafety
  import Collectible

  type Versions = map<VersionKey, VersionRow>

  /** The rows `input` refers to exist and, where the snapshot copies columns, hold the copied values. */
  ghost predicate ReadsCurrent(versions: Versions, input: BookingInput) {
    && (forall key :: key in References(input) ==> key in versions)
    && (input.version.Some? ==> versions[ServiceKey(input.version.value.id)].columns == input.version.value.columns)
  }

  ghost predicate SealedAsFrozen(versions: Versions, input: BookingInput) {
    ReadsCurrent(versions, input) && forall key :: key in References(input) ==> versions[key].isSealed
  }

  /** Sealed rows stay, unchanged. */
  ghost predicate SealsLast(versions: Versions, versions': Versions) {
    forall key :: key in versions && versions[key].isSealed ==> key in versions' && versions'[key] == versions[key]
  }

  lemma SealKeepsColumns(versions: Versions, keys: set<VersionKey>)
    ensures var versions' := Seal(versions, keys);
            && versions'.Keys == versions.Keys
            && forall key :: key in versions ==>
                 && versions'[key].columns == versions[key].columns
                 && (versions'[key].isSealed <==> versions[key].isSealed || key in keys)
  {
  }

  lemma EffectKeepsSeals(s: State, step: Step)
    ensures SealsLast(s.versions, Effect(s, step).versions)
  {
    hide CellStep, NewRequest, NewlySealed;
    if Subject(step).Some? && Subject(step).value in s.cells {
      var c := s.cells[Subject(step).value];
      SealKeepsColumns(s.versions, NewlySealed(c, step, Outstanding(s, c.record.row.order)));
    }
    hide Seal;
  }

  /** The master data services can write or delete a version row exactly as long as no booking has sealed it. */
  lemma WritesExactly(s: State, key: VersionKey, columns: VersionColumns)
    ensures var isSealed := key in s.versions && s.versions[key].isSealed;
            && Apply(s, WriteVersion(key, columns))
               == (if isSealed then s else s.(versions := s.versions[key := VersionRow(false, columns)]))
            && Apply(s, DeleteVersion(key)) == (if isSealed then s else s.(versions := s.versions - {key}))
  {
  }

  lemma StepKeepsSeals(s: State, step: Step)
    ensures SealsLast(s.versions, Apply(s, step).versions)
  {
    hide Effect, ReadsOk;
    if ReadsOk(s, step) {
      EffectKeepsSeals(s, step);
    }
  }

  /** guard_sealed_version holds over whole runs. */
  lemma {:induction false} SealedForever(s: State, steps: seq<Step>)
    ensures SealsLast(s.versions, Run(s, steps).versions)
  {
    hide Apply;
    if steps != [] {
      SealedForever(s, steps[..|steps| - 1]);
      StepKeepsSeals(Run(s, steps[..|steps| - 1]), steps[|steps| - 1]);
    }
  }

  lemma SealedAsFrozenLasts(versions: Versions, versions': Versions, input: BookingInput)
    requires SealedAsFrozen(versions, input) && SealsLast(versions, versions')
    ensures SealedAsFrozen(versions', input)
  {
    if input.version.Some? {
      assert ServiceKey(input.version.value.id) in References(input);
    }
  }

  // ---- One booking --------------------------------------------------------------------------------------------

  /** The step commits a booking attempt. */
  ghost predicate Queues(s: State, step: Step) {
    && step.QueueBooking? && step.id in s.cells && ReadsOk(s, step)
    && QueueTx(s.cells[step.id].record, step.id, step.input, Outstanding(s, s.cells[step.id].record.row.order),
               step.seen).Committed?
  }

  lemma QueueSeals(s: State, step: Step)
    requires Queues(s, step)
    ensures Apply(s, step).versions == Seal(s.versions, References(step.input))
  {
    hide QueueTx, Seal, ReadsHold;
  }

  /** The booking's rows are sealed as frozen for the rest of every run if and only if the transaction had
      read current rows; a row edited between the read and the seal never matches again. */
  lemma SealedExactlyWhenCurrent(s: State, step: Step, steps: seq<Step>)
    requires Queues(s, step)
    ensures ReadsCurrent(s.versions, step.input) <==> SealedAsFrozen(Apply(s, step).versions, step.input)
    ensures ReadsCurrent(s.versions, step.input) ==> SealedAsFrozen(Run(Apply(s, step), steps).versions, step.input)
    ensures step.input.version.Some? && ServiceKey(step.input.version.value.id) in s.versions
            && s.versions[ServiceKey(step.input.version.value.id)].columns != step.input.version.value.columns
            ==> !SealedAsFrozen(Run(Apply(s, step), steps).versions, step.input)
  {
    var queued := Apply(s, step);
    QueueSeals(s, step);
    hide Apply, Run, Queues;
    SealKeepsColumns(s.versions, References(step.input));
    if step.input.version.Some? {
      assert ServiceKey(step.input.version.value.id) in References(step.input);
    }
    hide Seal, References;
    SealedForever(queued, steps);
    if ReadsCurrent(s.versions, step.input) {
      SealedAsFrozenLasts(queued.versions, Run(queued, steps).versions, step.input);
    }
  }

  // ---- Whole runs ---------------------------------------------------------------------------------------------

  /** Every booking reads current master data, as it does when transactions are serialised. */
  ghost predicate CurrentRun(s: State, steps: seq<Step>) {
    steps != [] ==>
      var front, last := steps[..|steps| - 1], steps[|steps| - 1];
      CurrentRun(s, front) && (last.QueueBooking? ==> ReadsCurrent(Run(s, front).versions, last.input))
  }

  ghost predicate AllSealed(s: State) {
    forall id, k :: id in s.cells && 0 <= k < |s.cells[id].record.frozen| ==>
          SealedAsFrozen(s.versions, s.cells[id].record.frozen[k].input)
  }

  /** What a step adds to the frozen attempts is the input of a booking it commits. */
  lemma FrozenGrows(s: State, step: Step, id: Uuid, k: nat)
    requires CellsInv(s) && id in s.cells && Subject(step) == Some(id)
    requires var n := |s.cells[id].record.frozen|;
             k < |NextCell(s, step, id).record.frozen| && k >= n
    ensures step.QueueBooking? && NextCell(s, step, id).record.frozen[k].input == step.input
    ensures ReadsOk(s, step) ==> Queues(s, step)
  {
    hide CellInv, QueueTx, ReadsOk, CellStep;
    if step.QueueBooking? {
      QueuedInput(s, step, id);
    } else {
      Collectible.OnlyQueueFreezes(s.cells[id], step, Outstanding(s, s.cells[id].record.row.order));
    }
  }

  lemma QueuedInput(s: State, step: Step, id: Uuid)
    requires CellsInv(s) && id in s.cells && step.QueueBooking? && step.id == id
    ensures var c := s.cells[id];
            var result := QueueTx(c.record, id, step.input, Outstanding(s, c.record.row.order), step.seen);
            && NextCell(s, step, id).record == (if result.Committed? then result.record else c.record)
            && (result.Committed? ==> |result.record.frozen| == |c.record.frozen| + 1
                                      && result.record.frozen[|c.record.frozen|].input == step.input)
  {
    hide CellInv, QueueTx, RecordInv;
    RecordOf(id, s.cells[id]);
    RecordInvariant.QueueKeeps(id, s.cells[id].record, step.input, Outstanding(s, s.cells[id].record.row.order),
                               step.seen);
  }

  lemma RecordOf(id: Uuid, c: Cell)
    requires CellInv(id, c)
    ensures RecordInv(id, c.record)
  {
  }

  lemma StepKeepsAllSealed(s: State, step: Step)
    requires Inv(s) && AllSealed(s) && (step.QueueBooking? ==> ReadsCurrent(s.versions, step.input))
    ensures AllSealed(Apply(s, step))
  {
    hide CellInv, NextCell, Effect, ReadsOk, SealedAsFrozen, ReadsCurrent, SealsLast, CellEvolves, AwbUnique;
    hide SingleCarrier, Queues;
    var s' := Apply(s, step);
    StepKeepsSeals(s, step);
    forall id, k | id in s'.cells && 0 <= k < |s'.cells[id].record.frozen|
      ensures SealedAsFrozen(s'.versions, s'.cells[id].record.frozen[k].input)
    {
      if ReadsOk(s, step) {
        EffectOnCells(s, step);
      }
      AttemptSealed(s, step, id, k);
    }
  }

  lemma AttemptSealed(s: State, step: Step, id: Uuid, k: nat)
    requires Inv(s) && AllSealed(s) && (step.QueueBooking? ==> ReadsCurrent(s.versions, step.input))
    requires ReadsOk(s, step) ==> CellsAfter(s, step, Apply(s, step).cells)
    requires id in Apply(s, step).cells && k < |Apply(s, step).cells[id].record.frozen|
    ensures SealedAsFrozen(Apply(s, step).versions, Apply(s, step).cells[id].record.frozen[k].input)
  {
    hide CellInv, NextCell, Effect, ReadsOk, SealedAsFrozen, ReadsCurrent, SealsLast, AwbUnique, SingleCarrier;
    hide Queues, CellEvolves;
    StepKeepsSeals(s, step);
    var s' := Apply(s, step);
    if id in s.cells && s'.cells[id] == s.cells[id] {
      SealedAsFrozenLasts(s.versions, s'.versions, s.cells[id].record.frozen[k].input);
    } else if id in s.cells {
      NextAttemptSealed(s, step, id, k);
    }
  }

  lemma NextAttemptSealed(s: State, step: Step, id: Uuid, k: nat)
    requires Inv(s) && AllSealed(s) && (step.QueueBooking? ==> ReadsCurrent(s.versions, step.input))
    requires id in s.cells && Subject(step) == Some(id) && ReadsOk(s, step) && k < |NextCell(s, step, id).record.frozen|
    ensures SealedAsFrozen(Apply(s, step).versions, NextCell(s, step, id).record.frozen[k].input)
  {
    hide CellInv, Effect, ReadsOk, SealedAsFrozen, ReadsCurrent, SealsLast, AwbUnique, SingleCarrier, Queues, NextCell;
    var before := s.cells[id].record.frozen;
    StepKeepsSeals(s, step);
    if k < |before| {
      NextCellKeeps(s, step, id);
      assert NextCell(s, step, id).record.frozen[k] == before[k];
      SealedAsFrozenLasts(s.versions, Apply(s, step).versions, before[k].input);
    } else {
      FrozenGrows(s, step, id, k);
      SealedExactlyWhenCurrent(s, step, []);
    }
  }

  lemma {:induction false} RunKeepsAllSealed(s: State, steps: seq<Step>)
    requires Inv(s) && AllSealed(s) && CurrentRun(s, steps)
    ensures AllSealed(Run(s, steps))
  {
    hide Inv, AllSealed, Apply, ReadsCurrent;
    if steps != [] {
      var front := steps[..|steps| - 1];
      RunKeepsAllSealed(s, front);
      RunKeeps(s, front);
      StepKeepsAllSealed(Run(s, front), steps[|steps| - 1]);
    }
  }

  ghost predicate SeriallyReachable(s: State) {
    exists outstanding, steps :: CurrentRun(Initial(outstanding), steps) && s == Run(Initial(outstanding), steps)
  }

  /** With serialised bookings every version row any snapshot of any shipment refers to is sealed and holds
      the frozen columns, at every moment of every run. */
  lemma SnapshotsSealed(s: State)
    requires SeriallyReachable(s)
    ensures AllSealed(s)
  {
    hide CellInv, Run, CurrentRun, AwbUnique, SingleCarrier;
    var outstanding, steps :| CurrentRun(Initial(outstanding), steps) && s == Run(Initial(outstanding), steps);
    InitialInv(outstanding);
    RunKeepsAllSealed(Initial(outstanding), steps);
  }
}
