/** The transactions taken apart: row lock, advisory lock on the AWB, lock on the order row, reads of what
    others have committed, commit. Whatever the interleaving, the committed state is that of a run of the
    atomic protocol: a negative answer read under its lock still holds at the commit. */
module BookingLocking {
  import opened Wrappers
  import opened BookingSnapshot
  import opened ShipmentRows
  import opened BookingTransactions
  import opened RecordInvariant
  import opened BookingProtocol
  import opened BookingInvariant
  import opened BookingEvolution
  import opened BookingSafety
  import Collectible

  datatype Check = ClaimCheck | ReentryCheck | WriteCheck | DuplicateCheck

  /** A transaction under way. It holds the lock on its shipment row; `row` is that row, `awb` what a
      confirmation is about to store. A read not yet made counts as the answer that commits nothing. */
  datatype OpenTx = OpenTx(step: Step, row: Shipment, awb: Option<string>, key: Option<string>, order: bool,
                           seen: Reads, done: set<Check>)

  /** Committed state, transactions by shipment, and the steps committed so far. */
  datatype Db = Db(state: State, open: map<Uuid, OpenTx>, log: seq<Step>)

  datatype Action =
    | Begin(step: Step)
    | LockAwb(id: Uuid)
    | CheckDuplicate(id: Uuid)
    | LockOrder(id: Uuid)
    | CheckCarrier(id: Uuid, check: Check)
    | Commit(id: Uuid)
    | Rollback(id: Uuid)
    | Elsewhere(step: Step)

  /** The advisory lock's key. */
  function AwbKey(row: Shipment, awb: string): string {
    row.account.GetOr("") + ":" + awb
  }

  /** The row that a transaction writes last, where the collectible trigger fires on it. */
  function WrittenCollectible(c: Cell, step: Step, outstanding: Option<nat>, seen: Reads): nat {
    if step.QueueBooking? then ClaimedCollectible(step.input, outstanding, seen.claim)
    else if step.SettleCancel? then 0
    else c.record.row.collectible
  }

  /** The reads a transaction makes before it can commit. */
  function Required(c: Cell, t: OpenTx, outstanding: Option<nat>): set<Check> {
    (if t.awb.Some? then {DuplicateCheck} else {})
    + (if t.step.QueueBooking? && c.record.row.state in {Draft, NeedsManualAssignment, Failed} then {ClaimCheck}
       else {})
    + (if t.step.QueueBooking? && c.record.row.state in {NeedsManualAssignment, Failed} && c.record.row.collectible > 0
       then {ReentryCheck} else {})
    + (if WrittenCollectible(c, t.step, outstanding, t.seen) > 0 then {WriteCheck} else {})
  }

  predicate TouchesRow(step: Step) {
    step.RequestCancel? || step.SchedulePickup? || step.ReversePickup? || step.PickedUp?
  }

  function WithCheck(t: OpenTx, check: Check, answer: bool): OpenTx {
    t.(done := t.done + {check},
       seen := match check
               case ClaimCheck => t.seen.(claim := answer)
               case ReentryCheck => t.seen.(reentry := answer)
               case WriteCheck => t.seen.(write := answer)
               case DuplicateCheck => t.seen.(duplicate := answer))
  }

  predicate KeyFree(db: Db, id: Uuid, key: string) {
    forall other :: other in db.open && other != id ==> db.open[other].key != Some(key)
  }

  predicate OrderFree(db: Db, id: Uuid, order: Uuid) {
    forall other :: other in db.open && other != id && db.open[other].order ==> db.open[other].row.order != order
  }

  /** The process that opened the transaction is still there, and every read has been made. */
  predicate CanCommit(db: Db, id: Uuid) {
    id in db.open && Transactional(db.open[id].step) && id in db.state.cells
    && var t, c := db.open[id], db.state.cells[id];
       ConfirmingAwb(c, t.step) == t.awb && Required(c, t, Outstanding(db.state, c.record.row.order)) <= t.done
  }

  function CommitStep(db: Db, id: Uuid): Step
    requires CanCommit(db, id)
  {
    db.open[id].step.(seen := db.open[id].seen)
  }

  function Commits(db: Db, step: Step, open: map<Uuid, OpenTx>): Db {
    Db(Effect(db.state, step), open, db.log + [step])
  }

  /** One action; an action that is not enabled waits, and changes nothing. */
  function Act(db: Db, action: Action): Db {
    match action
    case Begin(step) =>
      if !Transactional(step) || step.id !in db.state.cells || step.id in db.open then db
      else
        var c := db.state.cells[step.id];
        db.(open := db.open[step.id := OpenTx(step, c.record.row, ConfirmingAwb(c, step), None, false, CAUTIOUS, {})])
    case LockAwb(id) =>
      if id !in db.open || db.open[id].awb.None? || !KeyFree(db, id, AwbKey(db.open[id].row, db.open[id].awb.value))
         then db
      else db.(open := db.open[id := db.open[id].(key := Some(AwbKey(db.open[id].row, db.open[id].awb.value)))])
    case CheckDuplicate(id) =>
      if id !in db.open || id !in db.state.cells || db.open[id].awb.None? || db.open[id].key.None? then db
      else db.(open := db.open[id := WithCheck(db.open[id], DuplicateCheck,
                                               Duplicate(db.state, id, db.open[id].awb.value))])
    case LockOrder(id) =>
      if id !in db.open || !OrderFree(db, id, db.open[id].row.order) then db
      else db.(open := db.open[id := db.open[id].(order := true)])
    case CheckCarrier(id, check) =>
      if id !in db.open || id !in db.state.cells || !db.open[id].order || check == DuplicateCheck then db
      else db.(open := db.open[id := WithCheck(db.open[id], check, OtherCarrier(db.state, id))])
    case Commit(id) =>
      if !CanCommit(db, id) then db else Commits(db, CommitStep(db, id), db.open - {id})
    case Rollback(id) => db.(open := db.open - {id})
    case Elsewhere(step) =>
      if Transactional(step) || (TouchesRow(step) && step.id in db.open) then db
      else Commits(db, step, db.open)
  }

  function Interleave(db: Db, actions: seq<Action>): Db {
    if actions == [] then db else Act(Interleave(db, actions[..|actions| - 1]), actions[|actions| - 1])
  }

  // ---- The invariant ------------------------------------------------------------------------------------------

  /** What an open transaction has read still holds. */
  ghost predicate TxOk(s: State, id: Uuid, t: OpenTx) {
    && id in s.cells && Transactional(t.step) && t.step.id == id && s.cells[id].record.row == t.row
    && (!t.seen.claim || !t.seen.reentry || !t.seen.write ==> t.order && !OtherCarrier(s, id))
    && (t.key.Some? ==> t.awb.Some? && t.key.value == AwbKey(t.row, t.awb.value))
    && (DuplicateCheck in t.done ==> t.key.Some? && (!t.seen.duplicate ==> !Duplicate(s, id, t.awb.value)))
    && (t.seen.duplicate ==> t.awb.Some? && DuplicateEver(s, id, t.awb.value))
  }

  /** Locks exclude each other. */
  ghost predicate Exclusive(open: map<Uuid, OpenTx>) {
    forall a, b :: a in open && b in open && a != b ==>
      && (open[a].key.Some? ==> open[a].key != open[b].key)
      && (open[a].order && open[b].order ==> open[a].row.order != open[b].row.order)
  }

  ghost predicate DbInv(outstanding: map<Uuid, nat>, db: Db) {
    && Inv(db.state) && Exclusive(db.open) && db.state == Run(Initial(outstanding), db.log)
    && forall id :: id in db.open ==> TxOk(db.state, id, db.open[id])
  }

  /** The step of one transaction does not interfere with the locks of another. */
  ghost predicate Excluded(s: State, step: Step, t: OpenTx) {
    Transactional(step) && step.id in s.cells ==>
      var row := s.cells[step.id].record.row;
      && (!step.seen.write && t.order ==> row.order != t.row.order)
      && (t.key.Some? && ConfirmingAwb(s.cells[step.id], step).Some? ==>
            AwbKey(row, ConfirmingAwb(s.cells[step.id], step).value) != t.key.value)
  }

  lemma CarriersStable(s: State, step: Step, id: Uuid, t: OpenTx)
    requires Inv(s) && TxOk(s, id, t) && Excluded(s, step, t) && Subject(step) != Some(id)
    requires t.order && !OtherCarrier(s, id) && id in Effect(s, step).cells
    requires Effect(s, step).cells[id].record.row == t.row
    ensures !OtherCarrier(Effect(s, step), id)
  {
    hide CellInv, NextCell, Effect, Duplicate, DuplicateEver, ConfirmingAwb, AwbUnique, SingleCarrier;
    EffectOnCells(s, step);
    if Subject(step).Some? && Subject(step).value in s.cells {
      NextCellActive(s, step, Subject(step).value);
    }
  }

  lemma AwbsStable(s: State, step: Step, id: Uuid, t: OpenTx)
    requires Inv(s) && TxOk(s, id, t) && Excluded(s, step, t) && Subject(step) != Some(id)
    requires t.key.Some? && !Duplicate(s, id, t.awb.value) && id in Effect(s, step).cells
    requires Effect(s, step).cells[id].record.row == t.row
    ensures !Duplicate(Effect(s, step), id, t.awb.value)
  {
    hide CellInv, NextCell, Effect, OtherCarrier, DuplicateEver, ConfirmingAwb, AwbUnique, SingleCarrier;
    EffectOnCells(s, step);
    if Subject(step).Some? && Subject(step).value in s.cells {
      NextCellActive(s, step, Subject(step).value);
    }
  }

  /** A shipment that once held an AWB holds it for ever. */
  lemma HoldersStay(s: State, s': State, id: Uuid, awb: string)
    requires CellsInv(s) && StateEvolves(s, s') && id in s.cells && DuplicateEver(s, id, awb)
    requires s'.cells[id].record.row == s.cells[id].record.row
    ensures DuplicateEver(s', id, awb)
  {
    hide IntentsInv, WorkersInv, ResolverOk, SentInv, CancelInv, LedgerInv, CountersInv;
    var other :| other in s.cells && other != id && SameAwb(s.cells[id].record.row, s.cells[other].record.row, awb);
    assert CellInv(other, s.cells[other]) && CellEvolves(s.cells[other], s'.cells[other]);
    assert SameAwb(s'.cells[id].record.row, s'.cells[other].record.row, awb);
  }

  /** What others commit leaves an open transaction's reads valid. */
  lemma OthersKeepTx(s: State, step: Step, id: Uuid, t: OpenTx)
    requires Inv(s) && ReadsOk(s, step) && TxOk(s, id, t) && Excluded(s, step, t) && Subject(step) != Some(id)
    ensures TxOk(Effect(s, step), id, t)
  {
    hide CellInv, NextCell, Effect, OtherCarrier, Duplicate, DuplicateEver, ConfirmingAwb, AwbUnique, SingleCarrier;
    hide ReadsOk, Excluded, CellEvolves;
    EffectOnCells(s, step);
    StepKeepsCells(s, step);
    if t.order && !OtherCarrier(s, id) {
      CarriersStable(s, step, id, t);
    }
    if t.key.Some? && !Duplicate(s, id, t.awb.value) {
      AwbsStable(s, step, id, t);
    }
    if t.seen.duplicate {
      HoldersStay(s, Effect(s, step), id, t.awb.value);
    }
  }

  /** A process of the same shipment moves; the row and the other shipments stay as they are. */
  lemma OwnProcessKeepsTx(s: State, step: Step, id: Uuid, t: OpenTx)
    requires TxOk(s, id, t) && Subject(step) == Some(id) && !Transactional(step) && !TouchesRow(step)
    ensures TxOk(Effect(s, step), id, t)
  {
    hide CellStep, Seal, NewRequest, NewlySealed;
    if !step.InsertShipment? {
      Collectible.CallsFreezeNothing(s.cells[id], step, Outstanding(s, s.cells[id].record.row.order));
    }
    SameRowsKeepTx(s, Effect(s, step), id, t);
  }

  lemma SameRowsKeepTx(s: State, s': State, id: Uuid, t: OpenTx)
    requires TxOk(s, id, t) && s'.cells.Keys == s.cells.Keys
    requires forall other :: other in s.cells ==> s'.cells[other].record.row == s.cells[other].record.row
    ensures TxOk(s', id, t)
  {
    if t.awb.Some? {
      assert Duplicate(s', id, t.awb.value) == Duplicate(s, id, t.awb.value);
      assert DuplicateEver(s', id, t.awb.value) == DuplicateEver(s, id, t.awb.value);
    }
    assert OtherCarrier(s', id) == OtherCarrier(s, id);
  }

  // ---- Commits ------------------------------------------------------------------------------------------------

  /** A committing transaction's reads are what the atomic step asks for. */
  lemma CommitReadsHold(db: Db, id: Uuid)
    requires CanCommit(db, id) && TxOk(db.state, id, db.open[id])
    ensures ReadsOk(db.state, CommitStep(db, id))
    ensures ConfirmingAwb(db.state.cells[id], CommitStep(db, id)) == db.open[id].awb
  {
    hide Duplicate, DuplicateEver, OtherCarrier, NormalizeAwb, WrittenCollectible;
    assert db.open[id].awb.Some? ==>
             DuplicateCheck in Required(db.state.cells[id], db.open[id],
                                        Outstanding(db.state, db.state.cells[id].record.row.order));
  }

  lemma CommitExcluded(db: Db, id: Uuid, other: Uuid)
    requires CanCommit(db, id) && other in db.open && other != id && Exclusive(db.open)
    requires TxOk(db.state, id, db.open[id]) && TxOk(db.state, other, db.open[other])
    ensures Excluded(db.state, CommitStep(db, id), db.open[other])
  {
    hide Duplicate, DuplicateEver, OtherCarrier, AwbKey, WrittenCollectible;
    CommitReadsHold(db, id);
    hide ReadsOk, ConfirmingAwb;
    assert db.open[id].awb.Some? ==>
             DuplicateCheck in Required(db.state.cells[id], db.open[id],
                                        Outstanding(db.state, db.state.cells[id].record.row.order));
  }

  lemma AppliedIsRun(outstanding: map<Uuid, nat>, db: Db, step: Step)
    requires db.state == Run(Initial(outstanding), db.log) && ReadsOk(db.state, step)
    ensures Effect(db.state, step) == Run(Initial(outstanding), db.log + [step])
  {
    hide Effect, ReadsOk;
    assert (db.log + [step])[..|db.log|] == db.log;
  }

  lemma OthersSurviveCommit(db: Db, id: Uuid)
    requires Inv(db.state) && CanCommit(db, id) && Exclusive(db.open) && forall x :: x in db.open ==>
               TxOk(db.state, x, db.open[x])
    ensures forall other :: other in db.open && other != id ==>
              TxOk(Effect(db.state, CommitStep(db, id)), other, db.open[other])
  {
    hide Inv, Effect, TxOk, ReadsOk, Exclusive;
    CommitReadsHold(db, id);
    forall other | other in db.open && other != id
      ensures TxOk(Effect(db.state, CommitStep(db, id)), other, db.open[other])
    {
      CommitExcluded(db, id, other);
      CommitSubject(db, id);
      OthersKeepTx(db.state, CommitStep(db, id), other, db.open[other]);
    }
  }

  lemma CommitSubject(db: Db, id: Uuid)
    requires CanCommit(db, id) && TxOk(db.state, id, db.open[id])
    ensures Subject(CommitStep(db, id)) == Some(id)
  {
  }

  lemma CommitIsOpen(db: Db, id: Uuid)
    requires CanCommit(db, id)
    ensures id in db.open && id in db.state.cells
  {
  }

  lemma CommitKeeps(outstanding: map<Uuid, nat>, db: Db, id: Uuid)
    requires DbInv(outstanding, db) && CanCommit(db, id)
    ensures DbInv(outstanding, Commits(db, CommitStep(db, id), db.open - {id}))
  {
    hide Inv, TxOk, Effect, Run, ReadsOk, CanCommit, StateEvolves, CommitStep, ConfirmingAwb;
    var step := CommitStep(db, id);
    CommitIsOpen(db, id);
    CommitReadsHold(db, id);
    AppliedIsRun(outstanding, db, step);
    StepKeeps(db.state, step);
    OthersSurviveCommit(db, id);
  }

  lemma ElsewhereKeeps(outstanding: map<Uuid, nat>, db: Db, step: Step)
    requires DbInv(outstanding, db) && !Transactional(step) && (TouchesRow(step) ==> step.id !in db.open)
    ensures DbInv(outstanding, Commits(db, step, db.open))
  {
    hide Inv, TxOk, Effect, Run, StateEvolves, CellStep;
    AppliedIsRun(outstanding, db, step);
    StepKeeps(db.state, step);
    forall id | id in db.open
      ensures TxOk(Effect(db.state, step), id, db.open[id])
    {
      if Subject(step) == Some(id) {
        OwnProcessKeepsTx(db.state, step, id, db.open[id]);
      } else {
        OthersKeepTx(db.state, step, id, db.open[id]);
      }
    }
  }

  /** Replacing one open transaction. */
  lemma ReplaceKeeps(outstanding: map<Uuid, nat>, db: Db, id: Uuid, t: OpenTx)
    requires DbInv(outstanding, db) && TxOk(db.state, id, t)
    requires t.key.Some? ==> KeyFree(db, id, t.key.value)
    requires t.order ==> OrderFree(db, id, t.row.order)
    ensures DbInv(outstanding, db.(open := db.open[id := t]))
  {
    hide Inv, Run, TxOk;
  }

  lemma ExclusiveFrees(db: Db, id: Uuid)
    requires Exclusive(db.open) && id in db.open
    ensures db.open[id].key.Some? ==> KeyFree(db, id, db.open[id].key.value)
    ensures db.open[id].order ==> OrderFree(db, id, db.open[id].row.order)
  {
  }

  lemma OpenedOk(s: State, step: Step)
    requires Transactional(step) && step.id in s.cells
    ensures var c := s.cells[step.id];
            TxOk(s, step.id, OpenTx(step, c.record.row, ConfirmingAwb(c, step), None, false, CAUTIOUS, {}))
  {
    hide Duplicate, DuplicateEver, OtherCarrier, ConfirmingAwb;
  }

  lemma BeginKeeps(outstanding: map<Uuid, nat>, db: Db, step: Step)
    requires DbInv(outstanding, db) && Transactional(step) && step.id in db.state.cells && step.id !in db.open
    ensures DbInv(outstanding, Act(db, Begin(step)))
  {
    hide TxOk, DbInv, ConfirmingAwb;
    var c := db.state.cells[step.id];
    var t := OpenTx(step, c.record.row, ConfirmingAwb(c, step), None, false, CAUTIOUS, {});
    OpenedOk(db.state, step);
    ReplaceKeeps(outstanding, db, step.id, t);
  }

  lemma LockingKeeps(outstanding: map<Uuid, nat>, db: Db, action: Action)
    requires DbInv(outstanding, db) && (action.LockAwb? || action.LockOrder?) && action.id in db.open
    ensures DbInv(outstanding, Act(db, action))
  {
    hide Inv, Run, Duplicate, DuplicateEver, OtherCarrier, AwbKey, KeyFree, OrderFree, Exclusive;
    var t := db.open[action.id];
    assert TxOk(db.state, action.id, t);
    ExclusiveFrees(db, action.id);
    if action.LockAwb? && t.awb.Some? && KeyFree(db, action.id, AwbKey(t.row, t.awb.value)) {
      ReplaceKeeps(outstanding, db, action.id, t.(key := Some(AwbKey(t.row, t.awb.value))));
    }
    if action.LockOrder? && OrderFree(db, action.id, t.row.order) {
      ReplaceKeeps(outstanding, db, action.id, t.(order := true));
    }
  }

  lemma RollbackKeeps(outstanding: map<Uuid, nat>, db: Db, id: Uuid)
    requires DbInv(outstanding, db)
    ensures DbInv(outstanding, Act(db, Rollback(id)))
  {
    hide Inv, Run, TxOk;
  }

  lemma CheckingKeeps(outstanding: map<Uuid, nat>, db: Db, action: Action)
    requires DbInv(outstanding, db) && (action.CheckDuplicate? || action.CheckCarrier?) && action.id in db.open
    ensures DbInv(outstanding, Act(db, action))
  {
    hide Inv, Run, Duplicate, DuplicateEver, OtherCarrier, AwbKey, KeyFree, OrderFree, Exclusive;
    var id, t := action.id, db.open[action.id];
    assert TxOk(db.state, id, t);
    ExclusiveFrees(db, id);
    if action.CheckDuplicate? && t.awb.Some? && t.key.Some? {
      if Duplicate(db.state, id, t.awb.value) {
        DuplicateIsEver(db.state, id, t.awb.value);
      }
      ReplaceKeeps(outstanding, db, id, WithCheck(t, DuplicateCheck, Duplicate(db.state, id, t.awb.value)));
    }
    if action.CheckCarrier? && t.order && action.check != DuplicateCheck {
      ReplaceKeeps(outstanding, db, id, WithCheck(t, action.check, OtherCarrier(db.state, id)));
    }
  }

  lemma DuplicateIsEver(s: State, id: Uuid, awb: string)
    requires id in s.cells && Duplicate(s, id, awb)
    ensures DuplicateEver(s, id, awb)
  {
  }

  lemma ActKeeps(outstanding: map<Uuid, nat>, db: Db, action: Action)
    requires DbInv(outstanding, db)
    ensures DbInv(outstanding, Act(db, action))
  {
    hide DbInv, CanCommit, KeyFree, OrderFree, ConfirmingAwb, OtherCarrier, Duplicate;
    match action
    case Commit(id) =>
      if CanCommit(db, id) {
        CommitKeeps(outstanding, db, id);
      }
    case Elsewhere(step) =>
      if !Transactional(step) && (TouchesRow(step) ==> step.id !in db.open) {
        ElsewhereKeeps(outstanding, db, step);
      }
    case CheckDuplicate(id) =>
      if id in db.open {
        CheckingKeeps(outstanding, db, action);
      }
    case CheckCarrier(id, _) =>
      if id in db.open {
        CheckingKeeps(outstanding, db, action);
      }
    case Begin(step) =>
      if Transactional(step) && step.id in db.state.cells && step.id !in db.open {
        BeginKeeps(outstanding, db, step);
      }
    case LockAwb(id) =>
      if id in db.open {
        LockingKeeps(outstanding, db, action);
      }
    case LockOrder(id) =>
      if id in db.open {
        LockingKeeps(outstanding, db, action);
      }
    case Rollback(id) => RollbackKeeps(outstanding, db, id);
  }

  lemma {:induction false} InterleaveKeeps(outstanding: map<Uuid, nat>, db: Db, actions: seq<Action>)
    requires DbInv(outstanding, db)
    ensures DbInv(outstanding, Interleave(db, actions))
  {
    hide DbInv, Act;
    if actions != [] {
      InterleaveKeeps(outstanding, db, actions[..|actions| - 1]);
      ActKeeps(outstanding, Interleave(db, actions[..|actions| - 1]), actions[|actions| - 1]);
    }
  }

  ghost predicate Interleaved(outstanding: map<Uuid, nat>, db: Db) {
    exists actions :: db == Interleave(Db(Initial(outstanding), map[], []), actions)
  }

  /** Every interleaving of locks, reads, writes and commits ends in the state of an atomic run: that of the
      committed steps in commit order. So AWBs stay unique and an order keeps at most one carrier. */
  lemma InterleavingRefinesAtomic(outstanding: map<Uuid, nat>, db: Db)
    requires Interleaved(outstanding, db)
    ensures db.state == Run(Initial(outstanding), db.log)
    ensures AwbUnique(db.state) && SingleCarrier(db.state)
  {
    hide Interleave, CellsInv, AwbUnique, SingleCarrier, Run;
    var actions :| db == Interleave(Db(Initial(outstanding), map[], []), actions);
    FirstDbInv(outstanding);
    InterleaveKeeps(outstanding, Db(Initial(outstanding), map[], []), actions);
  }

  lemma FirstDbInv(outstanding: map<Uuid, nat>)
    ensures DbInv(outstanding, Db(Initial(outstanding), map[], []))
  {
    InitialInv(outstanding);
    hide Inv;
  }
}
