/** The other half of the refinement: a transaction that nobody interleaves gets its locks, makes its reads and
    commits, and its commit is the atomic step with exactly what the database then held. */
module SerialTransactions {
  import opened Wrappers
  import opened ShipmentRows
  import opened BookingSnapshot
  import opened BookingTransactions
  import opened BookingProtocol
  import opened BookingLocking

  /** Every statement of a transaction, in order; a transaction that stores no AWB passes over the first lock. */
  function Statements(step: Step): seq<Action>
    requires Transactional(step)
  {
    var id := step.id;
    [Begin(step), LockAwb(id), CheckDuplicate(id), LockOrder(id), CheckCarrier(id, ClaimCheck),
     CheckCarrier(id, ReentryCheck), CheckCarrier(id, WriteCheck), Commit(id)]
  }

  /** The true answers. */
  function TrueReads(s: State, step: Step): Reads
    requires Transactional(step) && step.id in s.cells
  {
    var carrier, awb := OtherCarrier(s, step.id), ConfirmingAwb(s.cells[step.id], step);
    Reads(carrier, carrier, carrier, awb.Some? && Duplicate(s, step.id, awb.value))
  }

  /** The transaction once it is open, and after its first lock and read. */
  function Opened(s: State, step: Step): OpenTx
    requires Transactional(step) && step.id in s.cells
  {
    OpenTx(step, s.cells[step.id].record.row, ConfirmingAwb(s.cells[step.id], step), None, false, CAUTIOUS, {})
  }

  function Checked(s: State, step: Step): OpenTx
    requires Transactional(step) && step.id in s.cells
  {
    var t := Opened(s, step);
    if t.awb.None? then t
    else t.(key := Some(AwbKey(t.row, t.awb.value)), done := {DuplicateCheck},
            seen := CAUTIOUS.(duplicate := Duplicate(s, step.id, t.awb.value)))
  }

  lemma Opens(db: Db, step: Step)
    requires Transactional(step) && step.id in db.state.cells && db.open == map[]
    ensures Act(db, Begin(step)) == db.(open := map[step.id := Opened(db.state, step)])
  {
    hide ConfirmingAwb;
  }

  lemma LocksAwb(db: Db, id: Uuid, t: OpenTx)
    requires db.open == map[id := t]
    ensures Act(db, LockAwb(id))
            == db.(open := map[id := if t.awb.Some? then t.(key := Some(AwbKey(t.row, t.awb.value))) else t])
  {
    hide AwbKey;
    assert t.awb.Some? ==> KeyFree(db, id, AwbKey(t.row, t.awb.value));
  }

  lemma ReadsDuplicate(db: Db, id: Uuid, t: OpenTx)
    requires db.open == map[id := t] && id in db.state.cells && t.awb.Some? == t.key.Some? && t.done == {}
    ensures Act(db, CheckDuplicate(id))
            == db.(open := map[id := if t.awb.None? then t
                                     else t.(done := {DuplicateCheck},
                                             seen := t.seen.(duplicate := Duplicate(db.state, id, t.awb.value)))])
  {
    hide Duplicate;
    assert {} + {DuplicateCheck} == {DuplicateCheck};
  }

  lemma ChecksAwb(db: Db, step: Step)
    requires Transactional(step) && step.id in db.state.cells && db.open == map[step.id := Opened(db.state, step)]
    ensures var locked := Act(db, LockAwb(step.id));
            Act(locked, CheckDuplicate(step.id)) == db.(open := map[step.id := Checked(db.state, step)])
  {
    hide ConfirmingAwb, Duplicate, AwbKey, Act;
    var id, t := step.id, Opened(db.state, step);
    LocksAwb(db, id, t);
    var t1 := if t.awb.Some? then t.(key := Some(AwbKey(t.row, t.awb.value))) else t;
    ReadsDuplicate(db.(open := map[id := t1]), id, t1);
  }

  /** The lock on the order, and the carrier reads under it. */
  lemma LocksOrder(db: Db, id: Uuid, t: OpenTx)
    requires db.open == map[id := t]
    ensures Act(db, LockOrder(id)) == db.(open := map[id := t.(order := true)])
  {
    assert OrderFree(db, id, t.row.order);
  }

  lemma ReadsCarrier(db: Db, id: Uuid, t: OpenTx, check: Check)
    requires db.open == map[id := t] && id in db.state.cells && t.order && check != DuplicateCheck
    ensures Act(db, CheckCarrier(id, check))
            == db.(open := map[id := WithCheck(t, check, OtherCarrier(db.state, id))])
  {
    hide OtherCarrier;
  }

  lemma LocksAndReads(db: Db, id: Uuid, t: OpenTx)
    requires db.open == map[id := t] && id in db.state.cells
    ensures var carrier, locked := OtherCarrier(db.state, id), Act(db, LockOrder(id));
            var read := Act(Act(locked, CheckCarrier(id, ClaimCheck)), CheckCarrier(id, ReentryCheck));
            Act(read, CheckCarrier(id, WriteCheck))
            == db.(open := map[id := t.(order := true, seen := Reads(carrier, carrier, carrier, t.seen.duplicate),
                                        done := t.done + {ClaimCheck, ReentryCheck, WriteCheck})])
  {
    hide OtherCarrier, Act;
    var carrier := OtherCarrier(db.state, id);
    LocksOrder(db, id, t);
    var t1 := t.(order := true);
    ReadsCarrier(db.(open := map[id := t1]), id, t1, ClaimCheck);
    var t2 := WithCheck(t1, ClaimCheck, carrier);
    ReadsCarrier(db.(open := map[id := t2]), id, t2, ReentryCheck);
    var t3 := WithCheck(t2, ReentryCheck, carrier);
    ReadsCarrier(db.(open := map[id := t3]), id, t3, WriteCheck);
    assert t.done + {ClaimCheck} + {ReentryCheck} + {WriteCheck} == t.done + {ClaimCheck, ReentryCheck, WriteCheck};
  }

  lemma CommitsAlone(db: Db, id: Uuid, t: OpenTx)
    requires db.open == map[id := t] && id in db.state.cells && Transactional(t.step) && t.step.id == id
    requires ConfirmingAwb(db.state.cells[id], t.step) == t.awb
    requires t.done == (if t.awb.Some? then {DuplicateCheck} else {}) + {ClaimCheck, ReentryCheck, WriteCheck}
    ensures Act(db, Commit(id))
            == Db(Effect(db.state, t.step.(seen := t.seen)), map[], db.log + [t.step.(seen := t.seen)])
  {
    hide ConfirmingAwb, Effect, WrittenCollectible;
    assert CanCommit(db, id);
    assert db.open - {id} == map[];
  }

  /** Who waits: for the AWB, whoever meets another open transaction holding the same account and AWB; for the
      order, whoever meets one holding the lock on the same order. Nobody else does. */
  lemma WaitsExactly(db: Db, id: Uuid)
    requires id in db.open
    ensures var t := db.open[id];
            && (t.awb.Some? ==>
                  var key := (if t.row.account.Some? then t.row.account.value else "") + ":" + t.awb.value;
                  Act(db, LockAwb(id))
                  == if exists other :: other in db.open && other != id && db.open[other].key == Some(key) then db
                     else db.(open := db.open[id := t.(key := Some(key))]))
            && (Act(db, LockOrder(id))
                == if exists other :: other in db.open && other != id && db.open[other].order
                                      && db.open[other].row.order == t.row.order
                   then db else db.(open := db.open[id := t.(order := true)]))
  {
    hide Duplicate, OtherCarrier, ConfirmingAwb;
  }

  lemma {:induction false} LastOf(db: Db, actions: seq<Action>, last: Action)
    ensures Interleave(db, actions + [last]) == Act(Interleave(db, actions), last)
  {
    hide Act;
    assert (actions + [last])[..|actions|] == actions;
  }

  lemma EightActions(db: Db, a: seq<Action>)
    requires |a| == 8
    ensures Interleave(db, a)
            == Act(Act(Act(Act(Act(Act(Act(Act(db, a[0]), a[1]), a[2]), a[3]), a[4]), a[5]), a[6]), a[7])
  {
    hide Act;
    assert Interleave(db, []) == db;
    forall n | 0 <= n < 8
      ensures Interleave(db, a[..n + 1]) == Act(Interleave(db, a[..n]), a[n])
    {
      LastOf(db, a[..n], a[n]);
      assert a[..n + 1] == a[..n] + [a[n]];
    }
    assert a[..0] == [] && a[..8] == a;
    assert a[..0 + 1] == a[..1] && a[..1 + 1] == a[..2] && a[..2 + 1] == a[..3] && a[..3 + 1] == a[..4]
           && a[..4 + 1] == a[..5] && a[..5 + 1] == a[..6] && a[..6 + 1] == a[..7] && a[..7 + 1] == a[..8];
  }

  /** With no other transaction open, the statements of a transaction end in its commit: one atomic step, with
      the true answers, and no lock left behind. So the locks block nobody for good. */
  lemma SerialTransactionCommits(db: Db, step: Step)
    requires Transactional(step) && step.id in db.state.cells && db.open == map[]
    ensures var committed := step.(seen := TrueReads(db.state, step));
            && Interleave(db, Statements(step)) == Db(Effect(db.state, committed), map[], db.log + [committed])
            && ReadsOk(db.state, committed)
  {
    hide ConfirmingAwb, OtherCarrier, Duplicate, DuplicateEver, AwbKey, Effect, Act, Required;
    hide WrittenCollectible;
    EightActions(db, Statements(step));
    Opens(db, step);
    var id, t, s := step.id, Checked(db.state, step), db.state;
    var db1 := db.(open := map[id := Opened(s, step)]);
    ChecksAwb(db1, step);
    LocksAndReads(db.(open := map[id := t]), id, t);
    var carrier := OtherCarrier(s, id);
    var t2 := t.(order := true, seen := Reads(carrier, carrier, carrier, t.seen.duplicate),
                 done := t.done + {ClaimCheck, ReentryCheck, WriteCheck});
    CommitsAlone(db.(open := map[id := t2]), id, t2);
    SameConfirming(db.state, step);
    TrueReadsHold(db.state, step);
  }

  lemma SameConfirming(s: State, step: Step)
    requires Transactional(step) && step.id in s.cells
    ensures ConfirmingAwb(s.cells[step.id], step.(seen := TrueReads(s, step))) == ConfirmingAwb(s.cells[step.id], step)
  {
    hide OtherCarrier, Duplicate, NormalizeAwb;
  }

  lemma TrueReadsHold(s: State, step: Step)
    requires Transactional(step) && step.id in s.cells
    ensures ReadsOk(s, step.(seen := TrueReads(s, step)))
  {
    hide OtherCarrier, ConfirmingAwb, Duplicate, DuplicateEver;
    SameConfirming(s, step);
    var awb := ConfirmingAwb(s.cells[step.id], step);
    if awb.Some? && Duplicate(s, step.id, awb.value) {
      DuplicateIsEver(s, step.id, awb.value);
    }
  }
}
