/** What holds of every shipment in every reachable state, whatever the courier answers, and the proof
    that each step keeps it. */
module BookingInvariant {
  import opened Wrappers
  import opened BookingSnapshot
  import opened ShipmentRows
  import opened BookingTransactions
  import opened RecordInvariant
  import opened BookingProtocol

  // ---- Processes -----------------------------------------------------------------------------------------------

  function RequestOf(r: Record, k: nat): CreateRequest
    requires k < |r.intents| == |r.frozen|
  {
    BuildRequest(r.intents[k].reference, r.intents[k].digest, r.frozen[k].Snapshot())
  }

  /** A worker that has not settled its job works on the latest attempt of a SUBMITTED shipment, with the
      request frozen for that attempt. */
  ghost predicate WorkerOk(r: Record, ledger: seq<Direction>, overageRecords: nat, k: nat, pc: WorkerPc)
    requires |r.intents| == |r.frozen|
  {
    IsLatest(r, k) &&
    match pc
    case Ready(request) => r.row.state == Submitted && request == RequestOf(r, k)
    case Sent(request) => r.row.state == Submitted && request == RequestOf(r, k)
    case Answered(_) => r.row.state == Submitted
    case AfterConfirm(test) => r.intents[k].outcome == IntentConfirmed && test == r.row.isTest && overageRecords == 0
    case AfterDebit => r.intents[k].outcome == IntentConfirmed && !r.row.isTest && overageRecords == 0
                       && Debit in ledger
  }

  ghost predicate WorkersInv(r: Record, workers: map<nat, WorkerPc>, ledger: seq<Direction>, overageRecords: nat)
    requires |r.intents| == |r.frozen|
  {
    forall k :: k in workers ==> WorkerOk(r, ledger, overageRecords, k, workers[k])
  }

  ghost predicate ResolverOk(r: Record, resolver: ResolverPc, ledger: seq<Direction>, overageRecords: nat) {
    match resolver
    case Resting => true
    case SawUnknown => r.row.state == OutcomeUnknown
    case Loaded(k) => r.row.state == OutcomeUnknown && IsLatest(r, k)
    case Looked(k, _) => r.row.state == OutcomeUnknown && IsLatest(r, k)
    case ResolverAfterConfirm(test) => r.intents != [] && r.intents[|r.intents| - 1].outcome == ResolvedConfirmed
                                       && test == r.row.isTest && overageRecords == 0
    case ResolverAfterDebit => r.intents != [] && r.intents[|r.intents| - 1].outcome == ResolvedConfirmed
                               && !r.row.isTest && overageRecords == 0 && Debit in ledger
  }

  /** Every create ever sent was built from what its attempt froze. */
  ghost predicate SentInv(r: Record, sent: seq<(nat, CreateRequest)>)
    requires |r.intents| == |r.frozen|
  {
    forall i :: 0 <= i < |sent| ==> sent[i].0 < |r.intents| && sent[i].1 == RequestOf(r, sent[i].0)
  }

  ghost predicate CountersInv(r: Record, memo: map<nat, Answer>, ledger: seq<Direction>, confirms: nat,
                              overageRecords: nat) {
    && (forall k :: k in memo ==> k < |r.intents|)
    && confirms == (if Landed(r.row.state) then 1 else 0)
    && overageRecords <= confirms
    && (overageRecords > 0 ==> Debit in ledger)
  }

  ghost predicate CancelOk(row: Shipment, reversals: nat, overageReversals: nat, pc: CancelPc) {
    match pc
    case Requested(previous, test) => row.state == Confirmed && row.custody in {CancelRequested, InCustody}
                                      && previous in {PickupPending, PickupScheduled} && test == row.isTest
    case Replied(_, previous, test) => row.state == Confirmed && row.custody in {CancelRequested, InCustody}
                                       && previous in {PickupPending, PickupScheduled} && test == row.isTest
    case AfterVoid(test) => row.state == Void && test == row.isTest && reversals == 0
    case AfterReversal => row.state == Void && reversals == 1 && overageReversals == 0
    case Done(cancelled) => cancelled ==> row.state == Void
  }

  /** At most one cancellation is under way, and it has the shipment's custody in its hands. */
  ghost predicate CancelInv(row: Shipment, cancels: map<nat, CancelPc>, reversals: nat, overageReversals: nat) {
    && (forall j :: j in cancels ==> CancelOk(row, reversals, overageReversals, cancels[j]))
    && (forall i, j :: i in cancels && j in cancels && cancels[i].Active() && cancels[j].Active() ==> i == j)
  }

  ghost predicate LedgerInv(row: Shipment, ledger: seq<Direction>, reversals: nat, overageReversals: nat) {
    && (forall i, j :: 0 <= i < j < |ledger| ==> ledger[i] != ledger[j])
    && (Debit in ledger ==> Landed(row.state) && !row.isTest)
    && overageReversals <= reversals <= 1
    && (Reversal in ledger <==> reversals == 1)
    && (Reversal in ledger ==> row.state == Void && !row.isTest)
  }

  ghost predicate CellInv(id: Uuid, c: Cell) {
    && RecordInv(id, c.record)
    && WorkersInv(c.record, c.workers, c.ledger, c.overageRecords)
    && ResolverOk(c.record, c.resolver, c.ledger, c.overageRecords)
    && SentInv(c.record, c.sent)
    && CountersInv(c.record, c.memo, c.ledger, c.confirms, c.overageRecords)
    && CancelInv(c.record.row, c.cancels, c.reversals, c.overageReversals)
    && LedgerInv(c.record.row, c.ledger, c.reversals, c.overageReversals)
    && (c.pickedUp <==> c.record.row.custody == InCustody)
  }

  lemma CellRows(id: Uuid, c: Cell)
    requires CellInv(id, c)
    ensures RecordInv(id, c.record)
  {
  }

  // ---- Steps ------------------------------------------------------------------------------------------------------

  lemma NewCellInv(id: Uuid, shop: Uuid, order: Uuid, workingValues: string)
    ensures CellInv(id, NewCell(shop, order, workingValues))
  {
  }

  lemma HistoryKeepsSent(c: Cell, r': Record)
    requires |c.record.intents| == |c.record.frozen| && SentInv(c.record, c.sent) && SameHistory(c.record, r')
    ensures forall k :: 0 <= k < |r'.intents| ==> RequestOf(r', k) == RequestOf(c.record, k)
    ensures SentInv(r', c.sent)
  {
    hide BuildRequest, BuildSnapshot;
  }

  lemma ExtensionKeepsSent(c: Cell, r': Record)
    requires |c.record.intents| == |c.record.frozen| && SentInv(c.record, c.sent) && Extends(c.record, r')
    ensures SentInv(r', c.sent)
  {
    hide BuildRequest, BuildSnapshot;
    assert forall k :: 0 <= k < |c.record.intents| ==> RequestOf(r', k) == RequestOf(c.record, k);
  }

  /** Where a shipment has not landed, nothing is pending after a confirmation; where its latest attempt is
      settled no worker is under way. */
  lemma Idle(id: Uuid, c: Cell)
    requires CellInv(id, c)
    ensures c.record.row.state !in {Submitted, Confirmed, Void} ==> forall k :: k !in c.workers
    ensures !Landed(c.record.row.state) ==>
              Debit !in c.ledger && c.overageRecords == 0 && c.reversals == 0 && !c.pickedUp
              && forall j :: j in c.cancels ==> c.cancels[j] == Done(false)
  {
    hide BuildRequest, BuildSnapshot, IntentsInv, SentInv;
  }

  /** A cell whose rows changed and whose shipment has not landed before or after. */
  lemma UnlandedKeeps(id: Uuid, c: Cell, r': Record)
    requires CellInv(id, c) && RecordInv(id, r') && SentInv(r', c.sent)
    requires !Landed(c.record.row.state) && !Landed(r'.row.state) && |r'.intents| >= |c.record.intents|
    requires WorkersInv(r', c.workers, c.ledger, c.overageRecords)
    requires ResolverOk(r', c.resolver, c.ledger, c.overageRecords)
    ensures CellInv(id, c.(record := r'))
  {
    hide BuildRequest, BuildSnapshot, IntentsInv, SentInv, WorkersInv, ResolverOk;
    Idle(id, c);
  }

  lemma QueueStepKeeps(id: Uuid, c: Cell, input: BookingInput, outstanding: Option<nat>, seen: Reads)
    requires CellInv(id, c)
    ensures CellInv(id, WithRecord(c, QueueTx(c.record, id, input, outstanding, seen)))
  {
    hide BuildRequest, BuildSnapshot, IntentsInv;
    var result := QueueTx(c.record, id, input, outstanding, seen);
    RecordInvariant.QueueKeeps(id, c.record, input, outstanding, seen);
    if result.Committed? {
      Idle(id, c);
      ExtensionKeepsSent(c, result.record);
      UnlandedKeeps(id, c, result.record);
    }
  }

  lemma ClaimStepKeeps(id: Uuid, c: Cell, k: nat, seen: Reads)
    requires CellInv(id, c)
    ensures CellInv(id, ClaimStep(c, k, seen))
  {
    hide BuildRequest, BuildSnapshot, IntentsInv;
    var result := ClaimTx(c.record, k, seen.write);
    RecordInvariant.ClaimKeeps(id, c.record, k, seen.write);
    if result.Committed? {
      hide ClaimTx;
      HistoryKeepsSent(c, result.record);
      UnlandedKeeps(id, c, result.record);
    }
  }

  lemma DropKeeps(id: Uuid, c: Cell, k: nat)
    requires CellInv(id, c)
    ensures CellInv(id, DropWorker(c, k))
    ensures CellInv(id, c.(memo := c.memo - {k}))
  {
    hide BuildRequest, BuildSnapshot, IntentsInv, RowInv;
  }

  lemma SendKeeps(id: Uuid, c: Cell, k: nat)
    requires CellInv(id, c)
    ensures CellInv(id, SendStep(c, k))
  {
    hide BuildRequest, BuildSnapshot, RecordInv, RequestOf;
  }

  lemma AnswerKeeps(id: Uuid, c: Cell, k: nat, reply: AdapterReply)
    requires CellInv(id, c)
    ensures CellInv(id, AnswerStep(c, k, reply))
  {
    hide BuildRequest, BuildSnapshot, RecordInv, RequestOf, WorkerAnswer, Memoised;
  }

  lemma InsertOnceKeeps(ledger: seq<Direction>, d: Direction)
    requires forall i, j :: 0 <= i < j < |ledger| ==> ledger[i] != ledger[j]
    ensures var l := InsertOnce(ledger, d);
            (forall i, j :: 0 <= i < j < |l| ==> l[i] != l[j]) && (forall x :: x in l <==> x in ledger || x == d)
  {
  }

  lemma WorkerDebitKeeps(id: Uuid, c: Cell, k: nat, subscribed: bool)
    requires CellInv(id, c)
    ensures CellInv(id, WorkerDebitStep(c, k, subscribed))
  {
    hide BuildRequest, BuildSnapshot, IntentsInv, RequestOf;
    DropKeeps(id, c, k);
    InsertOnceKeeps(c.ledger, Debit);
    hide InsertOnce, DropWorker;
  }

  lemma WorkerOverageKeeps(id: Uuid, c: Cell, k: nat)
    requires CellInv(id, c)
    ensures CellInv(id, WorkerOverageStep(c, k))
  {
    hide BuildRequest, BuildSnapshot, IntentsInv, RequestOf, SentInv, CancelInv, RowInv;
    DropKeeps(id, c, k);
  }

  lemma ResolverLoadKeeps(id: Uuid, c: Cell, k: nat)
    requires CellInv(id, c)
    ensures CellInv(id, ResolverLoadStep(c, k))
  {
    hide BuildRequest, BuildSnapshot, RequestOf;
    if ResolverLoadStep(c, k) != c {
      UnresolvedIsLatest(id, c.record, k);
    }
  }

  lemma ResolverDebitKeeps(id: Uuid, c: Cell, subscribed: bool)
    requires CellInv(id, c)
    ensures CellInv(id, ResolverDebitStep(c, subscribed))
  {
    hide BuildRequest, BuildSnapshot, IntentsInv, RequestOf;
    InsertOnceKeeps(c.ledger, Debit);
    hide InsertOnce;
  }

  lemma ResolverOverageKeeps(id: Uuid, c: Cell)
    requires CellInv(id, c)
    ensures CellInv(id, ResolverOverageStep(c))
  {
    hide BuildRequest, BuildSnapshot, IntentsInv, RequestOf;
  }

  /** The resolver's other moves. */
  lemma ResolverMoveKeeps(id: Uuid, c: Cell, resolver: ResolverPc)
    requires CellInv(id, c)
    requires resolver == Resting || (resolver == SawUnknown && c.record.row.state == OutcomeUnknown)
             || (c.resolver.Loaded? && resolver.Looked? && resolver.k == c.resolver.k)
    ensures CellInv(id, c.(resolver := resolver))
  {
    hide BuildRequest, BuildSnapshot, RecordInv, RequestOf;
  }

  /** What a settling transaction made of the rows, in terms the processes depend on. */
  ghost predicate SettlesTo(id: Uuid, r: Record, result: TxResult, outcome: IntentOutcome, testMode: bool)
  {
    result.Committed? ==>
      var r' := result.record;
      && RecordInv(id, r') && SameHistory(r, r') && |r'.intents| > 0
      && (Landed(r'.row.state) ==>
            && r'.row.state == Confirmed && r'.row.custody == PickupPending && r'.row.isTest == testMode
            && r'.intents[|r'.intents| - 1].outcome == outcome)
  }

  lemma SettleWorkerTxKeeps(id: Uuid, c: Cell, k: nat, testMode: bool, seen: Reads)
    requires CellInv(id, c) && k in c.workers && c.workers[k].Answered? && k < |c.record.intents|
    ensures SettlesTo(id, c.record, SettleWorkerTx(c, k, testMode, seen), IntentConfirmed, testMode)
    ensures SettleWorkerTx(c, k, testMode, seen) != Aborted(RowGuard)
    ensures IsLatest(c.record, k) && c.resolver == Resting
  {
    hide BuildRequest, BuildSnapshot, IntentsInv, RequestOf;
    assert WorkerOk(c.record, c.ledger, c.overageRecords, k, c.workers[k]);
    match c.workers[k].answer
    case Created(awb) => ConfirmKeeps(id, c.record, k, awb, IntentConfirmed, testMode, seen.duplicate, seen.write);
    case Rejected => SettleFailedKeeps(id, c.record, k, Submitted, IntentFailed, seen.write);
    case Ambiguous => MarkUnknownKeeps(id, c.record, k, seen.write);
  }

  lemma SettleResolverTxKeeps(id: Uuid, c: Cell, testMode: bool, seen: Reads)
    requires CellInv(id, c) && c.resolver.Looked? && c.resolver.k < |c.record.intents|
    ensures SettlesTo(id, c.record, SettleResolverTx(c, testMode, seen), ResolvedConfirmed, testMode)
    ensures SettleResolverTx(c, testMode, seen) != Aborted(RowGuard)
    ensures IsLatest(c.record, c.resolver.k)
  {
    hide BuildRequest, BuildSnapshot, IntentsInv, RequestOf;
    match c.resolver.awb
    case Some(awb) => ConfirmKeeps(id, c.record, c.resolver.k, awb, ResolvedConfirmed, testMode, seen.duplicate,
                                   seen.write);
    case None => SettleFailedKeeps(id, c.record, c.resolver.k, OutcomeUnknown, ResolvedFailed, seen.write);
  }

  lemma OnlyWorker(id: Uuid, c: Cell, k: nat, pc: WorkerPc)
    requires CellInv(id, c) && k in c.workers
    ensures c.workers - {k} == map[] && c.workers[k := pc] == map[k := pc] && IsLatest(c.record, k)
  {
    hide BuildRequest, BuildSnapshot, IntentsInv, RequestOf, RowInv;
    forall j | j in c.workers
      ensures j == k
    {
      assert WorkerOk(c.record, c.ledger, c.overageRecords, j, c.workers[j]);
      assert WorkerOk(c.record, c.ledger, c.overageRecords, k, c.workers[k]);
    }
  }

  lemma AnsweredIsSubmitted(id: Uuid, c: Cell, k: nat)
    requires CellInv(id, c) && k in c.workers && c.workers[k].Answered?
    ensures c.record.row.state == Submitted && |c.record.intents| == |c.record.frozen| && SentInv(c.record, c.sent)
  {
    hide BuildRequest, BuildSnapshot, IntentsInv, RowInv, SentInv;
    assert WorkerOk(c.record, c.ledger, c.overageRecords, k, c.workers[k]);
  }

  lemma SettleWorkerStepKeeps(id: Uuid, c: Cell, k: nat, testMode: bool, seen: Reads)
    requires CellInv(id, c)
    ensures CellInv(id, SettleWorkerStep(c, k, testMode, seen))
  {
    hide CellInv, IntentsInv, RowInv, SentInv, SettleWorkerTx;
    if k in c.workers && c.workers[k].Answered? && k < |c.record.intents| {
      SettleWorkerTxKeeps(id, c, k, testMode, seen);
      DropKeeps(id, c, k);
      OnlyWorker(id, c, k, AfterConfirm(testMode));
      AnsweredIsSubmitted(id, c, k);
      var result := SettleWorkerTx(c, k, testMode, seen);
      if result.Committed? {
        HistoryKeepsSent(c, result.record);
        SettledCell(id, c, result.record, map[], Resting, testMode);
        SettledCell(id, c, result.record, map[k := AfterConfirm(testMode)], Resting, testMode);
      }
    }
  }

  lemma LookedIsUnknown(id: Uuid, c: Cell)
    requires CellInv(id, c) && c.resolver.Looked?
    ensures c.record.row.state == OutcomeUnknown && |c.record.intents| == |c.record.frozen| && SentInv(c.record, c.sent)
    ensures c.workers == map[]
  {
    hide BuildRequest, BuildSnapshot, IntentsInv, RowInv, SentInv;
    Idle(id, c);
  }

  lemma SettleResolverStepKeeps(id: Uuid, c: Cell, testMode: bool, seen: Reads)
    requires CellInv(id, c)
    ensures CellInv(id, SettleResolverStep(c, testMode, seen))
  {
    hide CellInv, IntentsInv, RowInv, SentInv, SettleResolverTx;
    if c.resolver.Looked? && c.resolver.k < |c.record.intents| {
      SettleResolverTxKeeps(id, c, testMode, seen);
      LookedIsUnknown(id, c);
      var result := SettleResolverTx(c, testMode, seen);
      if result.Committed? {
        HistoryKeepsSent(c, result.record);
        SettledCell(id, c, result.record, map[], Resting, testMode);
        SettledCell(id, c, result.record, map[], ResolverAfterConfirm(testMode), testMode);
      } else {
        ResolverMoveKeeps(id, c, Resting);
      }
    }
  }

  /** The cell after a settling transaction: at most one process is left, and only after a confirmation. */
  lemma SettledCell(id: Uuid, c: Cell, r': Record, workers: map<nat, WorkerPc>, resolver: ResolverPc, testMode: bool)
    requires CellInv(id, c) && !Landed(c.record.row.state) && |r'.intents| > 0
    requires RecordInv(id, r') && SentInv(r', c.sent) && |r'.intents| == |c.record.intents| == |r'.frozen|
    requires Landed(r'.row.state) ==>
               r'.row.state == Confirmed && r'.row.custody == PickupPending && r'.row.isTest == testMode
    ensures var c' := c.(record := r', workers := workers, resolver := resolver,
                         confirms := if Landed(r'.row.state) then c.confirms + 1 else c.confirms);
            && (workers == map[] && resolver == Resting ==> CellInv(id, c'))
            && (Landed(r'.row.state) && r'.intents[|r'.intents| - 1].outcome == IntentConfirmed
                && resolver == Resting && workers == map[|r'.intents| - 1 := AfterConfirm(testMode)]
                ==> CellInv(id, c'))
            && (Landed(r'.row.state) && r'.intents[|r'.intents| - 1].outcome == ResolvedConfirmed
                && workers == map[] && resolver == ResolverAfterConfirm(testMode)
                ==> CellInv(id, c'))
  {
    hide BuildRequest, BuildSnapshot, IntentsInv, RequestOf;
    Idle(id, c);
  }

  // ---- Custody and cancellation -------------------------------------------------------------------------------

  /** A cell whose rows changed in custody only. */
  lemma CustodyCell(id: Uuid, c: Cell, r': Record)
    requires CellInv(id, c) && RecordInv(id, r') && SameHistory(c.record, r') && r'.intents == c.record.intents
    requires c.record.row.state == Confirmed && r'.row == c.record.row.(custody := r'.row.custody)
    ensures WorkersInv(r', c.workers, c.ledger, c.overageRecords)
    ensures ResolverOk(r', c.resolver, c.ledger, c.overageRecords)
    ensures SentInv(r', c.sent) && CountersInv(r', c.memo, c.ledger, c.confirms, c.overageRecords)
    ensures LedgerInv(r'.row, c.ledger, c.reversals, c.overageReversals)
  {
    hide BuildRequest, BuildSnapshot, IntentsInv;
    HistoryKeepsSent(c, r');
    hide RequestOf;
  }

  lemma RequestCancelStepKeeps(id: Uuid, c: Cell, call: nat)
    requires CellInv(id, c)
    ensures CellInv(id, RequestCancelStep(c, call))
  {
    hide BuildRequest, BuildSnapshot, IntentsInv, RequestOf, SentInv;
    var result := RequestCancelTx(c.record);
    CustodyKeeps(id, c.record, result);
    if result.Committed? {
      CustodyCell(id, c, result.record);
      hide RowInv, WorkersInv, ResolverOk;
    }
  }

  lemma CancelAnswerStepKeeps(id: Uuid, c: Cell, call: nat, verdict: CancelReply)
    requires CellInv(id, c)
    ensures CellInv(id, CancelAnswerStep(c, call, verdict))
  {
    hide BuildRequest, BuildSnapshot, RecordInv, RequestOf, SentInv;
  }

  /** The cell after a transaction that wrote custody only and moved no cancellation. */
  lemma CustodyWritten(id: Uuid, c: Cell, result: TxResult)
    requires CellInv(id, c) && CustodyTx(c.record, result)
    requires result.Committed? ==> result.record.row.custody in {PickupPending, PickupScheduled}
                                   && c.record.row.custody in {PickupPending, PickupScheduled}
    ensures CellInv(id, WithRecord(c, result))
  {
    hide BuildRequest, BuildSnapshot, IntentsInv, RequestOf, SentInv, CustodyTx;
    CustodyKeeps(id, c.record, result);
    if result.Committed? {
      CustodyCell(id, c, result.record);
    }
    hide RowInv, WorkersInv, ResolverOk, LedgerInv, CountersInv;
  }

  lemma PickupStepKeeps(id: Uuid, c: Cell)
    requires CellInv(id, c)
    ensures CellInv(id, WithRecord(c, SchedulePickupTx(c.record)))
    ensures CellInv(id, WithRecord(c, ReversePickupTx(c.record)))
  {
    hide CellInv;
    CustodyWritten(id, c, SchedulePickupTx(c.record));
    CustodyWritten(id, c, ReversePickupTx(c.record));
  }

  lemma PickedUpStepKeeps(id: Uuid, c: Cell)
    requires CellInv(id, c)
    ensures CellInv(id, PickedUpStep(c))
  {
    hide BuildRequest, BuildSnapshot, IntentsInv, RequestOf, SentInv;
    var result := PickedUpTx(c.record);
    CustodyKeeps(id, c.record, result);
    if result.Committed? {
      CustodyCell(id, c, result.record);
      hide RowInv, WorkersInv, ResolverOk;
    }
  }

  /** A call that ends without cancelling anything. */
  lemma CallEnds(row: Shipment, row': Shipment, cancels: map<nat, CancelPc>, reversals: nat, overageReversals: nat,
                 call: nat)
    requires CancelInv(row, cancels, reversals, overageReversals) && call in cancels && cancels[call].Replied?
    requires row.state == row'.state == Confirmed
    ensures CancelInv(row', cancels[call := Done(false)], reversals, overageReversals)
  {
    assert cancels[call].Active();
    forall j | j in cancels && j != call
      ensures CancelOk(row', reversals, overageReversals, cancels[j])
    {
      assert !cancels[j].Active() && CancelOk(row, reversals, overageReversals, cancels[j]);
    }
  }

  lemma RepliedRow(id: Uuid, c: Cell, call: nat)
    requires CellInv(id, c) && call in c.cancels && c.cancels[call].Replied?
    ensures c.record.row.state == Confirmed && c.cancels[call].previous in {PickupPending, PickupScheduled}
  {
    hide RecordInv, WorkersInv, ResolverOk, SentInv, CountersInv, LedgerInv;
    assert CancelOk(c.record.row, c.reversals, c.overageReversals, c.cancels[call]);
  }

  lemma SettleRejectedKeeps(id: Uuid, c: Cell, call: nat)
    requires CellInv(id, c) && call in c.cancels && c.cancels[call].Replied?
    ensures CellInv(id, WithRecord(c, SettleRejectedTx(c.record, c.cancels[call].previous))
                    .(cancels := c.cancels[call := Done(false)]))
  {
    RepliedRow(id, c, call);
    var result := SettleRejectedTx(c.record, c.cancels[call].previous);
    assert CustodyTx(c.record, result) && (result.Committed? ==> result.record.row.custody == c.cancels[call].previous);
    assert result.Committed? ==> c.record.row.custody != InCustody;
    hide SettleRejectedTx, CustodyTx, IntentsInv, RowInv, WorkersInv, ResolverOk, SentInv, CountersInv, LedgerInv;
    hide CancelInv;
    CustodyKeeps(id, c.record, result);
    if result.Committed? {
      CustodyCell(id, c, result.record);
      CallEnds(c.record.row, result.record.row, c.cancels, c.reversals, c.overageReversals, call);
    } else {
      CallEnds(c.record.row, c.record.row, c.cancels, c.reversals, c.overageReversals, call);
    }
  }

  /** The cell after its shipment was voided by call `call`. */
  lemma VoidedCell(id: Uuid, c: Cell, r': Record, call: nat)
    requires CellInv(id, c) && call in c.cancels && c.cancels[call].Replied?
    requires RecordInv(id, r') && SentInv(r', c.sent) && SameHistory(c.record, r') && r'.intents == c.record.intents
    requires c.record.row.state == Confirmed && c.record.row.custody == CancelRequested
    requires r'.row.state == Void && r'.row.isTest == c.record.row.isTest
    ensures CellInv(id, c.(record := r', cancels := c.cancels[call := AfterVoid(c.cancels[call].test)]))
  {
    hide BuildRequest, BuildSnapshot, IntentsInv, RequestOf, SentInv;
    assert CancelOk(c.record.row, c.reversals, c.overageReversals, c.cancels[call]);
    assert WorkersInv(r', c.workers, c.ledger, c.overageRecords)
           && ResolverOk(r', c.resolver, c.ledger, c.overageRecords);
    hide WorkersInv, ResolverOk;
    assert CancelInv(r'.row, c.cancels[call := AfterVoid(c.cancels[call].test)], c.reversals, c.overageReversals) by {
      forall j | j in c.cancels && j != call
        ensures CancelOk(r'.row, c.reversals, c.overageReversals, c.cancels[j])
      {
        assert CancelOk(c.record.row, c.reversals, c.overageReversals, c.cancels[j]);
        assert !c.cancels[j].Active();
      }
    }
  }

  lemma SettleAcceptedKeeps(id: Uuid, c: Cell, call: nat, seen: Reads)
    requires CellInv(id, c) && call in c.cancels && c.cancels[call].Replied?
    requires c.cancels[call].verdict == CancelAccepted
    ensures CellInv(id, CancelSettled(c, call, seen))
  {
    hide BuildRequest, BuildSnapshot, IntentsInv, RowInv, RequestOf, SentInv, WorkersInv, ResolverOk;
    assert CancelOk(c.record.row, c.reversals, c.overageReversals, c.cancels[call]);
    var result := SettleCancelledTx(c.record, seen.write);
    SettleCancelledKeeps(id, c.record, seen.write);
    if result.Committed? {
      HistoryKeepsSent(c, result.record);
      VoidedCell(id, c, result.record, call);
    }
  }

  lemma SettleCancelStepKeeps(id: Uuid, c: Cell, call: nat, seen: Reads)
    requires CellInv(id, c)
    ensures CellInv(id, SettleCancelStep(c, call, seen))
  {
    hide BuildRequest, BuildSnapshot, RecordInv, RequestOf, SentInv;
    if call in c.cancels && c.cancels[call].Replied? {
      match c.cancels[call].verdict
      case CancelAccepted => SettleAcceptedKeeps(id, c, call, seen);
      case CancelRefused => SettleRejectedKeeps(id, c, call);
      case CancelAmbiguous =>
    }
  }

  lemma LedgerReversalStepKeeps(id: Uuid, c: Cell, call: nat, subscribed: bool)
    requires CellInv(id, c)
    ensures CellInv(id, LedgerReversalStep(c, call, subscribed))
  {
    hide BuildRequest, BuildSnapshot, RecordInv, RequestOf, SentInv;
    InsertOnceKeeps(c.ledger, Reversal);
    hide InsertOnce;
  }

  lemma OverageReversalStepKeeps(id: Uuid, c: Cell, call: nat)
    requires CellInv(id, c)
    ensures CellInv(id, OverageReversalStep(c, call))
    ensures CellInv(id, CrashCancelStep(c, call))
  {
    hide BuildRequest, BuildSnapshot, RecordInv, RequestOf, SentInv;
  }

  lemma RouteStepKeeps(id: Uuid, c: Cell, workingValues: string, manual: bool, seen: Reads)
    requires CellInv(id, c)
    ensures CellInv(id, WithRecord(c, RouteTx(c.record, workingValues, manual, seen.write)))
  {
    hide BuildRequest, BuildSnapshot, IntentsInv;
    var result := RouteTx(c.record, workingValues, manual, seen.write);
    RouteKeeps(id, c.record, workingValues, manual, seen.write);
    if result.Committed? {
      HistoryKeepsSent(c, result.record);
      Idle(id, c);
      UnlandedKeeps(id, c, result.record);
    }
  }

  lemma BookingStepKeeps(id: Uuid, c: Cell, step: Step, outstanding: Option<nat>)
    requires CellInv(id, c) && Subject(step) == Some(id)
    requires step.Route? || step.QueueBooking? || step.ClaimJob? || step.SendCreate? || step.CreateAnswered?
             || step.SettleWorker?
             || step.DebitByWorker? || step.OverageByWorker? || step.CrashWorker? || step.ForgetMemo?
    ensures CellInv(id, CellStep(c, step, outstanding))
  {
    hide CellInv, QueueTx, RouteTx, ClaimStep, SendStep, AnswerStep, SettleWorkerStep, WorkerDebitStep;
    hide WorkerOverageStep, DropWorker;
    if step.Route? {
      RouteStepKeeps(id, c, step.workingValues, step.manual, step.seen);
    } else if step.QueueBooking? {
      QueueStepKeeps(id, c, step.input, outstanding, step.seen);
    } else if step.ClaimJob? {
      ClaimStepKeeps(id, c, step.k, step.seen);
    } else if step.SendCreate? {
      SendKeeps(id, c, step.k);
    } else if step.CreateAnswered? {
      AnswerKeeps(id, c, step.k, step.reply);
    } else if step.SettleWorker? {
      SettleWorkerStepKeeps(id, c, step.k, step.testMode, step.seen);
    } else if step.DebitByWorker? {
      WorkerDebitKeeps(id, c, step.k, step.subscribed);
    } else if step.OverageByWorker? {
      WorkerOverageKeeps(id, c, step.k);
    } else {
      DropKeeps(id, c, step.k);
    }
  }

  lemma ResolverStepKeeps(id: Uuid, c: Cell, step: Step, outstanding: Option<nat>)
    requires CellInv(id, c) && Subject(step) == Some(id)
    requires step.ResolverSees? || step.ResolverLoads? || step.ResolverLooks? || step.SettleResolver?
             || step.DebitByResolver?
             || step.OverageByResolver? || step.CrashResolver?
    ensures CellInv(id, CellStep(c, step, outstanding))
  {
    hide CellInv, ResolverLoadStep, SettleResolverStep, ResolverDebitStep, ResolverOverageStep;
    if step.ResolverSees? {
      if c.record.row.state == OutcomeUnknown {
        ResolverMoveKeeps(id, c, SawUnknown);
      }
    } else if step.ResolverLoads? {
      ResolverLoadKeeps(id, c, step.k);
    } else if step.ResolverLooks? {
      if c.resolver.Loaded? {
        ResolverMoveKeeps(id, c, Looked(c.resolver.k, step.awb));
      }
    } else if step.SettleResolver? {
      SettleResolverStepKeeps(id, c, step.testMode, step.seen);
    } else if step.DebitByResolver? {
      ResolverDebitKeeps(id, c, step.subscribed);
    } else if step.OverageByResolver? {
      ResolverOverageKeeps(id, c);
    } else {
      ResolverMoveKeeps(id, c, Resting);
    }
  }

  lemma CustodyStepKeeps(id: Uuid, c: Cell, step: Step, outstanding: Option<nat>)
    requires CellInv(id, c) && Subject(step) == Some(id)
    requires step.RequestCancel? || step.CancelAnswered? || step.SettleCancel? || step.ReverseLedger?
             || step.ReverseOverage? || step.CrashCancel?
             || step.SchedulePickup? || step.ReversePickup? || step.PickedUp?
    ensures CellInv(id, CellStep(c, step, outstanding))
  {
    hide CellInv, RequestCancelStep, CancelAnswerStep, SettleCancelStep, LedgerReversalStep, OverageReversalStep;
    hide CrashCancelStep;
    hide SchedulePickupTx, ReversePickupTx, PickedUpStep;
    if step.RequestCancel? {
      RequestCancelStepKeeps(id, c, step.call);
    } else if step.CancelAnswered? {
      CancelAnswerStepKeeps(id, c, step.call, step.verdict);
    } else if step.SettleCancel? {
      SettleCancelStepKeeps(id, c, step.call, step.seen);
    } else if step.ReverseLedger? {
      LedgerReversalStepKeeps(id, c, step.call, step.subscribed);
    } else if step.ReverseOverage? || step.CrashCancel? {
      OverageReversalStepKeeps(id, c, step.call);
    } else if step.PickedUp? {
      PickedUpStepKeeps(id, c);
    } else {
      PickupStepKeeps(id, c);
    }
  }

  /** Every step keeps the invariant of the shipment it works on. */
  lemma StepKeepsCell(id: Uuid, c: Cell, step: Step, outstanding: Option<nat>)
    requires CellInv(id, c) && Subject(step) == Some(id)
    ensures CellInv(id, CellStep(c, step, outstanding))
  {
    hide CellInv;
    if step.Route? || step.QueueBooking? || step.ClaimJob? || step.SendCreate? || step.CreateAnswered?
       || step.SettleWorker?
       || step.DebitByWorker? || step.OverageByWorker? || step.CrashWorker? || step.ForgetMemo? {
      hide CellStep;
      BookingStepKeeps(id, c, step, outstanding);
    } else if step.ResolverSees? || step.ResolverLoads? || step.ResolverLooks? || step.SettleResolver?
       || step.DebitByResolver?
              || step.OverageByResolver? || step.CrashResolver? {
      hide CellStep;
      ResolverStepKeeps(id, c, step, outstanding);
    } else if step.InsertShipment? {
      assert CellStep(c, step, outstanding) == c;
    } else {
      hide CellStep;
      CustodyStepKeeps(id, c, step, outstanding);
    }
  }
}
