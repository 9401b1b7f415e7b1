/** What a booking job comes to: the rows that each reply of the courier leaves behind, for the worker and for
    the resolver of an unknown outcome, in every state that a run can have reached. */
module JobOutcomes {
  import opened Wrappers
  import opened BookingSnapshot
  import opened ShipmentRows
  import opened BookingTransactions
  import opened RecordInvariant
  import opened BookingProtocol
  import opened BookingInvariant
  import opened BookingTheorems
  import opened SentRequests
  import opened SingleSteps
  import opened Collectible
  import Decimal
  import FinalityNeeded

  /** Row and attempt k as they are after a settlement. */
  function WithOutcome(c: Cell, k: nat, row: Shipment, outcome: IntentOutcome): Cell
    requires k < |c.record.intents|
  {
    c.(record := c.record.(row := row, intents := c.record.intents[k := c.record.intents[k].(outcome := outcome)]))
  }

  // ---- Settling ---------------------------------------------------------------------------------------------------

  /** With the amount frozen and another carrier active the trigger aborts any write of the booking state. */
  predicate Blocked(row: Shipment, otherCarrier: bool) {
    row.collectible > 0 && otherCarrier
  }

  lemma ConfirmsRow(r: Record, k: nat, awb: string, outcome: IntentOutcome, testMode: bool, seen: Reads)
    requires k < |r.intents| && r.row.state in {Submitted, OutcomeUnknown} && !r.row.isTest
    ensures ConfirmTx(r, k, awb, outcome, testMode, seen.duplicate, seen.write)
            == if Blocked(r.row, seen.write) then Aborted(CollectibleGuard)
               else if seen.duplicate
               then Committed(r.(row := r.row.(state := Failed),
                                 intents := r.intents[k := r.intents[k].(outcome := IntentFailed)]))
               else Committed(r.(row := r.row.(state := Confirmed, awb := Some(NormalizeAwb(awb)),
                                               custody := PickupPending, isTest := testMode),
                                 intents := r.intents[k := r.intents[k].(outcome := outcome)]))
  {
    hide NormalizeAwb;
  }

  lemma FailsRow(r: Record, k: nat, from: BookingState, outcome: IntentOutcome, otherCarrier: bool)
    requires k < |r.intents| && r.row.state == from
    ensures SettleFailedTx(r, k, from, outcome, otherCarrier)
            == if Blocked(r.row, otherCarrier) then Aborted(CollectibleGuard)
               else Committed(r.(row := r.row.(state := Failed),
                                 intents := r.intents[k := r.intents[k].(outcome := outcome)]))
  {
  }

  lemma UnknownRow(r: Record, k: nat, otherCarrier: bool)
    requires k < |r.intents| && r.row.state == Submitted
    ensures MarkUnknownTx(r, k, otherCarrier)
            == if Blocked(r.row, otherCarrier) then Aborted(CollectibleGuard)
               else Committed(r.(row := r.row.(state := OutcomeUnknown),
                                 intents := r.intents[k := r.intents[k].(outcome := Unknown)]))
  {
  }

  lemma WorkingRow(id: Uuid, c: Cell, k: nat)
    requires CellInv(id, c) && k in c.workers && (c.workers[k].Ready? || c.workers[k].Sent? || c.workers[k].Answered?)
    ensures k < |c.record.intents| && c.record.row.state == Submitted && !c.record.row.isTest && c.confirms == 0
    ensures IsLatest(c.record, k) && c.record.intents[k].outcome == InFlight
  {
    hide BuildRequest, BuildSnapshot, IntentsInv, SentInv, CancelInv, LedgerInv, ResolverOk, RequestOf;
    assert WorkerOk(c.record, c.ledger, c.overageRecords, k, c.workers[k]);
  }

  /** A worker that has its answer settles the attempt it works on. */
  lemma SettledCell(id: Uuid, c: Cell, k: nat, testMode: bool, seen: Reads)
    requires CellInv(id, c) && k in c.workers && c.workers[k].Answered?
    ensures k < |c.record.intents|
    ensures SettleWorkerStep(c, k, testMode, seen)
            == (var row, gone := c.record.row, c.(workers := c.workers - {k});
                if row.collectible > 0 && seen.write then gone
                else match c.workers[k].answer
                     case Created(awb) =>
                       if seen.duplicate then WithOutcome(gone, k, row.(state := Failed), IntentFailed)
                       else WithOutcome(c, k, row.(state := Confirmed, awb := Some(NormalizeAwb(awb)),
                                                   custody := PickupPending, isTest := testMode), IntentConfirmed)
                            .(workers := c.workers[k := AfterConfirm(testMode)], confirms := 1)
                     case Rejected => WithOutcome(gone, k, row.(state := Failed), IntentFailed)
                     case Ambiguous => WithOutcome(gone, k, row.(state := OutcomeUnknown), Unknown))
  {
    hide CellInv, ConfirmTx, SettleFailedTx, MarkUnknownTx, NormalizeAwb;
    WorkingRow(id, c, k);
    var r := c.record;
    match c.workers[k].answer {
      case Created(awb) => ConfirmsRow(r, k, awb, IntentConfirmed, testMode, seen);
      case Rejected => FailsRow(r, k, Submitted, IntentFailed, seen.write);
      case Ambiguous => UnknownRow(r, k, seen.write);
    }
  }

  // ---- The courier's reply ----------------------------------------------------------------------------------------

  /** A reply that the worker of attempt k can get now: any once the create has left; before that a refusal on
      the way to the adapter, or a token that could not be had where nothing is recorded for the attempt. */
  predicate CanGet(c: Cell, k: nat, reply: AdapterReply) {
    && k in c.workers
    && (c.workers[k].Sent?
        || (c.workers[k].Ready? && (reply.ReplyBackPressure? || reply.ReplyOther?))
        || (c.workers[k].Ready? && k !in c.memo && (reply.ReplyAuthError? || reply.ReplyProviderError?
                                                    || reply.ReplyTimeout? || reply.ReplyUnsupported?)))
  }

  /** The worker goes away on back-pressure, and is otherwise told what to settle. */
  lemma HeardCell(c: Cell, k: nat, reply: AdapterReply)
    requires CanGet(c, k, reply)
    ensures AnswerStep(c, k, reply)
            == match reply
               case ReplyBackPressure => c.(workers := c.workers - {k})
               case ReplyCreated(awb) =>
                 c.(workers := c.workers[k := Answered(Created(awb))], memo := c.memo[k := Created(awb)])
               case ReplyDeclined =>
                 c.(workers := c.workers[k := Answered(Rejected)], memo := c.memo[k := Rejected])
               case ReplyProviderError =>
                 c.(workers := c.workers[k := Answered(Rejected)], memo := c.memo[k := Rejected])
               case ReplyCreatedWithoutAwb =>
                 c.(workers := c.workers[k := Answered(Ambiguous)], memo := c.memo[k := Ambiguous])
               case ReplyTimeout =>
                 c.(workers := c.workers[k := Answered(Ambiguous)], memo := c.memo[k := Ambiguous])
               case ReplyAuthError => c.(workers := c.workers[k := Answered(Rejected)])
               case ReplyUnsupported => c.(workers := c.workers[k := Answered(Rejected)])
               case ReplyOther => c.(workers := c.workers[k := Answered(Ambiguous)])
  {
  }

  lemma RepliesReadNothing(s: State, id: Uuid, k: nat, reply: AdapterReply)
    ensures ReadsOk(s, CreateAnswered(id, k, reply)) && ReadsOk(s, SendCreate(id, k))
  {
  }

  /** Attempt k ended: nothing but the row and its own outcome changed. */
  ghost predicate Ended(r: Record, r': Record, k: nat, row: Shipment, outcome: IntentOutcome)
    requires k < |r.intents|
  {
    r' == Record(row, r.intents[k := r.intents[k].(outcome := outcome)], r.frozen)
  }

  /** What each reply leaves of the rows: declined, provider error, rejected credentials and an unsupported
      service fail the attempt; a timeout, a creation without an AWB and everything else leave its outcome
      unknown; an AWB confirms it, or quarantines it if another shipment holds that AWB; back-pressure leaves
      the claimed job as it is. */
  ghost predicate LeftBy(reply: AdapterReply, r: Record, r': Record, k: nat, testMode: bool, duplicate: bool)
    requires k < |r.intents|
  {
    && (reply.ReplyDeclined? || reply.ReplyProviderError? || reply.ReplyAuthError? || reply.ReplyUnsupported? ==>
          Ended(r, r', k, r.row.(state := Failed), IntentFailed))
    && (reply.ReplyTimeout? || reply.ReplyCreatedWithoutAwb? || reply.ReplyOther? ==>
          Ended(r, r', k, r.row.(state := OutcomeUnknown), Unknown))
    && (reply.ReplyBackPressure? ==> r' == r && r.row.state == Submitted && r.intents[k].outcome == InFlight)
    && (reply.ReplyCreated? && duplicate ==> Ended(r, r', k, r.row.(state := Failed), IntentFailed))
    && (reply.ReplyCreated? && !duplicate ==>
          Ended(r, r', k, r.row.(state := Confirmed, awb := Some(NormalizeAwb(reply.awb)),
                                 custody := PickupPending, isTest := testMode), IntentConfirmed))
  }

  /** In any state that a run can have reached, a reply and its settlement leave the rows of that list, and
      nothing beside the shipment changes; where the trigger aborts the settlement, the job stays claimed. */
  lemma ReplySettles(s: State, id: Uuid, k: nat, reply: AdapterReply, testMode: bool, seen: Reads)
    requires Reachable(s) && id in s.cells && CanGet(s.cells[id], k, reply)
    requires ReadsOk(Apply(s, CreateAnswered(id, k, reply)), SettleWorker(id, k, testMode, seen))
    ensures k < |s.cells[id].record.intents|
    ensures var r := s.cells[id].record;
            var s' := Apply(Apply(s, CreateAnswered(id, k, reply)), SettleWorker(id, k, testMode, seen));
            && id in s'.cells && s' == WithCell(s, id, s'.cells[id])
            && (!(r.row.collectible > 0 && seen.write) ==>
                  LeftBy(reply, r, s'.cells[id].record, k, testMode, seen.duplicate))
            && (r.row.collectible > 0 && seen.write ==> s'.cells[id].record == r && k !in s'.cells[id].workers)
  {
    hide Reachable, Apply, CellStep, ReadsOk, CellInv, AnswerStep, SettleWorkerStep, LeftBy, CanGet;
    var answer, settle := CreateAnswered(id, k, reply), SettleWorker(id, k, testMode, seen);
    var s1 := Apply(s, answer);
    ReachableCell(s, id);
    RepliesReadNothing(s, id, k, reply);
    StepsOfWorker(s.cells[id], answer);
    AppliesTo(s, answer, id);
    StepsOfWorker(s1.cells[id], settle);
    AppliesTo(s1, settle, id);
    ReachableNext(s, answer);
    ReachableCell(s1, id);
    CellSettles(id, s.cells[id], k, reply, testMode, seen);
  }

  lemma CellSettles(id: Uuid, c: Cell, k: nat, reply: AdapterReply, testMode: bool, seen: Reads)
    requires CellInv(id, c) && CellInv(id, AnswerStep(c, k, reply)) && CanGet(c, k, reply)
    ensures k < |c.record.intents|
    ensures var c' := SettleWorkerStep(AnswerStep(c, k, reply), k, testMode, seen);
            && (!(c.record.row.collectible > 0 && seen.write) ==>
                  LeftBy(reply, c.record, c'.record, k, testMode, seen.duplicate))
            && (c.record.row.collectible > 0 && seen.write ==> c'.record == c.record && k !in c'.workers)
  {
    hide CellInv, AnswerStep, SettleWorkerStep, NormalizeAwb;
    WorkingRow(id, c, k);
    HeardCell(c, k, reply);
    if reply.ReplyBackPressure? {
      NobodySettles(AnswerStep(c, k, reply), k, testMode, seen);
    } else {
      SettledCell(id, AnswerStep(c, k, reply), k, testMode, seen);
    }
  }

  lemma NobodySettles(c: Cell, k: nat, testMode: bool, seen: Reads)
    requires k !in c.workers
    ensures SettleWorkerStep(c, k, testMode, seen) == c
  {
  }

  // ---- Sending ----------------------------------------------------------------------------------------------------

  /** The claimed job sends exactly one create, the request it was claimed with, under the reference of its
      attempt; where an outcome of the attempt is recorded it sends none and settles that outcome. */
  lemma SendsExactly(s: State, id: Uuid, k: nat)
    requires Reachable(s) && id in s.cells && k in s.cells[id].workers && s.cells[id].workers[k].Ready?
    ensures var c := s.cells[id];
            var request := c.workers[k].request;
            && k < |c.record.intents| && request.reference == c.record.intents[k].reference
            && request.digest == c.record.intents[k].digest
            && Apply(s, SendCreate(id, k))
               == if k in c.memo then WithCell(s, id, c.(workers := c.workers[k := Answered(c.memo[k])]))
                  else WithCell(s, id, c.(workers := c.workers[k := WorkerPc.Sent(request)],
                                          sent := c.sent + [(k, request)]))
                       .(requested := s.requested + {request.reference})
  {
    hide Reachable, Seal, CellInv;
    ReachableCell(s, id);
    ReadyRequest(id, s.cells[id], k);
    SealsNothing(s.versions);
  }

  lemma ReadyRequest(id: Uuid, c: Cell, k: nat)
    requires CellInv(id, c) && k in c.workers && c.workers[k].Ready?
    ensures k < |c.record.intents| == |c.record.frozen| && c.workers[k].request == RequestOf(c.record, k)
    ensures c.workers[k].request.reference == c.record.intents[k].reference
    ensures c.workers[k].request.digest == c.record.intents[k].digest
  {
    hide BuildSnapshot, IntentsInv, RowInv, SentInv, CancelInv, LedgerInv, ResolverOk;
    assert WorkerOk(c.record, c.ledger, c.overageRecords, k, c.workers[k]);
  }

  /** A job can be claimed, first or again, if and only if its intent is in flight, no worker has it, and the
      trigger does not abort the first claim's UPDATE; the claim builds the one request that every create of
      this attempt carries, before and after. */
  lemma ClaimsExactly(s: State, id: Uuid, k: nat, seen: Reads)
    requires Reachable(s) && id in s.cells && ReadsOk(s, ClaimJob(id, k, seen))
    ensures |s.cells[id].record.intents| == |s.cells[id].record.frozen|
    ensures var c := s.cells[id];
            var free := k < |c.record.intents| && c.record.intents[k].outcome == InFlight && k !in c.workers;
            && (free && !(c.record.row.state == Queued && c.record.row.collectible > 0 && seen.write) ==>
                  exists request ::
                    && Apply(s, ClaimJob(id, k, seen))
                       == WithCell(s, id, c.(record := c.record.(row := c.record.row.(state := Submitted)),
                                             workers := c.workers[k := Ready(request)]))
                    && request.reference == c.record.intents[k].reference
                    && NamesRecipient(request, c.record.frozen[k].input.recipient)
                    && DescribesParcel(request, c.record.frozen[k].input, c.record.frozen[k].collectible)
                    && forall i :: 0 <= i < |c.sent| && c.sent[i].0 == k ==> c.sent[i].1 == request)
            && (!free || (c.record.row.state == Queued && c.record.row.collectible > 0 && seen.write) ==>
                  Apply(s, ClaimJob(id, k, seen)) == s)
  {
    hide Reachable, Apply, CellStep, ReadsOk, CellInv, ClaimStep, BuildRequest, BuildSnapshot, NamesRecipient;
    hide DescribesParcel;
    ReachableCell(s, id);
    StepsOfWorker(s.cells[id], ClaimJob(id, k, seen));
    AppliesTo(s, ClaimJob(id, k, seen), id);
    ClaimedCell(id, s.cells[id], k, seen);
    var r := s.cells[id].record;
    if k < |r.intents| {
      BuiltFields(r.intents[k].reference, r.intents[k].digest, r.frozen[k].input, r.frozen[k].collectible);
    }
  }

  lemma ClaimedCell(id: Uuid, c: Cell, k: nat, seen: Reads)
    requires CellInv(id, c)
    ensures |c.record.intents| == |c.record.frozen|
    ensures var free := k < |c.record.intents| && c.record.intents[k].outcome == InFlight && k !in c.workers;
            ClaimStep(c, k, seen)
            == if free && !(c.record.row.state == Queued && c.record.row.collectible > 0 && seen.write)
               then c.(record := c.record.(row := c.record.row.(state := Submitted)),
                       workers := c.workers[k := Ready(RequestOf(c.record, k))])
               else c
    ensures k < |c.record.intents| ==>
              forall i :: 0 <= i < |c.sent| && c.sent[i].0 == k ==> c.sent[i].1 == RequestOf(c.record, k)
  {
    hide BuildRequest, BuildSnapshot, IntentsInv, WorkersInv, CancelInv, LedgerInv, ResolverOk, CountersInv;
    if k < |c.record.intents| && c.record.intents[k].outcome == InFlight {
      UnresolvedIsLatest(id, c.record, k);
    }
  }

  // ---- After the confirmation -------------------------------------------------------------------------------------

  /** Unless the shipment is a test shipment or no subscription is found, the DEBIT is written once and then the
      overage recorded once; the worker is gone either way. */
  lemma DebitsExactly(s: State, id: Uuid, k: nat, subscribed: bool)
    requires Reachable(s) && id in s.cells && k in s.cells[id].workers && s.cells[id].workers[k].AfterConfirm?
    ensures var c := s.cells[id];
            Apply(Apply(s, DebitByWorker(id, k, subscribed)), OverageByWorker(id, k))
            == WithCell(s, id,
                 if subscribed && !c.record.row.isTest
                 then c.(ledger := if Debit in c.ledger then c.ledger else c.ledger + [Debit], overageRecords := 1,
                         workers := c.workers - {k})
                 else c.(workers := c.workers - {k}))
  {
    hide Reachable, Apply, CellStep, CellInv, WorkerDebitStep, WorkerOverageStep;
    ReachableCell(s, id);
    StepsOfWorker(s.cells[id], DebitByWorker(id, k, subscribed));
    AppliesTo(s, DebitByWorker(id, k, subscribed), id);
    StepsOfWorker(WorkerDebitStep(s.cells[id], k, subscribed), OverageByWorker(id, k));
    AppliesTo(Apply(s, DebitByWorker(id, k, subscribed)), OverageByWorker(id, k), id);
    DebitedCell(id, s.cells[id], k, subscribed);
  }

  lemma DebitedCell(id: Uuid, c: Cell, k: nat, subscribed: bool)
    requires CellInv(id, c) && k in c.workers && c.workers[k].AfterConfirm?
    ensures WorkerOverageStep(WorkerDebitStep(c, k, subscribed), k)
            == if subscribed && !c.record.row.isTest
               then c.(ledger := if Debit in c.ledger then c.ledger else c.ledger + [Debit], overageRecords := 1,
                       workers := c.workers - {k})
               else c.(workers := c.workers - {k})
  {
    hide BuildRequest, BuildSnapshot, IntentsInv, SentInv, CancelInv, LedgerInv, ResolverOk, RequestOf;
    assert WorkerOk(c.record, c.ledger, c.overageRecords, k, c.workers[k]);
    assert c.workers[k := AfterDebit] - {k} == c.workers - {k};
  }

  lemma ResolverDebitsExactly(s: State, id: Uuid, subscribed: bool)
    requires Reachable(s) && id in s.cells && s.cells[id].resolver.ResolverAfterConfirm?
    ensures var c := s.cells[id];
            Apply(Apply(s, DebitByResolver(id, subscribed)), OverageByResolver(id))
            == WithCell(s, id,
                 if subscribed && !c.record.row.isTest
                 then c.(ledger := if Debit in c.ledger then c.ledger else c.ledger + [Debit], overageRecords := 1,
                         resolver := Resting)
                 else c.(resolver := Resting))
  {
    hide Reachable, Apply, CellStep, CellInv, ResolverDebitStep, ResolverOverageStep;
    ReachableCell(s, id);
    StepsOfResolver(s.cells[id], DebitByResolver(id, subscribed));
    AppliesTo(s, DebitByResolver(id, subscribed), id);
    StepsOfResolver(ResolverDebitStep(s.cells[id], subscribed), OverageByResolver(id));
    AppliesTo(Apply(s, DebitByResolver(id, subscribed)), OverageByResolver(id), id);
    ResolverDebitedCell(id, s.cells[id], subscribed);
  }

  lemma ResolverDebitedCell(id: Uuid, c: Cell, subscribed: bool)
    requires CellInv(id, c) && c.resolver.ResolverAfterConfirm?
    ensures ResolverOverageStep(ResolverDebitStep(c, subscribed))
            == if subscribed && !c.record.row.isTest
               then c.(ledger := if Debit in c.ledger then c.ledger else c.ledger + [Debit], overageRecords := 1,
                       resolver := Resting)
               else c.(resolver := Resting)
  {
    hide BuildRequest, BuildSnapshot, IntentsInv, SentInv, CancelInv, LedgerInv, WorkersInv, RequestOf;
  }

  // ---- Resolving an unknown outcome -------------------------------------------------------------------------------

  /** The steps of one resolution that nobody interrupts, up to its transaction. */
  function LookUp(id: Uuid, k: nat, awb: Option<string>): seq<Step> {
    [ResolverSees(id), ResolverLoads(id, k), ResolverLooks(id, awb)]
  }

  /** Looking up an unknown outcome settles the latest attempt: under an AWB it is RESOLVED_CONFIRMED, or
      quarantined if another shipment holds that AWB; found not to exist it is RESOLVED_FAILED. */
  lemma ResolvesExactly(s: State, id: Uuid, k: nat, awb: Option<string>, testMode: bool, seen: Reads)
    requires Reachable(s) && id in s.cells && s.cells[id].record.row.state == OutcomeUnknown
    requires s.cells[id].resolver == Resting && k + 1 == |s.cells[id].record.intents|
    requires ReadsOk(Run(s, LookUp(id, k, awb)), SettleResolver(id, testMode, seen))
    requires !(s.cells[id].record.row.collectible > 0 && seen.write)
    ensures var c := s.cells[id];
            var s' := Apply(Run(s, LookUp(id, k, awb)), SettleResolver(id, testMode, seen));
            && id in s'.cells && s' == WithCell(s, id, s'.cells[id])
            && var r, r' := c.record, s'.cells[id].record;
               && (awb.None? ==> Ended(r, r', k, r.row.(state := Failed), ResolvedFailed))
               && (awb.Some? && seen.duplicate ==> Ended(r, r', k, r.row.(state := Failed), IntentFailed))
               && (awb.Some? && !seen.duplicate ==>
                     Ended(r, r', k, r.row.(state := Confirmed, awb := Some(NormalizeAwb(awb.value)),
                                            custody := PickupPending, isTest := testMode), ResolvedConfirmed)
                     && s'.cells[id].resolver == ResolverAfterConfirm(testMode))
  {
    hide Reachable, CellInv, Apply, CellStep, ReadsOk, SettleResolverStep, NormalizeAwb;
    ReachableCell(s, id);
    UnknownShipment(id, s.cells[id], k);
    LooksUp(s, id, k, awb);
    var looked := Run(s, LookUp(id, k, awb));
    StepsOfResolver(looked.cells[id], SettleResolver(id, testMode, seen));
    AppliesTo(looked, SettleResolver(id, testMode, seen), id);
    ResolvedCell(s.cells[id], k, awb, testMode, seen);
  }

  lemma UnknownShipment(id: Uuid, c: Cell, k: nat)
    requires CellInv(id, c) && c.record.row.state == OutcomeUnknown && k + 1 == |c.record.intents|
    ensures c.record.intents[k].outcome == Unknown && !c.record.row.isTest
  {
    hide BuildSnapshot, IntentsInv, SentInv, CancelInv, LedgerInv, WorkersInv, ResolverOk, CountersInv;
  }

  lemma LooksUp(s: State, id: Uuid, k: nat, awb: Option<string>)
    requires id in s.cells && s.cells[id].record.row.state == OutcomeUnknown && s.cells[id].resolver == Resting
    requires k + 1 == |s.cells[id].record.intents| && s.cells[id].record.intents[k].outcome == Unknown
    ensures Run(s, LookUp(id, k, awb)) == WithCell(s, id, s.cells[id].(resolver := Looked(k, awb)))
  {
    hide Apply, CellStep, ReadsOk;
    var c := s.cells[id];
    var sees, loads, looks := ResolverSees(id), ResolverLoads(id, k), ResolverLooks(id, awb);
    FinalityNeeded.RunThree(s, sees, loads, looks);
    LookupsReadNothing(s, sees);
    LookupsReadNothing(Apply(s, sees), loads);
    LookupsReadNothing(Apply(Apply(s, sees), loads), looks);
    StepsOfResolver(c, sees);
    AppliesTo(s, sees, id);
    StepsOfResolver(c.(resolver := SawUnknown), loads);
    AppliesTo(Apply(s, sees), loads, id);
    StepsOfResolver(c.(resolver := Loaded(k)), looks);
    AppliesTo(Apply(Apply(s, sees), loads), looks, id);
  }

  lemma LookupsReadNothing(s: State, step: Step)
    requires step.ResolverSees? || step.ResolverLoads? || step.ResolverLooks?
    ensures ReadsOk(s, step)
  {
  }

  lemma ResolvedCell(c: Cell, k: nat, awb: Option<string>, testMode: bool, seen: Reads)
    requires k < |c.record.intents| && c.record.row.state == OutcomeUnknown && !c.record.row.isTest
    requires !(c.record.row.collectible > 0 && seen.write)
    ensures var r, c' := c.record, SettleResolverStep(c.(resolver := Looked(k, awb)), testMode, seen);
            && (awb.None? ==> Ended(r, c'.record, k, r.row.(state := Failed), ResolvedFailed))
            && (awb.Some? && seen.duplicate ==> Ended(r, c'.record, k, r.row.(state := Failed), IntentFailed))
            && (awb.Some? && !seen.duplicate ==>
                  Ended(r, c'.record, k, r.row.(state := Confirmed, awb := Some(NormalizeAwb(awb.value)),
                                                custody := PickupPending, isTest := testMode), ResolvedConfirmed)
                  && c'.resolver == ResolverAfterConfirm(testMode))
  {
    hide ConfirmTx, SettleFailedTx, NormalizeAwb;
    if awb.Some? {
      ConfirmsRow(c.record, k, awb.value, ResolvedConfirmed, testMode, seen);
    } else {
      FailsRow(c.record, k, OutcomeUnknown, ResolvedFailed, seen.write);
    }
  }

  // ---- Queueing and routing ---------------------------------------------------------------------------------------

  /** Routing writes working values and one of the two draft states, exactly while nothing has been queued since
      the shipment was drafted. */
  lemma RoutesExactly(s: State, id: Uuid, workingValues: string, manual: bool, seen: Reads)
    requires Reachable(s) && id in s.cells && ReadsOk(s, Route(id, workingValues, manual, seen))
    ensures var c := s.cells[id];
            Apply(s, Route(id, workingValues, manual, seen))
            == if c.record.row.state in {Draft, NeedsManualAssignment}
               then WithCell(s, id, c.(record := c.record.(row := c.record.row.(
                      workingValues := workingValues, state := if manual then NeedsManualAssignment else Draft))))
               else s
  {
    hide Reachable, Apply, CellStep, ReadsOk, IntentsInv, SentInv, CancelInv, LedgerInv, WorkersInv, ResolverOk;
    hide CountersInv, BuildSnapshot;
    ReachableCell(s, id);
    StepsOfWorker(s.cells[id], Route(id, workingValues, manual, seen));
    AppliesTo(s, Route(id, workingValues, manual, seen), id);
  }

  /** The amount a booking freezes: the order's outstanding cash for a COD shipment that found no carrier. */
  function Freezes(s: State, order: Uuid, input: BookingInput, seen: Reads): nat {
    if input.paymentMode == Cod && !seen.claim && order in s.outstanding then s.outstanding[order] else 0
  }

  /** A booking is queued if and only if the shipment is in draft or failed and neither of its two UPDATEs finds
      another carrier beside a frozen amount. It appends one attempt in flight, under the next reference, with
      exactly what was resolved; fills the four columns; and seals the versions it names, and no other. Nothing
      changes otherwise. */
  lemma QueuesExactly(s: State, id: Uuid, input: BookingInput, seen: Reads)
    requires Reachable(s) && id in s.cells && ReadsOk(s, QueueBooking(id, input, seen))
    ensures var r, s' := s.cells[id].record, Apply(s, QueueBooking(id, input, seen));
            var amount := Freezes(s, r.row.order, input, seen);
            var queues := r.row.state in {Draft, NeedsManualAssignment, Failed}
                          && !(r.row.state != Draft && r.row.collectible > 0 && seen.reentry)
                          && !(amount > 0 && seen.write);
            && id in s'.cells
            && (!queues ==> s' == s)
            && (queues ==>
                  var r', n := s'.cells[id].record, |r.intents|;
                  && s' == WithCell(s, id, s.cells[id].(record := r')).(versions := s'.versions)
                  && r'.row == r.row.(state := Queued, account := Some(input.accountId), collectible := amount,
                                      snapshot := r'.row.snapshot)
                  && r'.frozen == r.frozen + [Frozen(input, amount)]
                  && |r'.intents| == n + 1 && r'.intents[..n] == r.intents && r'.intents[n].outcome == InFlight
                  && r'.intents[n].reference
                     == r.row.shop[..8] + "-" + id + if n == 0 then "" else "-" + Decimal.Print(n + 1))
    ensures var r, s' := s.cells[id].record, Apply(s, QueueBooking(id, input, seen));
            s' != s ==>
              && s'.versions.Keys == s.versions.Keys
              && forall key :: key in s.versions ==>
                   s'.versions[key] == s.versions[key].(
                     isSealed := s.versions[key].isSealed
                                 || (input.version.Some? && key == ServiceKey(input.version.value.id))
                                 || (input.rateCardVersionId.Some? && key == RateCardKey(input.rateCardVersionId.value))
                                 || (input.zoneMapId.Some? && key == ZoneMapKey(input.zoneMapId.value)))
  {
    hide Reachable, CellInv, QueueTx, Seal, References, MerchantReference, RecordInv, Apply, ReadsOk;
    ReachableCell(s, id);
    CellRows(id, s.cells[id]);
    QueuedRecord(id, s.cells[id].record, input, Outstanding(s, s.cells[id].record.row.order), seen);
    SealsNamed(s.versions, input);
    QueueStep(s, id, input, seen);
  }

  lemma QueueStep(s: State, id: Uuid, input: BookingInput, seen: Reads)
    requires id in s.cells && ReadsOk(s, QueueBooking(id, input, seen))
    ensures var c := s.cells[id];
            var tx := QueueTx(c.record, id, input, Outstanding(s, c.record.row.order), seen);
            Apply(s, QueueBooking(id, input, seen))
            == if tx.Committed?
               then WithCell(s, id, c.(record := tx.record)).(versions := Seal(s.versions, References(input))) else s
  {
    hide QueueTx, Seal, References, ReadsOk;
    SealsNothing(s.versions);
    assert s.cells[id := s.cells[id]] == s.cells;
  }

  lemma SealsNamed(versions: map<VersionKey, VersionRow>, input: BookingInput)
    ensures var sealed := Seal(versions, References(input));
            && sealed.Keys == versions.Keys
            && forall key :: key in versions ==>
                 sealed[key] == versions[key].(
                   isSealed := versions[key].isSealed
                               || (input.version.Some? && key == ServiceKey(input.version.value.id))
                               || (input.rateCardVersionId.Some? && key == RateCardKey(input.rateCardVersionId.value))
                               || (input.zoneMapId.Some? && key == ZoneMapKey(input.zoneMapId.value)))
  {
  }

  lemma QueuedRecord(id: Uuid, r: Record, input: BookingInput, outstanding: Option<nat>, seen: Reads)
    requires RecordInv(id, r)
    ensures var amount := if input.paymentMode == Cod && !seen.claim && outstanding.Some? then outstanding.value else 0;
            var queues := r.row.state in {Draft, NeedsManualAssignment, Failed}
                          && !(r.row.state != Draft && r.row.collectible > 0 && seen.reentry)
                          && !(amount > 0 && seen.write);
            var result := QueueTx(r, id, input, outstanding, seen);
            && (result.Committed? <==> queues)
            && (queues ==>
                  var r', n := result.record, |r.intents|;
                  && r'.row == r.row.(state := Queued, account := Some(input.accountId), collectible := amount,
                                      snapshot := r'.row.snapshot)
                  && r'.frozen == r.frozen + [Frozen(input, amount)]
                  && |r'.intents| == n + 1 && r'.intents[..n] == r.intents && r'.intents[n].outcome == InFlight
                  && r'.intents[n].reference
                     == r.row.shop[..8] + "-" + id + if n == 0 then "" else "-" + Decimal.Print(n + 1))
  {
    hide MerchantReference, Canonical, QueuedEntries, BuildSnapshot, IntentsInv;
    ReferenceText(r.row.shop, id, |r.intents|);
  }
}
