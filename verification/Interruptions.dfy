/** What a crash or a restart leaves, and how the work resumes: the rows stay, the process is gone, and what it
    did is done again from the rows. */
module Interruptions {
  import opened Wrappers
  import opened BookingSnapshot
  import opened ShipmentRows
  import opened BookingTransactions
  import opened RecordInvariant
  import opened BookingProtocol
  import opened BookingInvariant
  import opened BookingTheorems
  import opened SentRequests
  import opened SingleSteps
  import opened JobOutcomes

  /** A job whose worker died, and whose process was restarted, is claimed again from the rows. */
  function Restart(s: State, id: Uuid, k: nat): State {
    Apply(Apply(Apply(s, CrashWorker(id, k)), ForgetMemo(id, k)), ClaimJob(id, k, CAUTIOUS))
  }

  lemma NothingToRead(s: State, step: Step)
    requires step.CrashWorker? || step.ForgetMemo? || step.CrashResolver? || step.CrashCancel?
             || (Transactional(step) && step.seen == CAUTIOUS && !step.SettleWorker? && !step.SettleResolver?)
    ensures ReadsOk(s, step)
  {
    hide OtherCarrier, Duplicate, DuplicateEver;
  }

  /** Wherever the worker of an unsettled job dies, the redelivered job is claimed with the request of its attempt,
      sends that same create again, and nothing else has changed. */
  lemma RestartedJobSendsAgain(s: State, id: Uuid, k: nat)
    requires Reachable(s) && id in s.cells && k in s.cells[id].workers
    requires var pc := s.cells[id].workers[k]; pc.Ready? || pc.Sent? || pc.Answered?
    ensures k < |s.cells[id].record.intents| == |s.cells[id].record.frozen|
    ensures var c := s.cells[id];
            exists request ::
              && Apply(Restart(s, id, k), SendCreate(id, k))
                 == WithCell(s, id, c.(workers := c.workers[k := Sent(request)], memo := c.memo - {k},
                                       sent := c.sent + [(k, request)]))
                    .(requested := s.requested + {request.reference})
              && request.reference == c.record.intents[k].reference && request.digest == c.record.intents[k].digest
              && NamesRecipient(request, c.record.frozen[k].input.recipient)
              && DescribesParcel(request, c.record.frozen[k].input, c.record.frozen[k].collectible)
              && forall i :: 0 <= i < |c.sent| && c.sent[i].0 == k ==> c.sent[i].1 == request
  {
    hide Reachable, Apply, CellStep, ReadsOk, CellInv, ClaimStep, BuildRequest, BuildSnapshot, NamesRecipient;
    hide DescribesParcel, RequestOf;
    var c := s.cells[id];
    ReachableCell(s, id);
    WorkingRow(id, c, k);
    Restarts(s, id, k);
    BuiltRequest(c.record, k);
    var again := Restart(s, id, k);
    ReachableNext(s, CrashWorker(id, k));
    ReachableNext(Apply(s, CrashWorker(id, k)), ForgetMemo(id, k));
    ReachableNext(Apply(Apply(s, CrashWorker(id, k)), ForgetMemo(id, k)), ClaimJob(id, k, CAUTIOUS));
    SendsExactly(again, id, k);
    ClaimedCell(id, c, k, CAUTIOUS);
    var request := RequestOf(c.record, k);
    assert c.workers[k := Ready(request)][k := Sent(request)] == c.workers[k := Sent(request)];
  }

  lemma BuiltRequest(r: Record, k: nat)
    requires k < |r.intents| == |r.frozen|
    ensures var request := RequestOf(r, k);
            && request.reference == r.intents[k].reference && request.digest == r.intents[k].digest
            && NamesRecipient(request, r.frozen[k].input.recipient)
            && DescribesParcel(request, r.frozen[k].input, r.frozen[k].collectible)
  {
    hide BuildRequest, BuildSnapshot, NamesRecipient, DescribesParcel;
    BuiltFields(r.intents[k].reference, r.intents[k].digest, r.frozen[k].input, r.frozen[k].collectible);
  }

  lemma Forgets(s: State, id: Uuid, k: nat)
    requires id in s.cells
    ensures var c := s.cells[id];
            Apply(Apply(s, CrashWorker(id, k)), ForgetMemo(id, k))
            == WithCell(s, id, c.(workers := c.workers - {k}, memo := c.memo - {k}))
  {
    hide Apply, CellStep, ReadsOk;
    var c := s.cells[id];
    var crash, forget := CrashWorker(id, k), ForgetMemo(id, k);
    NothingToRead(s, crash);
    StepsOfWorker(c, crash);
    AppliesTo(s, crash, id);
    var s1, c1 := Apply(s, crash), c.(workers := c.workers - {k});
    assert s1 == WithCell(s, id, c1);
    NothingToRead(s1, forget);
    StepsOfWorker(c1, forget);
    AppliesTo(s1, forget, id);
  }

  lemma Reclaims(s: State, id: Uuid, k: nat, c: Cell)
    requires Reachable(s) && id in s.cells && k !in s.cells[id].workers && s.cells[id].record == c.record
    requires k < |c.record.intents| && c.record.intents[k].outcome == InFlight && c.record.row.state == Submitted
    requires s.cells[id] == c.(workers := c.workers - {k}, memo := c.memo - {k})
    ensures |c.record.intents| == |c.record.frozen|
    ensures Apply(s, ClaimJob(id, k, CAUTIOUS))
            == WithCell(s, id, c.(workers := c.workers[k := Ready(RequestOf(c.record, k))], memo := c.memo - {k}))
  {
    hide Reachable, Apply, CellStep, ReadsOk, CellInv, ClaimStep, RequestOf;
    var claim := ClaimJob(id, k, CAUTIOUS);
    ReachableCell(s, id);
    NothingToRead(s, claim);
    StepsOfWorker(s.cells[id], claim);
    AppliesTo(s, claim, id);
    ClaimedCell(id, s.cells[id], k, CAUTIOUS);
    assert (c.workers - {k})[k := Ready(RequestOf(c.record, k))] == c.workers[k := Ready(RequestOf(c.record, k))];
    assert c.record.(row := c.record.row.(state := Submitted)) == c.record;
  }

  lemma Restarts(s: State, id: Uuid, k: nat)
    requires Reachable(s) && id in s.cells && k in s.cells[id].workers
    requires var pc := s.cells[id].workers[k]; pc.Ready? || pc.Sent? || pc.Answered?
    ensures k < |s.cells[id].record.intents| == |s.cells[id].record.frozen|
    ensures var c := s.cells[id];
            Restart(s, id, k)
            == WithCell(s, id, c.(workers := c.workers[k := Ready(RequestOf(c.record, k))], memo := c.memo - {k}))
  {
    hide Reachable, Apply, CellInv, RequestOf;
    var c := s.cells[id];
    ReachableCell(s, id);
    WorkingRow(id, c, k);
    Forgets(s, id, k);
    ReachableNext(s, CrashWorker(id, k));
    ReachableNext(Apply(s, CrashWorker(id, k)), ForgetMemo(id, k));
    Reclaims(Apply(Apply(s, CrashWorker(id, k)), ForgetMemo(id, k)), id, k, c);
  }

  /** A resolver that dies leaves the shipment to be looked up again; a cancellation that dies leaves its rows and
      its answer to nobody: the shipment stays CANCEL_REQUESTED, or VOID without what was still to be reversed. */
  lemma OthersDie(s: State, id: Uuid, call: nat)
    requires id in s.cells
    ensures var c := s.cells[id];
            && Apply(s, CrashResolver(id)) == WithCell(s, id, c.(resolver := Resting))
            && Apply(s, CrashCancel(id, call))
               == (if call in c.cancels && !c.cancels[call].Done?
                   then WithCell(s, id, c.(cancels := c.cancels - {call})) else s)
  {
    hide Apply, CellStep, ReadsOk;
    NothingToRead(s, CrashResolver(id));
    NothingToRead(s, CrashCancel(id, call));
    StepsOfResolver(s.cells[id], CrashResolver(id));
    StepsOnCustody(s.cells[id], CrashCancel(id, call));
    AppliesTo(s, CrashResolver(id), id);
    AppliesTo(s, CrashCancel(id, call), id);
  }

  /** A shipment is inserted as a draft with its working values and nothing else, unless its id is taken. */
  lemma InsertsExactly(s: State, id: Uuid, shop: Uuid, order: Uuid, workingValues: string)
    ensures Apply(s, InsertShipment(id, shop, order, workingValues)).cells.Keys == s.cells.Keys + {id}
    ensures id in s.cells ==> Apply(s, InsertShipment(id, shop, order, workingValues)) == s
    ensures id !in s.cells ==>
              var s' := Apply(s, InsertShipment(id, shop, order, workingValues));
              var c := s'.cells[id];
              && s' == WithCell(s, id, c) && c.record.intents == [] && c.record.frozen == []
              && c.record.row == Shipment(shop, order, None, Draft, NotApplicable, None, 0, false, workingValues, None)
              && c.workers == map[] && c.memo == map[] && c.resolver == Resting && c.cancels == map[]
              && c.ledger == [] && c.sent == []
  {
  }
}
