/** Why ExactlyOnce assumes that a reported failure is final. The adapters report DNS, TLS and connection
    failures and provider errors as refusals; when the courier had booked all the same, the shipment is
    FAILED, may be queued again under a new reference, and is then booked twice. */
module FinalityNeeded {
  import opened Wrappers
  import opened BookingSnapshot
  import opened ShipmentRows
  import opened BookingTransactions
  import opened RecordInvariant
  import opened BookingProtocol
  import opened BookingInvariant
  import opened BookingSafety
  import opened ExactlyOnce
  import opened Collectible

  function NextReference(s: State, id: Uuid): string
    requires id in s.cells
  {
    MerchantReference(s.cells[id].record.row.shop, id, |s.cells[id].record.intents| + 1)
  }

  function Dispatch(s: State, id: Uuid, input: BookingInput): seq<Step>
    requires id in s.cells
  {
    var k := |s.cells[id].record.intents|;
    [QueueBooking(id, input, SeenSerially(s, id)), ClaimJob(id, k, SeenSerially(s, id)), SendCreate(id, k)]
  }

  lemma HonestSnoc(s: State, steps: seq<Step>, step: Step)
    ensures HonestRun(s, steps + [step]) <==>
            HonestRun(s, steps) && Truthful(Run(s, steps), step) && FreshAwb(Run(s, steps), step)
  {
    assert (steps + [step])[..|steps|] == steps;
  }

  lemma RunSnoc(s: State, steps: seq<Step>, step: Step)
    ensures Run(s, steps + [step]) == Apply(Run(s, steps), step)
  {
    assert (steps + [step])[..|steps|] == steps;
  }

  /** The create of the shipment's next attempt is on its way, nothing else has changed. */
  ghost predicate OnItsWay(s: State, s': State, id: Uuid, input: BookingInput)
    requires id in s.cells
  {
    var k := |s.cells[id].record.intents|;
    && s'.cells.Keys == s.cells.Keys && s'.courier == s.courier && s.requested <= s'.requested
       && NextReference(s, id) in s'.requested
    && (forall other :: other in s.cells && other != id ==> s'.cells[other] == s.cells[other])
    && var c := s'.cells[id];
       && |c.record.intents| == k + 1 && c.record.intents[k].reference == NextReference(s, id)
       && (forall j :: 0 <= j < k ==> c.record.intents[j] == s.cells[id].record.intents[j])
       && k in c.workers && c.workers[k].Sent? && c.workers[k].request.reference == NextReference(s, id)
       && c.record.row.state == Submitted && c.record.row.shop == s.cells[id].record.row.shop
       && c.record.row.account == Some(input.accountId) && (input.paymentMode != Cod ==> c.record.row.collectible == 0)
       && c.cancels == s.cells[id].cancels
  }

  lemma NobodyWorksOnNext(id: Uuid, c: Cell, k: nat)
    requires CellInv(id, c) && k == |c.record.intents|
    ensures k !in c.workers && k !in c.memo
  {
    hide IntentsInv, RowInv, SentInv, ResolverOk, CancelInv, LedgerInv, WorkersInv;
    if k in c.workers {
      OnlyWorker(id, c, k, c.workers[k]);
    }
  }

  lemma QueueCommits(id: Uuid, r: Record, input: BookingInput, outstanding: Option<nat>, carrier: bool)
    requires RecordInv(id, r) && QueueableState(r.row.state) && (r.row.collectible == 0 || !carrier)
    ensures var result := QueueTx(r, id, input, outstanding, Reads(carrier, carrier, carrier, false));
            && result.Committed? && Extends(r, result.record)
            && result.record.intents[|r.intents|].reference == MerchantReference(r.row.shop, id, |r.intents| + 1)
            && result.record.intents[|r.intents|].outcome == InFlight
            && result.record.row.state == Queued && result.record.row.snapshot.Some?
            && result.record.row.collectible == ClaimedCollectible(input, outstanding, carrier)
            && result.record.row.shop == r.row.shop && result.record.row.order == r.row.order
            && result.record.row.account == Some(input.accountId)
  {
    hide RecordInv, QueueTx, MerchantReference, Canonical, QueuedEntries, BuildSnapshot, ClaimedCollectible;
    QueueTxExactly(id, r, input, outstanding, carrier);
    QueueWrites(id, r, input, outstanding, Reads(carrier, carrier, carrier, false));
    var result := QueueTx(r, id, input, outstanding, Reads(carrier, carrier, carrier, false));
    AsManyFrozen(id, r);
    assert QueuedAs(id, r, result.record, Frozen(input, ClaimedCollectible(input, outstanding, carrier)));
  }

  lemma AsManyFrozen(id: Uuid, r: Record)
    requires RecordInv(id, r)
    ensures |r.intents| == |r.frozen|
  {
  }

  /** The attempt just queued. */
  ghost predicate QueuedNext(s: State, s': State, id: Uuid, input: BookingInput)
    requires id in s.cells
  {
    var k := |s.cells[id].record.intents|;
    && s'.cells.Keys == s.cells.Keys && s'.courier == s.courier && s'.requested == s.requested
    && (forall other :: other in s.cells && other != id ==> s'.cells[other] == s.cells[other])
    && var c := s'.cells[id];
       && Extends(s.cells[id].record, c.record)
       && c.record.intents[k].reference == NextReference(s, id) && c.record.intents[k].outcome == InFlight
       && c.record.row.state == Queued && c.record.row.snapshot.Some? && c.record.row.account == Some(input.accountId)
       && c.record.row.collectible == ClaimedCollectible(input, Outstanding(s, s.cells[id].record.row.order),
                                                         OtherCarrier(s, id))
       && c.record.row.shop == s.cells[id].record.row.shop && c.record.row.order == s.cells[id].record.row.order
       && k !in c.workers && k !in c.memo && c.cancels == s.cells[id].cancels
  }

  lemma Queues(s: State, id: Uuid, input: BookingInput)
    requires Inv(s) && CanQueueAgain(s, id)
    ensures QueuedNext(s, Apply(s, QueueBooking(id, input, SeenSerially(s, id))), id, input)
  {
    hide QueueTx, Inv, CellInv, MerchantReference, Apply, OtherCarrier, ClaimedCollectible, ReadsOk, IntentsInv, RowInv;
    var c, step := s.cells[id], QueueBooking(id, input, SeenSerially(s, id));
    InvCell(s, id);
    CellRows(id, c);
    QueueCommits(id, c.record, input, Outstanding(s, c.record.row.order), OtherCarrier(s, id));
    SerialOk(s, step, id);
    QueueApplies(s, id, input, SeenSerially(s, id));
    NobodyWorksOnNext(id, c, |c.record.intents|);
  }

  lemma SameOtherCarrier(s: State, s': State, id: Uuid)
    requires id in s.cells && s'.cells.Keys == s.cells.Keys
    requires s'.cells[id].record.row.order == s.cells[id].record.row.order
    requires forall other :: other in s.cells && other != id ==> s'.cells[other] == s.cells[other]
    ensures OtherCarrier(s', id) == OtherCarrier(s, id)
  {
  }

  lemma InvCell(s: State, id: Uuid)
    requires Inv(s) && id in s.cells
    ensures CellInv(id, s.cells[id])
  {
    hide CellInv, AwbUnique, SingleCarrier;
  }

  /** Nothing but the cell of `id` changed, and the courier was not asked. */
  ghost predicate OnlyCell(s: State, s': State, id: Uuid) {
    && s'.cells.Keys == s.cells.Keys && s'.courier == s.courier && s'.requested == s.requested
    && forall other :: other in s.cells && other != id ==> s'.cells[other] == s.cells[other]
  }

  /** The worker has claimed attempt k and built its request. */
  ghost predicate ClaimedNext(s: State, s': State, id: Uuid, k: nat)
    requires id in s.cells && k < |s.cells[id].record.intents|
  {
    && OnlyCell(s, s', id)
    && var c := s'.cells[id];
       && c.record == s.cells[id].record.(row := s.cells[id].record.row.(state := Submitted))
          && c.memo == s.cells[id].memo
       && c.cancels == s.cells[id].cancels
       && k in c.workers && c.workers[k].Ready?
          && c.workers[k].request.reference == s.cells[id].record.intents[k].reference
  }

  lemma ClaimCommits(r: Record, k: nat, carrier: bool)
    requires k < |r.intents| && r.intents[k].outcome == InFlight && r.row.state == Queued
    requires (r.row.collectible == 0 || !carrier)
    ensures ClaimTx(r, k, carrier) == Committed(r.(row := r.row.(state := Submitted)))
  {
  }

  lemma ClaimIsOk(s: State, id: Uuid, k: nat)
    requires id in s.cells
    ensures ReadsOk(s, ClaimJob(id, k, SeenSerially(s, id)))
  {
    hide Duplicate, DuplicateEver, OtherCarrier;
  }

  lemma Claims(s: State, id: Uuid, k: nat)
    requires id in s.cells && k !in s.cells[id].workers && k < |s.cells[id].record.intents|
    requires s.cells[id].record.intents[k].outcome == InFlight && s.cells[id].record.row.state == Queued
    requires s.cells[id].record.row.snapshot.Some? && (s.cells[id].record.row.collectible == 0 || !OtherCarrier(s, id))
    ensures ClaimedNext(s, Apply(s, ClaimJob(id, k, SeenSerially(s, id))), id, k)
  {
    hide Seal, OtherCarrier, ReadsOk, ClaimTx;
    ClaimIsOk(s, id, k);
    ClaimCommits(s.cells[id].record, k, OtherCarrier(s, id));
  }

  lemma Sends(s: State, id: Uuid, k: nat)
    requires id in s.cells && k in s.cells[id].workers && s.cells[id].workers[k].Ready? && k !in s.cells[id].memo
    ensures var s' := Apply(s, SendCreate(id, k));
            && s'.cells.Keys == s.cells.Keys && s'.courier == s.courier
               && s.cells[id].workers[k].request.reference in s'.requested
            && s.requested <= s'.requested
            && (forall other :: other in s.cells && other != id ==> s'.cells[other] == s.cells[other])
            && var c := s'.cells[id];
               && c.record == s.cells[id].record && k in c.workers
                  && c.workers[k] == Sent(s.cells[id].workers[k].request)
               && c.cancels == s.cells[id].cancels
  {
    hide Seal;
  }

  lemma SameSight(s: State, s': State, id: Uuid)
    requires id in s.cells && s'.cells.Keys == s.cells.Keys
    requires s'.cells[id].record.row.order == s.cells[id].record.row.order
    requires forall other :: other in s.cells && other != id ==> s'.cells[other] == s.cells[other]
    ensures SeenSerially(s', id) == SeenSerially(s, id) && OtherCarrier(s', id) == OtherCarrier(s, id)
  {
    SameOtherCarrier(s, s', id);
  }

  /** The three steps of a dispatch, one after the other. */
  lemma QueuesAndClaims(s: State, id: Uuid, input: BookingInput)
    requires Inv(s) && CanQueueAgain(s, id)
    ensures var k, seen := |s.cells[id].record.intents|, SeenSerially(s, id);
            var queued := Apply(s, QueueBooking(id, input, seen));
            QueuedNext(s, queued, id, input) && k < |queued.cells[id].record.intents|
                && ClaimedNext(queued, Apply(queued, ClaimJob(id, k, seen)), id, k)
  {
    hide Apply, MerchantReference, Inv, OtherCarrier, ClaimedCollectible, SeenSerially, ClaimedNext;
    Queues(s, id, input);
    var queued := Apply(s, QueueBooking(id, input, SeenSerially(s, id)));
    SameSight(s, queued, id);
    NothingBesideCarrier(input, Outstanding(s, s.cells[id].record.row.order), OtherCarrier(s, id));
    Claims(queued, id, |s.cells[id].record.intents|);
  }

  lemma DispatchedOn(s: State, queued: State, claimed: State, id: Uuid, input: BookingInput)
    requires id in s.cells && QueuedNext(s, queued, id, input)
    requires |s.cells[id].record.intents| < |queued.cells[id].record.intents|
    requires ClaimedNext(queued, claimed, id, |s.cells[id].record.intents|)
    ensures OnItsWay(s, Apply(claimed, SendCreate(id, |s.cells[id].record.intents|)), id, input)
  {
    hide Apply, MerchantReference, OtherCarrier, ClaimedCollectible;
    NothingBesideCarrier(input, Outstanding(s, s.cells[id].record.row.order), OtherCarrier(s, id));
    Sends(claimed, id, |s.cells[id].record.intents|);
  }

  lemma Dispatches(s: State, id: Uuid, input: BookingInput)
    requires Inv(s) && id in s.cells && CanQueueAgain(s, id)
    ensures OnItsWay(s, Run(s, Dispatch(s, id, input)), id, input)
    ensures HonestRun(s, Dispatch(s, id, input))
  {
    hide Apply, Inv, CanQueueAgain, SeenSerially, OnItsWay, QueuedNext, ClaimedNext;
    var steps := Dispatch(s, id, input);
    RunThree(s, steps[0], steps[1], steps[2]);
    assert steps == [steps[0], steps[1], steps[2]];
    QueuesAndClaims(s, id, input);
    DispatchedOn(s, Apply(s, steps[0]), Apply(Apply(s, steps[0]), steps[1]), id, input);
  }

  lemma NothingBesideCarrier(input: BookingInput, outstanding: Option<nat>, carrier: bool)
    ensures carrier || input.paymentMode != Cod ==> ClaimedCollectible(input, outstanding, carrier) == 0
  {
  }

  /** A step that reports nothing and rules nothing. */
  predicate Silent(step: Step) {
    !step.CreateAnswered? && !step.ResolverLooks? && !step.CourierRules?
  }

  lemma RunThree(s: State, a: Step, b: Step, c: Step)
    ensures Run(s, [a, b, c]) == Apply(Apply(Apply(s, a), b), c)
    ensures Silent(a) && Silent(b) && Silent(c) ==> HonestRun(s, [a, b, c])
  {
    hide Apply;
    RunSnoc(s, [], a);
    RunSnoc(s, [a], b);
    RunSnoc(s, [a, b], c);
    HonestSnoc(s, [], a);
    HonestSnoc(s, [a], b);
    HonestSnoc(s, [a, b], c);
    assert Run(s, []) == s && [] + [a] == [a] && [a] + [b] == [a, b] && [a, b] + [c] == [a, b, c];
  }

  // ---- Single steps of one shipment ---------------------------------------------------------------------------

  lemma Requests(s: State, id: Uuid, call: nat)
    requires id in s.cells && call !in s.cells[id].cancels
    requires s.cells[id].record.row.state == Confirmed
    requires s.cells[id].record.row.custody in {PickupPending, PickupScheduled}
    ensures var c, s' := s.cells[id], Apply(s, RequestCancel(id, call));
            && OnlyCell(s, s', id)
            && s'.cells[id] == c.(record := c.record.(row := c.record.row.(custody := CancelRequested)),
                                  cancels := c.cancels[call := Requested(c.record.row.custody, c.record.row.isTest)])
  {
    hide Seal;
  }

  lemma Accepts(s: State, id: Uuid, call: nat)
    requires id in s.cells && call in s.cells[id].cancels && s.cells[id].cancels[call].Requested?
    ensures var c, s' := s.cells[id], Apply(s, CancelAnswered(id, call, CancelAccepted));
            && OnlyCell(s, s', id)
            && s'.cells[id] == c.(cancels := c.cancels[call := Replied(CancelAccepted, c.cancels[call].previous,
                  c.cancels[call].test)])
  {
    hide Seal;
  }

  lemma Voids(s: State, id: Uuid, call: nat)
    requires id in s.cells && call in s.cells[id].cancels && s.cells[id].cancels[call].Replied?
    requires s.cells[id].cancels[call].verdict == CancelAccepted
    requires s.cells[id].record.row.custody == CancelRequested
    ensures var c, s' := s.cells[id], Apply(s, SettleCancel(id, call, CAUTIOUS));
            && OnlyCell(s, s', id)
            && s'.cells[id] == c.(record := c.record.(row := c.record.row.(custody := Cancelled, state := Void,
                  collectible := 0)),
                                  cancels := c.cancels[call := AfterVoid(c.cancels[call].test)])
  {
    hide Seal;
  }

  /** The courier books an attempt under way. */
  lemma Books(s: State, reference: string, awb: string)
    requires reference in s.requested && reference !in s.courier
    ensures Apply(s, CourierRules(reference, Booked(awb))) == s.(courier := s.courier[reference := Booked(awb)])
  {
  }

  ghost predicate FreshIn(courier: Courier, awb: string) {
    forall reference :: IsBooked(courier, reference) ==> NormalizeAwb(courier[reference].awb) != NormalizeAwb(awb)
  }

  /** From any state in which an attempt of a shipment that can be queued is booked, an honest continuation
      books the shipment twice, cash on delivery or not. */
  lemma FailedButBookedDoubles(s: State, id: Uuid, k: nat, input: BookingInput, awb: string)
    requires Inv(s) && CanQueueAgain(s, id) && k < |s.cells[id].record.intents|
    requires IsBooked(s.courier, s.cells[id].record.intents[k].reference)
    requires NextReference(s, id) !in s.courier && FreshIn(s.courier, awb)
    ensures var steps := Dispatch(s, id, input) + [CourierRules(NextReference(s, id), Booked(awb))];
            HonestRun(s, steps) && !BookedOnce(Run(s, steps))
  {
    hide Run, Apply, MerchantReference, Inv, NormalizeAwb;
    var front, last := Dispatch(s, id, input), CourierRules(NextReference(s, id), Booked(awb));
    var steps := front + [last];
    Dispatches(s, id, input);
    var before := Run(s, front);
    RunSnoc(s, front, last);
    Books(before, NextReference(s, id), awb);
    HonestSnoc(s, front, last);
    var end := Run(s, steps);
    assert end.cells[id].record.intents[k].reference == s.cells[id].record.intents[k].reference;
    assert IsBooked(end.courier, end.cells[id].record.intents[k].reference) && !IsLatest(end.cells[id].record, k);
  }

  // ---- A run that does it -------------------------------------------------------------------------------------

  /** The provider books the attempt, its answer is lost to a connection failure, and the worker settles FAILED. */
  function LoseAnswer(reference: string, id: Uuid, k: nat, awb: string): seq<Step> {
    [CourierRules(reference, Booked(awb)), CreateAnswered(id, k, ReplyProviderError),
     SettleWorker(id, k, false, CAUTIOUS)]
  }

  lemma ConnectionFails(s: State, id: Uuid, k: nat)
    requires id in s.cells && k in s.cells[id].workers && s.cells[id].workers[k].Sent?
    ensures var s' := Apply(s, CreateAnswered(id, k, ReplyProviderError));
            && s'.cells.Keys == s.cells.Keys && s'.courier == s.courier && s'.requested == s.requested
            && s'.cells[id].record == s.cells[id].record
            && k in s'.cells[id].workers && s'.cells[id].workers[k] == Answered(Rejected)
  {
    hide Seal;
  }

  lemma SettlesFailed(s: State, id: Uuid, k: nat)
    requires id in s.cells && k in s.cells[id].workers && s.cells[id].workers[k] == Answered(Rejected)
    requires k < |s.cells[id].record.intents| && s.cells[id].record.row.state == Submitted
    requires s.cells[id].record.row.collectible == 0
    ensures var s' := Apply(s, SettleWorker(id, k, false, CAUTIOUS));
            && id in s'.cells && s'.courier == s.courier
            && s'.cells[id].record.row.state == Failed && s'.cells[id].record.row.collectible == 0
            && s'.cells[id].record.row.shop == s.cells[id].record.row.shop
            && |s'.cells[id].record.intents| == |s.cells[id].record.intents|
            && s'.cells[id].record.intents[k].reference == s.cells[id].record.intents[k].reference
  {
    hide Seal, Duplicate, DuplicateEver, OtherCarrier, ConfirmTx, MarkUnknownTx;
  }

  lemma Loses(s: State, id: Uuid, k: nat, awb: string)
    requires id in s.cells && k in s.cells[id].workers && s.cells[id].workers[k].Sent?
    requires |s.cells[id].record.intents| == k + 1
    requires s.cells[id].record.row.state == Submitted && s.cells[id].record.row.collectible == 0
    requires s.cells[id].record.intents[k].reference in s.requested
    requires s.cells[id].record.intents[k].reference !in s.courier
    ensures var reference := s.cells[id].record.intents[k].reference;
            var s' := Run(s, LoseAnswer(reference, id, k, awb));
            && id in s'.cells && s'.courier == s.courier[reference := Booked(awb)]
            && s'.cells[id].record.row.state == Failed && s'.cells[id].record.row.collectible == 0
            && s'.cells[id].record.row.shop == s.cells[id].record.row.shop
            && |s'.cells[id].record.intents| == k + 1 && s'.cells[id].record.intents[k].reference == reference
  {
    var reference := s.cells[id].record.intents[k].reference;
    var a, b, c := CourierRules(reference, Booked(awb)), CreateAnswered(id, k, ReplyProviderError),
        SettleWorker(id, k, false, CAUTIOUS);
    Books(s, reference, awb);
    var booked := Apply(s, a);
    ConnectionFails(booked, id, k);
    SettlesFailed(Apply(booked, b), id, k);
    hide Apply;
    RunSnoc(s, [], a);
    RunSnoc(s, [a], b);
    RunSnoc(s, [a, b], c);
    assert Run(s, []) == s && [] + [a] == [a] && [a] + [b] == [a, b]
           && [a, b] + [c] == LoseAnswer(reference, id, k, awb);
  }

  lemma {:induction false} RunAppend(s: State, a: seq<Step>, b: seq<Step>)
    ensures Run(s, a + b) == Run(Run(s, a), b)
    decreases |b|
  {
    hide Apply;
    if b == [] {
      assert a + b == a;
    } else {
      RunAppend(s, a, b[..|b| - 1]);
      assert (a + b)[..|a + b| - 1] == a + b[..|b| - 1];
    }
  }

  function Loss(id: Uuid, shop: Uuid, order: Uuid, input: BookingInput, awb: string): seq<Step> {
    [InsertShipment(id, shop, order, ""), QueueBooking(id, input, NOBODY), ClaimJob(id, 0, NOBODY), SendCreate(id, 0)]
    + LoseAnswer(MerchantReference(shop, id, 1), id, 0, awb)
  }

  lemma Inserts(outstanding: map<Uuid, nat>, id: Uuid, shop: Uuid, order: Uuid)
    ensures var first := Initial(outstanding);
            Run(first, [InsertShipment(id, shop, order, "")]) == first.(cells := map[id := NewCell(shop, order, "")])
  {
    var first, created := Initial(outstanding), InsertShipment(id, shop, order, "");
    RunSnoc(first, [], created);
    assert [] + [created] == [created] && Run(first, []) == first;
  }

  lemma LossShown(outstanding: map<Uuid, nat>, id: Uuid, shop: Uuid, order: Uuid, input: BookingInput, awb: string)
    requires input.paymentMode != Cod
    ensures var lost := Run(Initial(outstanding), Loss(id, shop, order, input, awb));
            && Inv(lost) && CanQueueAgain(lost, id) && lost.cells[id].record.row.state == Failed
            && |lost.cells[id].record.intents| == 1
               && lost.cells[id].record.intents[0].reference == MerchantReference(shop, id, 1)
            && lost.cells[id].record.row.shop == shop
            && lost.courier == map[MerchantReference(shop, id, 1) := Booked(awb)]
  {
    var first, reference := Initial(outstanding), MerchantReference(shop, id, 1);
    InitialInv(outstanding);
    hide Apply, MerchantReference, NormalizeAwb, Inv, Run, HonestRun, LoseAnswer, Loss;
    var created := [InsertShipment(id, shop, order, "")];
    Inserts(outstanding, id, shop, order);
    RunKeeps(first, created);
    var s := Run(first, created);
    Dispatches(s, id, input);
    LossSplits(outstanding, s, id, shop, order, input, awb);
    RunKeeps(first, Loss(id, shop, order, input, awb));
    hide Dispatch, CanQueueAgain, OtherCarrier;
    Loses(Run(s, Dispatch(s, id, input)), id, 0, awb);
  }

  lemma LossSplits(outstanding: map<Uuid, nat>, s: State, id: Uuid, shop: Uuid, order: Uuid, input: BookingInput,
                   awb: string)
    requires s == Run(Initial(outstanding), [InsertShipment(id, shop, order, "")]) && id in s.cells
    requires s.cells[id].record.intents == []
    requires s.cells.Keys == {id}
    ensures Run(Initial(outstanding), Loss(id, shop, order, input, awb))
            == Run(Run(s, Dispatch(s, id, input)), LoseAnswer(MerchantReference(shop, id, 1), id, 0, awb))
  {
    hide Run, MerchantReference;
    var created, sent, lost := [InsertShipment(id, shop, order, "")], Dispatch(s, id, input),
        LoseAnswer(MerchantReference(shop, id, 1), id, 0, awb);
    RunAppend(Initial(outstanding), created, sent);
    RunAppend(Initial(outstanding), created + sent, lost);
    assert Loss(id, shop, order, input, awb) == created + sent + lost;
  }

  /** From the empty database, one lost answer and one retry book a shipment twice: the only step of the run
      that is not honest is the connection failure reported as a refusal. */
  lemma LostAnswerBooksTwice(outstanding: map<Uuid, nat>, id: Uuid, shop: Uuid, order: Uuid, input: BookingInput,
                             awb: string, awb2: string)
    requires input.paymentMode != Cod && NormalizeAwb(awb) != NormalizeAwb(awb2)
    ensures var lost := Run(Initial(outstanding), Loss(id, shop, order, input, awb));
            && id in lost.cells && lost.cells[id].record.row.state == Failed
            && var retry := Dispatch(lost, id, input) + [CourierRules(MerchantReference(shop, id, 2), Booked(awb2))];
               HonestRun(lost, retry) && !BookedOnce(Run(Initial(outstanding),
                                                         Loss(id, shop, order, input, awb) + retry))
  {
    hide Run, MerchantReference, NormalizeAwb, Inv, BookedOnce, HonestRun, Loss;
    var steps := Loss(id, shop, order, input, awb);
    var lost := Run(Initial(outstanding), steps);
    LossShown(outstanding, id, shop, order, input, awb);
    if MerchantReference(shop, id, 2) == MerchantReference(shop, id, 1) {
      ReferenceInjective(shop, id, 2, shop, id, 1);
    }
    FailedButBookedDoubles(lost, id, 0, input, awb2);
    RunAppend(Initial(outstanding), steps,
              Dispatch(lost, id, input) + [CourierRules(MerchantReference(shop, id, 2), Booked(awb2))]);
  }
}
