/** A failed login is settled FAILED before any create is posted. If none had been posted before, queueing the
    shipment again is safe. If one had, and the worker died before its answer, it is not; the database shows
    the same rows. */
module LoginFailures {
  import opened Wrappers
  import opened BookingSnapshot
  import opened ShipmentRows
  import opened BookingTransactions
  import opened RecordInvariant
  import opened BookingProtocol
  import opened BookingInvariant
  import opened BookingSafety
  import opened ExactlyOnce
  import opened Collectible
  import opened SettledAttempts
  import opened FinalityNeeded
  import opened RetrySafety
  import opened RetryExactly

  /** The one shipment of the database is claimed; its worker has yet to ask for a token. */
  ghost predicate AboutToSend(s: State, id: Uuid, r: Record) {
    && s.cells.Keys == {id} && s.cells[id].record == r
    && |r.intents| == 1 && r.intents[0].outcome == InFlight && r.row.state == Submitted && r.row.collectible == 0
       && r.row.snapshot.Some?
    && 0 in s.cells[id].workers && s.cells[id].workers[0].Ready?
       && s.cells[id].workers[0].request.reference == r.intents[0].reference
    && 0 !in s.cells[id].memo
  }

  function FailLogin(id: Uuid): seq<Step> {
    [CreateAnswered(id, 0, ReplyAuthError), SettleWorker(id, 0, false, CAUTIOUS)]
  }

  function FailedRecord(r: Record): Record
    requires |r.intents| == 1
  {
    SetOutcome(r, 0, IntentFailed).(row := r.row.(state := Failed))
  }

  lemma LoginFails(s: State, id: Uuid, r: Record)
    requires AboutToSend(s, id, r)
    ensures var s' := Apply(s, CreateAnswered(id, 0, ReplyAuthError));
            && OnlyCell(s, s', id) && s'.cells[id].record == r && 0 in s'.cells[id].workers
               && s'.cells[id].workers[0] == Answered(Rejected)
    ensures Truthful(s, CreateAnswered(id, 0, ReplyAuthError)) <==> !LiveReference(WordOf(s), r.intents[0].reference)
  {
    hide Seal;
  }

  lemma SettlesLogin(s: State, id: Uuid, r: Record)
    requires s.cells.Keys == {id} && s.cells[id].record == r && |r.intents| == 1 && r.row.state == Submitted
    requires r.row.collectible == 0
    requires 0 in s.cells[id].workers && s.cells[id].workers[0] == Answered(Rejected)
    ensures var s' := Apply(s, SettleWorker(id, 0, false, CAUTIOUS));
            OnlyCell(s, s', id) && s'.cells[id].record == FailedRecord(r)
  {
    hide Seal, Duplicate, DuplicateEver, OtherCarrier, ConfirmTx, MarkUnknownTx;
  }

  /** The login fails and the job is settled; that is honest exactly if the attempt is not live. */
  lemma FailsLogin(s: State, id: Uuid, r: Record)
    requires AboutToSend(s, id, r)
    ensures var s' := Run(s, FailLogin(id));
            && s'.cells.Keys == {id} && s'.cells[id].record == FailedRecord(r) && s'.courier == s.courier
               && s'.requested == s.requested
    ensures !LiveReference(WordOf(s), r.intents[0].reference) ==> HonestRun(s, FailLogin(id))
  {
    var a, b := CreateAnswered(id, 0, ReplyAuthError), SettleWorker(id, 0, false, CAUTIOUS);
    LoginFails(s, id, r);
    SettlesLogin(Apply(s, a), id, r);
    assert FreshAwb(s, a) && FreshAwb(Apply(s, a), b) && Truthful(Apply(s, a), b);
    hide Apply, Truthful, FreshAwb, AboutToSend;
    RunSnoc(s, [], a);
    RunSnoc(s, [a], b);
    HonestSnoc(s, [], a);
    HonestSnoc(s, [a], b);
    assert Run(s, []) == s && [] + [a] == [a] && [a] + [b] == FailLogin(id);
  }

  // ---- Getting there ---------------------------------------------------------------------------------------------

  function Inserted(outstanding: map<Uuid, nat>, id: Uuid, shop: Uuid, order: Uuid): State {
    Initial(outstanding).(cells := map[id := NewCell(shop, order, "")])
  }

  lemma InsertedQueues(outstanding: map<Uuid, nat>, id: Uuid, shop: Uuid, order: Uuid)
    ensures Inv(Inserted(outstanding, id, shop, order)) && CanQueueAgain(Inserted(outstanding, id, shop, order), id)
  {
    hide Inv, Run, StateEvolves, OtherCarrier;
    InitialInv(outstanding);
    Inserts(outstanding, id, shop, order);
    RunKeeps(Initial(outstanding), [InsertShipment(id, shop, order, "")]);
  }

  /** From the empty database: insert, queue, claim. */
  function Claimed(outstanding: map<Uuid, nat>, id: Uuid, shop: Uuid, order: Uuid, input: BookingInput): State {
    var s := Inserted(outstanding, id, shop, order);
    var seen := SeenSerially(s, id);
    Apply(Apply(s, QueueBooking(id, input, seen)), ClaimJob(id, 0, seen))
  }

  lemma QueuedAndClaimed(s: State, queued: State, claimed: State, id: Uuid, input: BookingInput)
    requires s.cells.Keys == {id} && s.cells[id].record.intents == [] && input.paymentMode != Cod
    requires QueuedNext(s, queued, id, input) && |queued.cells[id].record.intents| > 0
    requires ClaimedNext(queued, claimed, id, 0)
    ensures id in claimed.cells && AboutToSend(claimed, id, claimed.cells[id].record)
    ensures claimed.courier == s.courier && claimed.requested == s.requested
  {
    hide OtherCarrier, MerchantReference, ClaimedCollectible;
    NothingBesideCarrier(input, Outstanding(s, s.cells[id].record.row.order), OtherCarrier(s, id));
  }

  lemma ClaimedReady(outstanding: map<Uuid, nat>, id: Uuid, shop: Uuid, order: Uuid, input: BookingInput)
    requires input.paymentMode != Cod
    ensures var s := Claimed(outstanding, id, shop, order, input);
            id in s.cells && AboutToSend(s, id, s.cells[id].record) && s.courier == map[] && s.requested == {}
  {
    hide Inv, Apply, CanQueueAgain, OtherCarrier, QueuedNext, ClaimedNext, AboutToSend, SeenSerially;
    var s := Inserted(outstanding, id, shop, order);
    InsertedQueues(outstanding, id, shop, order);
    QueuesAndClaims(s, id, input);
    var seen := SeenSerially(s, id);
    var queued := Apply(s, QueueBooking(id, input, seen));
    QueuedAndClaimed(s, queued, Apply(queued, ClaimJob(id, 0, seen)), id, input);
  }

  lemma ClaimedReached(outstanding: map<Uuid, nat>, id: Uuid, shop: Uuid, order: Uuid,
                       input: BookingInput) returns (steps: seq<Step>)
    ensures HonestRun(Initial(outstanding), steps)
    ensures Run(Initial(outstanding), steps) == Claimed(outstanding, id, shop, order, input)
  {
    var first, insert := Initial(outstanding), InsertShipment(id, shop, order, "");
    var s := Inserted(outstanding, id, shop, order);
    var queue, claim := QueueBooking(id, input, SeenSerially(s, id)), ClaimJob(id, 0, SeenSerially(s, id));
    Inserts(outstanding, id, shop, order);
    steps := [insert, queue, claim];
    RunSnoc(first, [], insert);
    assert Run(first, []) == first && [] + [insert] == [insert];
    hide Apply;
    RunThree(first, insert, queue, claim);
  }

  /** With its one shipment FAILED nothing is in flight, and the shipment can be queued again. */
  lemma FailedIsQuiescent(s: State, id: Uuid, r: Record)
    requires Inv(s) && s.cells.Keys == {id} && |r.intents| == 1 && r.row.collectible == 0
    requires s.cells[id].record == FailedRecord(r)
    ensures Quiescent(s) && CanRetry(s, id)
  {
    hide Inv, CellInv;
    InvCell(s, id);
    Idle(id, s.cells[id]);
    hide InsertOnce;
  }

  // ---- The two runs ------------------------------------------------------------------------------------------------

  /** The create leaves, the courier books it, the worker dies, and the job is delivered again. */
  function SendAndDie(id: Uuid, reference: string, awb: string): seq<Step> {
    [SendCreate(id, 0), CourierRules(reference, Booked(awb)), CrashWorker(id, 0)] + [ClaimJob(id, 0, CAUTIOUS)]
  }

  lemma Dies(s: State, id: Uuid, r: Record)
    requires s.cells.Keys == {id} && s.cells[id].record == r && 0 !in s.cells[id].memo
    ensures var s' := Apply(s, CrashWorker(id, 0));
            && OnlyCell(s, s', id) && s'.cells[id].record == r && 0 !in s'.cells[id].workers && 0 !in s'.cells[id].memo
  {
    hide Seal;
  }

  lemma ClaimsAgain(s: State, id: Uuid, r: Record)
    requires s.cells.Keys == {id} && s.cells[id].record == r && 0 !in s.cells[id].memo && 0 !in s.cells[id].workers
    requires |r.intents| == 1 && r.intents[0].outcome == InFlight && r.row.state == Submitted
    requires r.row.collectible == 0 && r.row.snapshot.Some?
    ensures var s' := Apply(s, ClaimJob(id, 0, CAUTIOUS));
            OnlyCell(s, s', id) && AboutToSend(s', id, r)
  {
    hide Seal, OtherCarrier, Duplicate, DuplicateEver;
  }

  lemma SendsAndDies(s: State, id: Uuid, r: Record, awb: string)
    requires AboutToSend(s, id, r) && r.intents[0].reference !in s.courier
    ensures var reference := r.intents[0].reference;
            var s' := Run(s, SendAndDie(id, reference, awb));
            AboutToSend(s', id, r) && s'.courier == s.courier[reference := Booked(awb)]
  {
    var reference := r.intents[0].reference;
    var a, b, c, d := SendCreate(id, 0), CourierRules(reference, Booked(awb)), CrashWorker(id, 0),
        ClaimJob(id, 0, CAUTIOUS);
    SentUnmemoised(s, id);
    var s1 := Apply(s, a);
    Books(s1, reference, awb);
    var s2 := s1.(courier := s1.courier[reference := Booked(awb)]);
    hide Apply;
    Dies(s2, id, r);
    ClaimsAgain(Apply(s2, c), id, r);
    RunThree(s, a, b, c);
    RunSnoc(s, [a, b, c], d);
  }

  lemma SentUnmemoised(s: State, id: Uuid)
    requires s.cells.Keys == {id} && 0 in s.cells[id].workers && s.cells[id].workers[0].Ready? && 0 !in s.cells[id].memo
    ensures var s' := Apply(s, SendCreate(id, 0));
            && s'.cells.Keys == {id} && s'.cells[id].record == s.cells[id].record
               && s'.cells[id].memo == s.cells[id].memo
            && s'.courier == s.courier && s.cells[id].workers[0].request.reference in s'.requested
  {
    hide Seal;
  }

  lemma SafeEnd(outstanding: map<Uuid, nat>, id: Uuid, shop: Uuid, order: Uuid, input: BookingInput) returns (s: State)
    requires input.paymentMode != Cod
    ensures HonestlyReachable(s) && Reachable(s) && s.cells.Keys == {id} && Quiescent(s) && CanRetry(s, id)
    ensures var r := s.cells[id].record; |r.intents| == 1 && r.row.state == Failed
                                         && r.intents[0].reference !in s.requested
    ensures var claimed := Claimed(outstanding, id, shop, order, input);
            id in claimed.cells && |claimed.cells[id].record.intents| == 1
                && s.cells[id].record == FailedRecord(claimed.cells[id].record)
  {
    hide HonestRun, Run, FailLogin, Claimed, Inv, Quiescent, CanRetry;
    var first, claimed := Initial(outstanding), Claimed(outstanding, id, shop, order, input);
    ClaimedReady(outstanding, id, shop, order, input);
    var steps := ClaimedReached(outstanding, id, shop, order, input);
    var r := claimed.cells[id].record;
    FailsLogin(claimed, id, r);
    RunAppend(first, steps, FailLogin(id));
    HonestAppend(first, steps, FailLogin(id));
    s := Run(first, steps + FailLogin(id));
    InitialInv(outstanding);
    RunKeeps(first, steps + FailLogin(id));
    FailedIsQuiescent(s, id, r);
  }

  lemma UnsafeEnd(outstanding: map<Uuid, nat>, id: Uuid, shop: Uuid, order: Uuid, input: BookingInput,
                  awb: string) returns (s: State)
    requires input.paymentMode != Cod
    ensures Reachable(s) && s.cells.Keys == {id} && Quiescent(s) && CanRetry(s, id) && Live(s, id, 0)
    ensures var claimed := Claimed(outstanding, id, shop, order, input);
            id in claimed.cells && |claimed.cells[id].record.intents| == 1
                && s.cells[id].record == FailedRecord(claimed.cells[id].record)
  {
    hide HonestRun, Run, FailLogin, Claimed, Inv, Quiescent, CanRetry, SendAndDie;
    var first, claimed := Initial(outstanding), Claimed(outstanding, id, shop, order, input);
    ClaimedReady(outstanding, id, shop, order, input);
    var steps := ClaimedReached(outstanding, id, shop, order, input);
    var r := claimed.cells[id].record;
    var sent := SendAndDie(id, r.intents[0].reference, awb);
    SendsAndDies(claimed, id, r, awb);
    FailsLogin(Run(claimed, sent), id, r);
    RunAppend(first, steps, sent);
    RunAppend(first, steps + sent, FailLogin(id));
    s := Run(first, steps + sent + FailLogin(id));
    InitialInv(outstanding);
    RunKeeps(first, steps + sent + FailLogin(id));
    FailedIsQuiescent(s, id, r);
  }

  /** An attempt that failed at the login, with no create sent, is safe to retry. The same failure on a job that
      was delivered again is not, if the create had left before; and the two databases hold the same rows. */
  lemma SameRowsOtherFate(outstanding: map<Uuid, nat>, id: Uuid, unused: Uuid, shop: Uuid, order: Uuid,
                          input: BookingInput, awb: string)
    requires input.paymentMode != Cod && unused != id
    ensures exists safe: State, unsafe: State ::
              && Reachable(safe) && Quiescent(safe) && CanRetry(safe, id)
                 && safe.cells.Keys == unsafe.cells.Keys == {id}
              && Reachable(unsafe) && Quiescent(unsafe) && CanRetry(unsafe, id)
              && safe.cells[id].record == unsafe.cells[id].record && safe.cells[id].record.row.state == Failed
              && |safe.cells[id].record.intents| == 1
              && safe.cells[id].record.intents[0].reference !in safe.requested
              && AlwaysOnce(safe) && !AlwaysOnce(unsafe)
  {
    hide Reachable, HonestlyReachable, Quiescent, CanRetry, AlwaysOnce, Claimed, SafeToRetry, AwbsIssued;
    var safe := SafeEnd(outstanding, id, shop, order, input);
    HonestIsSafe(safe);
    RetryExactly.RetryExactly(safe, unused);
    var unsafe := UnsafeEnd(outstanding, id, shop, order, input, awb);
    RetryExactly.RetryExactly(unsafe, unused);
    assert !SafeToRetry(unsafe) by { LiveIsUnsafe(unsafe, id, 0); }
  }

  lemma LiveIsUnsafe(s: State, id: Uuid, k: nat)
    requires CanRetry(s, id) && Live(s, id, k)
    ensures !SafeToRetry(s)
  {
    hide CanRetry, Live;
  }
}
