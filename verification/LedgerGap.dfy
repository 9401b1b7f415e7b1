/** Runs at whose end the ledger holds a REVERSAL and no DEBIT, one for each of the ways LedgerDebits allows. */
module LedgerGap {
  import opened Wrappers
  import opened BookingSnapshot
  import opened ShipmentRows
  import opened BookingTransactions
  import opened RecordInvariant
  import opened BookingProtocol
  import opened BookingInvariant
  import opened BookingEvolution
  import opened BookingSafety
  import opened ExactlyOnce
  import opened Collectible
  import opened FinalityNeeded
  import opened RetryExactly
  import opened LedgerDebits

  /** The one shipment of the database, its first create on its way. */
  ghost predicate FirstSent(s: State, id: Uuid) {
    && s.cells.Keys == {id} && Inv(s)
    && var c := s.cells[id];
       && 0 in c.workers && c.workers[0].Sent? && |c.record.intents| == 1 && c.record.row.state == Submitted
       && c.record.row.collectible == 0 && !c.record.row.isTest && 0 !in c.cancels && Debit !in c.ledger
  }

  /** Why the debit is not there when the cancellation reverses. */
  datatype Why = WorkerDied | NoSubscription | NotYet

  /** What the worker does between its confirmation and the cancellation. */
  function Interlude(why: Why, id: Uuid): seq<Step> {
    match why
    case WorkerDied => [CrashWorker(id, 0)]
    case NoSubscription => [DebitByWorker(id, 0, false)]
    case NotYet => []
  }

  /** Confirmed, not debited, and the worker there or not. */
  ghost predicate Undebited(s: State, id: Uuid, pending: bool) {
    && s.cells.Keys == {id}
    && var c, row := s.cells[id], s.cells[id].record.row;
       && 0 !in c.cancels && Debit !in c.ledger && row.state == Confirmed && row.custody == PickupPending && !row.isTest
       && Pending(c) == pending
  }

  lemma Answers(s: State, id: Uuid, awb: string)
    requires s.cells.Keys == {id} && 0 in s.cells[id].workers && s.cells[id].workers[0].Sent?
    ensures var s' := Apply(s, CreateAnswered(id, 0, ReplyCreated(awb)));
            && s'.cells.Keys == {id} && s'.cells[id].record == s.cells[id].record
               && s'.cells[id].cancels == s.cells[id].cancels
            && s'.cells[id].ledger == s.cells[id].ledger
            && 0 in s'.cells[id].workers && s'.cells[id].workers[0] == Answered(Created(awb))
  {
    hide Seal;
  }

  lemma Confirms(s: State, id: Uuid, awb: string)
    requires s.cells.Keys == {id} && 0 in s.cells[id].workers && s.cells[id].workers[0] == Answered(Created(awb))
    requires |s.cells[id].record.intents| == 1 && s.cells[id].record.row.state == Submitted
    requires s.cells[id].record.row.collectible == 0
    requires !s.cells[id].record.row.isTest && 0 !in s.cells[id].cancels && Debit !in s.cells[id].ledger
    ensures var s' := Apply(s, SettleWorker(id, 0, false, CAUTIOUS));
            Undebited(s', id, true) && 0 in s'.cells[id].workers && s'.cells[id].workers[0] == AfterConfirm(false)
  {
    hide Seal, NormalizeAwb, SettleFailedTx, MarkUnknownTx, OtherCarrier;
    assert !Duplicate(s, id, NormalizeAwb(awb));
    hide Duplicate, DuplicateEver;
    var c' := Apply(s, SettleWorker(id, 0, false, CAUTIOUS)).cells[id];
    assert 0 in c'.workers && c'.workers[0] == AfterConfirm(false);
  }

  lemma AnswersThenConfirms(s: State, id: Uuid, awb: string)
    requires FirstSent(s, id)
    ensures var s' := Apply(Apply(s, CreateAnswered(id, 0, ReplyCreated(awb))), SettleWorker(id, 0, false, CAUTIOUS));
            Undebited(s', id, true) && 0 in s'.cells[id].workers && s'.cells[id].workers[0] == AfterConfirm(false)
  {
    hide Apply, Undebited, Inv;
    Answers(s, id, awb);
    Confirms(Apply(s, CreateAnswered(id, 0, ReplyCreated(awb))), id, awb);
  }

  lemma FirstIsInv(s: State, id: Uuid)
    requires FirstSent(s, id)
    ensures Inv(s)
  {
    hide Inv;
  }

  lemma AnswersAndConfirms(s: State, id: Uuid, awb: string)
    requires FirstSent(s, id)
    ensures var s' := Run(s, [CreateAnswered(id, 0, ReplyCreated(awb)), SettleWorker(id, 0, false, CAUTIOUS)]);
            Inv(s') && Undebited(s', id, true) && 0 in s'.cells[id].workers
                && s'.cells[id].workers[0] == AfterConfirm(false)
  {
    hide FirstSent, Inv, Apply, Undebited, StateEvolves;
    var a, b := CreateAnswered(id, 0, ReplyCreated(awb)), SettleWorker(id, 0, false, CAUTIOUS);
    AnswersThenConfirms(s, id, awb);
    FirstIsInv(s, id);
    RunKeeps(s, [a, b]);
    RunSnoc(s, [], a);
    RunSnoc(s, [a], b);
    assert Run(s, []) == s && [] + [a] == [a] && [a] + [b] == [a, b];
  }

  lemma WorkerLeaves(s: State, id: Uuid, why: Why)
    requires Inv(s) && Undebited(s, id, true) && 0 in s.cells[id].workers
    requires s.cells[id].workers[0] == AfterConfirm(false)
    ensures Undebited(Run(s, Interlude(why, id)), id, why == NotYet)
  {
    hide Inv, Apply, Pending;
    if why != NotYet {
      var step := if why == WorkerDied then CrashWorker(id, 0) else DebitByWorker(id, 0, false);
      RunSnoc(s, [], step);
      assert [] + [step] == Interlude(why, id) && Run(s, []) == s;
      InvCell(s, id);
      WorkerGone(s, id, step);
    }
  }

  /** The worker is dropped, nothing else changes. */
  lemma Drops(s: State, id: Uuid, step: Step)
    requires id in s.cells && 0 in s.cells[id].workers && s.cells[id].workers[0] == AfterConfirm(false)
    requires step == CrashWorker(id, 0) || step == DebitByWorker(id, 0, false)
    ensures Apply(s, step).cells == s.cells[id := DropWorker(s.cells[id], 0)]
  {
    hide Seal;
  }

  lemma WorkerGone(s: State, id: Uuid, step: Step)
    requires Undebited(s, id, true) && 0 in s.cells[id].workers && s.cells[id].workers[0] == AfterConfirm(false)
    requires CellInv(id, s.cells[id]) && (step == CrashWorker(id, 0) || step == DebitByWorker(id, 0, false))
    ensures Undebited(Apply(s, step), id, false)
  {
    hide CellInv, Apply, Pending;
    OnePending(id, s.cells[id]);
    NoneLeft(DropWorker(s.cells[id], 0));
    Drops(s, id, step);
  }

  lemma Reverses(s: State, id: Uuid)
    requires s.cells.Keys == {id} && 0 in s.cells[id].cancels && s.cells[id].cancels[0] == AfterVoid(false)
    requires Debit !in s.cells[id].ledger
    ensures var s' := Apply(s, ReverseLedger(id, 0, true));
            && s'.cells.Keys == {id} && Reversal in s'.cells[id].ledger && Debit !in s'.cells[id].ledger
            && s'.cells[id].workers == s.cells[id].workers && s'.cells[id].resolver == s.cells[id].resolver
  {
    hide Seal;
  }

  lemma CancelsAndReverses(s: State, id: Uuid, pending: bool)
    requires Undebited(s, id, pending)
    ensures var s' := Run(s, Cancellation(id, 0) + [ReverseLedger(id, 0, true)]);
            s'.cells.Keys == {id} && Reversal in s'.cells[id].ledger && Debit !in s'.cells[id].ledger
                && Pending(s'.cells[id]) == pending
  {
    hide Apply, Cancellation;
    Cancels(s, id, 0);
    var voided := Run(s, Cancellation(id, 0));
    RunSnoc(s, Cancellation(id, 0), ReverseLedger(id, 0, true));
    hide Run, HonestRun;
    Reverses(voided, id);
    SamePending(s.cells[id], Apply(voided, ReverseLedger(id, 0, true)).cells[id]);
  }

  lemma SentIsFirst(s: State, sent: State, id: Uuid, input: BookingInput)
    requires s.cells.Keys == {id} && s.cells[id].record.intents == [] && s.cells[id].cancels == map[]
    requires OnItsWay(s, sent, id, input) && Inv(sent) && input.paymentMode != Cod
    ensures FirstSent(sent, id)
  {
    hide IntentsInv, WorkersInv, ResolverOk, SentInv, CancelInv, CountersInv;
    assert CellInv(id, sent.cells[id]);
  }

  lemma DispatchSends(s: State, id: Uuid, input: BookingInput)
    requires Inv(s) && s.cells.Keys == {id} && CanQueueAgain(s, id) && input.paymentMode != Cod
    requires s.cells[id].record.intents == [] && s.cells[id].cancels == map[]
    ensures FirstSent(Run(s, Dispatch(s, id, input)), id)
  {
    hide Inv, Run, Dispatch, HonestRun, OnItsWay;
    Dispatches(s, id, input);
    RunKeeps(s, Dispatch(s, id, input));
    SentIsFirst(s, Run(s, Dispatch(s, id, input)), id, input);
  }

  lemma FirstDispatch(outstanding: map<Uuid, nat>, id: Uuid, shop: Uuid, order: Uuid,
                      input: BookingInput) returns (steps: seq<Step>)
    requires input.paymentMode != Cod
    ensures FirstSent(Run(Initial(outstanding), steps), id)
  {
    var first, created := Initial(outstanding), [InsertShipment(id, shop, order, "")];
    InitialInv(outstanding);
    hide Inv, Run, Dispatch, FirstSent;
    Inserts(outstanding, id, shop, order);
    var s := Run(first, created);
    RunKeeps(first, created);
    DispatchSends(s, id, input);
    RunAppend(first, created, Dispatch(s, id, input));
    steps := created + Dispatch(s, id, input);
  }

  /** All three ways occur: a live shipment of a reachable state has a REVERSAL and no DEBIT, and its debit is
      still pending, so that it will follow the reversal, or was dropped. */
  lemma ReversalWithoutDebit(outstanding: map<Uuid, nat>, why: Why, id: Uuid, shop: Uuid, order: Uuid,
                             input: BookingInput, awb: string)
    requires input.paymentMode != Cod
    ensures exists s :: Reachable(s) && id in s.cells && Reversal in s.cells[id].ledger && Debit !in s.cells[id].ledger
                        && (Pending(s.cells[id]) <==> why == NotYet)
  {
    hide FirstSent, Run, Undebited, Interlude, Cancellation, Pending, Inv;
    var first := Initial(outstanding);
    var confirm := [CreateAnswered(id, 0, ReplyCreated(awb)), SettleWorker(id, 0, false, CAUTIOUS)];
    var cancel := Cancellation(id, 0) + [ReverseLedger(id, 0, true)];
    var sent := FirstDispatch(outstanding, id, shop, order, input);
    AnswersAndConfirms(Run(first, sent), id, awb);
    RunAppend(first, sent, confirm);
    WorkerLeaves(Run(first, sent + confirm), id, why);
    RunAppend(first, sent + confirm, Interlude(why, id));
    CancelsAndReverses(Run(first, sent + confirm + Interlude(why, id)), id, why == NotYet);
    RunAppend(first, sent + confirm + Interlude(why, id), cancel);
    assert Reachable(Run(first, sent + confirm + Interlude(why, id) + cancel));
  }
}
