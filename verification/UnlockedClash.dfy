/** Why a confirmation locks the AWB: two that have both read "no duplicate" before either commits store the
    same AWB twice, from a state the protocol reaches. */
module UnlockedClash {
  import opened Wrappers
  import opened BookingSnapshot
  import opened ShipmentRows
  import opened BookingTransactions
  import opened RecordInvariant
  import opened BookingProtocol
  import opened BookingInvariant
  import opened BookingSafety
  import opened ExactlyOnce
  import opened Collectible
  import opened FinalityNeeded
  import opened RetryExactly

  /** A worker is about to confirm this shipment. */
  ghost predicate AboutToConfirm(s: State, id: Uuid, k: nat, awb: string) {
    && id in s.cells && k in s.cells[id].workers && s.cells[id].workers[k] == Answered(Created(awb))
    && k < |s.cells[id].record.intents| && s.cells[id].record.row.state == Submitted
    && s.cells[id].record.row.collectible == 0 && !s.cells[id].record.row.isTest
  }

  /** The confirmation of a worker that has read no duplicate. */
  function Confirmation(id: Uuid, k: nat): Step {
    SettleWorker(id, k, false, CAUTIOUS)
  }

  lemma ConfirmsUnlocked(s: State, id: Uuid, k: nat, awb: string)
    requires AboutToConfirm(s, id, k, awb)
    ensures var row, s' := s.cells[id].record.row, Effect(s, Confirmation(id, k));
            && s'.cells == s.cells[id := s'.cells[id]]
            && s'.cells[id].record.row
               == row.(state := Confirmed, awb := Some(NormalizeAwb(awb)), custody := PickupPending)
  {
    hide NormalizeAwb, Seal, SettleFailedTx, MarkUnknownTx;
  }

  /** Both commit on what they read before either did. */
  lemma BothCommit(s: State, a: Uuid, b: Uuid, awb: string)
    requires AboutToConfirm(s, a, 0, awb) && AboutToConfirm(s, b, 0, awb) && a != b
    requires s.cells[a].record.row.shop == s.cells[b].record.row.shop
    requires s.cells[a].record.row.account.Some? && s.cells[a].record.row.account == s.cells[b].record.row.account
    ensures !AwbUnique(Effect(Effect(s, Confirmation(a, 0)), Confirmation(b, 0)))
  {
    ConfirmsUnlocked(s, a, 0, awb);
    ConfirmsUnlocked(Effect(s, Confirmation(a, 0)), b, 0, awb);
    hide Effect, NormalizeAwb;
    var s' := Effect(Effect(s, Confirmation(a, 0)), Confirmation(b, 0));
    assert SameAwb(s'.cells[a].record.row, s'.cells[b].record.row, s'.cells[a].record.row.awb.value);
  }

  // ---- A state in which both are about to ----------------------------------------------------------------------

  /** Two shipments of one shop and account, the creates of both on their way. */
  ghost predicate BothSent(s: State, a: Uuid, b: Uuid, shop: Uuid, input: BookingInput) {
    && s.cells.Keys == {a, b}
    && forall id :: id in {a, b} ==>
         var c := s.cells[id];
         && 0 in c.workers && c.workers[0].Sent? && |c.record.intents| == 1
         && c.record.row.state == Submitted && c.record.row.collectible == 0
         && c.record.row.shop == shop && c.record.row.account == Some(input.accountId)
  }

  lemma SecondSent(s: State, s': State, a: Uuid, b: Uuid, shop: Uuid, order: Uuid, input: BookingInput)
    requires a != b && input.paymentMode != Cod && s.cells.Keys == {a, b} && s.cells[b] == NewCell(shop, order, "")
    requires OnItsWay(s, s', b, input)
    requires var c := s.cells[a];
             && 0 in c.workers && c.workers[0].Sent? && |c.record.intents| == 1
             && c.record.row.state == Submitted && c.record.row.collectible == 0
             && c.record.row.shop == shop && c.record.row.account == Some(input.accountId)
    ensures BothSent(s', a, b, shop, input)
  {
    hide MerchantReference;
  }

  lemma FirstSent(s: State, a: Uuid, shop: Uuid, order: Uuid, input: BookingInput)
    requires input.paymentMode != Cod && Inv(s) && s.cells == map[a := NewCell(shop, order, "")]
    ensures CanQueueAgain(s, a)
    ensures var s' := Run(s, Dispatch(s, a, input));
            && Inv(s') && s'.cells.Keys == {a}
            && var c := s'.cells[a];
               && 0 in c.workers && c.workers[0].Sent? && |c.record.intents| == 1
               && c.record.row.state == Submitted && c.record.row.collectible == 0
               && c.record.row.shop == shop && c.record.row.account == Some(input.accountId)
  {
    hide Inv, Run, HonestRun, Dispatch, OtherCarrier, MerchantReference, StateEvolves;
    Dispatches(s, a, input);
    RunKeeps(s, Dispatch(s, a, input));
  }

  lemma BothSentReached(outstanding: map<Uuid, nat>, a: Uuid, b: Uuid, shop: Uuid, order: Uuid, input: BookingInput)
    returns (steps: seq<Step>)
    requires a != b && input.paymentMode != Cod
    ensures var s := Run(Initial(outstanding), steps); Inv(s) && BothSent(s, a, b, shop, input)
  {
    hide Inv, Run, HonestRun, Dispatch, OtherCarrier, StateEvolves, OnItsWay, BothSent;
    var first := Initial(outstanding);
    var insertA, insertB := [InsertShipment(a, shop, order, "")], [InsertShipment(b, shop, order, "")];
    InitialInv(outstanding);
    Inserts(outstanding, a, shop, order);
    RunKeeps(first, insertA);
    var s1 := Run(first, insertA);
    var sendA := Dispatch(s1, a, input);
    FirstSent(s1, a, shop, order, input);
    RunAppend(first, insertA, sendA);
    var s2 := Run(s1, sendA);
    InsertsFresh(s2, b, shop, order);
    RunKeeps(s2, insertB);
    var s3 := Run(s2, insertB);
    RunAppend(first, insertA + sendA, insertB);
    var sendB := Dispatch(s3, b, input);
    Dispatches(s3, b, input);
    RunKeeps(s3, sendB);
    SecondSent(s3, Run(s3, sendB), a, b, shop, order, input);
    steps := insertA + sendA + insertB + sendB;
    RunAppend(first, insertA + sendA + insertB, sendB);
  }

  /** Both workers are answered with the same AWB. */
  ghost predicate BothAnswered(s: State, a: Uuid, b: Uuid, awb: string) {
    && s.cells.Keys == {a, b} && AboutToConfirm(s, a, 0, awb) && AboutToConfirm(s, b, 0, awb)
    && s.cells[a].record.row.awb.None? && s.cells[b].record.row.awb.None?
    && s.cells[a].record.row.shop == s.cells[b].record.row.shop
    && s.cells[a].record.row.account.Some? && s.cells[a].record.row.account == s.cells[b].record.row.account
  }

  lemma SubmittedRow(s: State, id: Uuid)
    requires Inv(s) && id in s.cells && s.cells[id].record.row.state == Submitted
    ensures s.cells[id].record.row.awb.None? && !s.cells[id].record.row.isTest
  {
    InvCell(s, id);
    hide Inv, IntentsInv, WorkersInv, ResolverOk, SentInv, CancelInv, LedgerInv, CountersInv;
  }

  lemma BothToldSo(s: State, s1: State, s2: State, a: Uuid, b: Uuid, shop: Uuid, input: BookingInput, awb: string)
    requires a != b && BothSent(s, a, b, shop, input) && OnlyCell(s, s1, a) && OnlyCell(s1, s2, b)
    requires forall id :: id in {a, b} ==> s.cells[id].record.row.awb.None? && !s.cells[id].record.row.isTest
    requires s1.cells[a].record == s.cells[a].record && 0 in s1.cells[a].workers
    requires s1.cells[a].workers[0] == Answered(Created(awb))
    requires s2.cells[b].record == s1.cells[b].record && 0 in s2.cells[b].workers
    requires s2.cells[b].workers[0] == Answered(Created(awb))
    ensures BothAnswered(s2, a, b, awb)
  {
    assert a in {a, b} && b in {a, b};
  }

  lemma OthersWait(s: State, a: Uuid, b: Uuid, shop: Uuid, input: BookingInput)
    requires BothSent(s, a, b, shop, input)
    ensures forall id :: id in {a, b} ==>
              id in s.cells && s.cells[id].record.row.state == Submitted
              && 0 in s.cells[id].workers && s.cells[id].workers[0].Sent?
  {
  }

  lemma BothHear(s: State, a: Uuid, b: Uuid, shop: Uuid, input: BookingInput, awb: string)
    requires Inv(s) && a != b && BothSent(s, a, b, shop, input)
    ensures var steps := [CreateAnswered(a, 0, ReplyCreated(awb)), CreateAnswered(b, 0, ReplyCreated(awb))];
            BothAnswered(Run(s, steps), a, b, awb)
  {
    hide Inv, Apply, BothSent, BothAnswered;
    var hearA, hearB := CreateAnswered(a, 0, ReplyCreated(awb)), CreateAnswered(b, 0, ReplyCreated(awb));
    OthersWait(s, a, b, shop, input);
    assert a in {a, b} && b in {a, b};
    SubmittedRow(s, a);
    SubmittedRow(s, b);
    HearsCreated(s, a, 0, awb);
    HearsCreated(Apply(s, hearA), b, 0, awb);
    BothToldSo(s, Apply(s, hearA), Apply(Apply(s, hearA), hearB), a, b, shop, input, awb);
    RunSnoc(s, [], hearA);
    RunSnoc(s, [hearA], hearB);
    assert Run(s, []) == s && [] + [hearA] == [hearA] && [hearA] + [hearB] == [hearA, hearB];
  }

  lemma NoDuplicateYet(s: State, a: Uuid, b: Uuid, awb: string, id: Uuid)
    requires BothAnswered(s, a, b, awb) && id in {a, b}
    ensures ReadsOk(s, Confirmation(id, 0))
  {
    hide NormalizeAwb, OtherCarrier;
    assert !Duplicate(s, id, NormalizeAwb(awb));
  }

  /** A reachable state in which two confirmations read "no duplicate", each truly, and whose two commits store
      one AWB on two active shipments of one shop and account. */
  lemma UnlockedReadsClash(outstanding: map<Uuid, nat>, a: Uuid, b: Uuid, shop: Uuid, order: Uuid, input: BookingInput,
                           awb: string)
    requires a != b && input.paymentMode != Cod
    ensures exists s ::
              && Reachable(s) && ReadsOk(s, Confirmation(a, 0)) && ReadsOk(s, Confirmation(b, 0))
              && !AwbUnique(Effect(Effect(s, Confirmation(a, 0)), Confirmation(b, 0)))
  {
    hide Inv, Run, BothSent, Effect, ReadsOk, AwbUnique, Confirmation;
    var sent := BothSentReached(outstanding, a, b, shop, order, input);
    var hear := [CreateAnswered(a, 0, ReplyCreated(awb)), CreateAnswered(b, 0, ReplyCreated(awb))];
    BothHear(Run(Initial(outstanding), sent), a, b, shop, input, awb);
    RunAppend(Initial(outstanding), sent, hear);
    var s := Run(Initial(outstanding), sent + hear);
    assert Reachable(s);
    NoDuplicateYet(s, a, b, awb, a);
    NoDuplicateYet(s, a, b, awb, b);
    BothCommit(s, a, b, awb);
  }
}
