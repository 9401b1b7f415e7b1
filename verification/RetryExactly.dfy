/** The converse of RetrySafety: where one of its conditions fails, an honest continuation books a shipment
    twice. Together they say exactly when failed shipments may be queued again. */
module RetryExactly {
  import opened Wrappers
  import opened BookingSnapshot
  import opened ShipmentRows
  import opened BookingTransactions
  import opened RecordInvariant
  import opened BookingProtocol
  import opened BookingInvariant
  import opened BookingEvolution
  import opened BookingSafety
  import opened ExactlyOnce
  import opened Collectible
  import opened SettledAttempts
  import opened FinalityNeeded
  import opened RetrySafety

  /** Every honest continuation books every shipment at most once. */
  ghost predicate AlwaysOnce(s: State) {
    forall steps :: HonestRun(s, steps) ==> AtMostOnce(Run(s, steps))
  }

  lemma NotAlways(s: State)
    requires Doubles(s)
    ensures !AlwaysOnce(s)
  {
  }

  /** Some honest continuation books a shipment twice. */
  ghost predicate Doubles(s: State) {
    exists steps :: HonestRun(s, steps) && !AtMostOnce(Run(s, steps))
  }

  lemma {:induction false} HonestAppend(s: State, a: seq<Step>, b: seq<Step>)
    ensures HonestRun(s, a + b) <==> HonestRun(s, a) && HonestRun(Run(s, a), b)
    decreases |b|
  {
    hide Run, Truthful, FreshAwb;
    if b == [] {
      assert a + b == a;
    } else {
      var front, last := b[..|b| - 1], b[|b| - 1];
      HonestAppend(s, a, front);
      RunAppend(s, a, front);
      assert a + b == (a + front) + [last] && b == front + [last];
      HonestSnoc(s, a + front, last);
      HonestSnoc(Run(s, a), front, last);
    }
  }

  lemma DoublesLater(s: State, steps: seq<Step>)
    requires HonestRun(s, steps) && Doubles(Run(s, steps))
    ensures Doubles(s)
  {
    hide HonestRun, Run, AtMostOnce;
    var rest :| HonestRun(Run(s, steps), rest) && !AtMostOnce(Run(Run(s, steps), rest));
    HonestAppend(s, steps, rest);
    RunAppend(s, steps, rest);
  }

  // ---- New AWBs -----------------------------------------------------------------------------------------------

  function Ones(n: nat): string {
    if n == 0 then "" else "1" + Ones(n - 1)
  }

  lemma {:induction false} OnesNormal(n: nat)
    ensures NormalizeAwb(Ones(n)) == Ones(n) && |Ones(n)| == n
  {
    if n > 0 {
      OnesNormal(n - 1);
      assert Ones(n)[1..] == Ones(n - 1) && !Stripped('1') && Upper('1') == '1';
    }
  }

  lemma {:induction false} LongerThanAll(courier: Courier) returns (n: nat)
    ensures forall reference :: IsBooked(courier, reference) ==> |NormalizeAwb(courier[reference].awb)| < n
    decreases |courier|
  {
    hide NormalizeAwb;
    n := 0;
    if courier != map[] {
      var reference :| reference in courier;
      var rest := courier - {reference};
      assert courier.Keys == rest.Keys + {reference};
      n := LongerThanAll(rest);
      assert forall other :: IsBooked(courier, other) && other != reference ==>
               IsBooked(rest, other) && rest[other] == courier[other];
      if courier[reference].Booked? {
        n := n + |NormalizeAwb(courier[reference].awb)| + 1;
      }
    }
  }

  lemma NewAwb(courier: Courier) returns (awb: string)
    ensures FreshIn(courier, awb)
  {
    var n := LongerThanAll(courier);
    OnesNormal(n);
    awb := Ones(n);
    hide NormalizeAwb;
  }

  // ---- Two live attempts --------------------------------------------------------------------------------------

  /** Nothing but the ruling on `reference` is new. */
  ghost predicate OnlyRuled(s: State, s': State, reference: string) {
    && s' == s.(courier := s'.courier) && CourierExtends(s.courier, s'.courier)
    && forall other :: other != reference ==> (other in s'.courier <==> other in s.courier)
  }

  lemma BooksNow(s: State, reference: string, awb: string)
    requires reference in s.requested && reference !in s.courier && FreshIn(s.courier, awb)
    ensures var steps := [CourierRules(reference, Booked(awb))];
            HonestRun(s, steps) && Run(s, steps) == s.(courier := s.courier[reference := Booked(awb)])
  {
    hide NormalizeAwb;
    var step := CourierRules(reference, Booked(awb));
    assert Truthful(s, step) && FreshAwb(s, step);
    Books(s, reference, awb);
    hide Apply, Truthful, FreshAwb;
    RunSnoc(s, [], step);
    HonestSnoc(s, [], step);
    assert [] + [step] == [step] && Run(s, []) == s;
  }

  /** The courier may book what is live. */
  lemma BooksLive(s: State, id: Uuid, k: nat) returns (steps: seq<Step>)
    requires Live(s, id, k)
    ensures HonestRun(s, steps) && BookedAttempt(Run(s, steps), id, k)
    ensures OnlyRuled(s, Run(s, steps), s.cells[id].record.intents[k].reference)
  {
    var reference := s.cells[id].record.intents[k].reference;
    if reference in s.courier {
      steps := [];
    } else {
      hide FreshIn, Run, HonestRun;
      var awb := NewAwb(s.courier);
      steps := [CourierRules(reference, Booked(awb))];
      BooksNow(s, reference, awb);
    }
  }

  lemma StillLive(s: State, s': State, id: Uuid, i: nat, j: nat)
    requires CellsInv(s) && Live(s, id, j) && i < |s.cells[id].record.intents| && i != j
    requires OnlyRuled(s, s', s.cells[id].record.intents[i].reference)
    ensures Live(s', id, j)
  {
    hide CellsInv;
    if s.cells[id].record.intents[i].reference == s.cells[id].record.intents[j].reference {
      ReferencesDistinct(s, id, i, id, j);
    }
  }

  lemma TwoLiveDouble(s: State, id: Uuid, i: nat, j: nat)
    requires CellsInv(s) && Live(s, id, i) && Live(s, id, j) && i != j
    ensures Doubles(s)
  {
    hide CellsInv, HonestRun, Run, LiveReference;
    var first := BooksLive(s, id, i);
    var s1 := Run(s, first);
    StillLive(s, s1, id, i, j);
    var second := BooksLive(s1, id, j);
    assert BookedAttempt(Run(s1, second), id, i) && BookedAttempt(Run(s1, second), id, j);
    assert Doubles(s1);
    DoublesLater(s, first);
  }

  // ---- A live attempt of a shipment that can be queued again --------------------------------------------------

  lemma NextIsNew(s: State, s': State, id: Uuid, input: BookingInput)
    requires CellsInv(s') && Traced(s) && StateEvolves(s, s') && id in s.cells && OnItsWay(s, s', id, input)
    ensures NextReference(s, id) !in s.courier
  {
    hide CellsInv, CellEvolves, MerchantReference;
    var reference, n := NextReference(s, id), |s.cells[id].record.intents|;
    if reference in s.courier {
      assert reference in s.requested;
      var id': Uuid, k: nat :| Attempt(s, id', k, reference);
      AttemptLasts(s, s', id', k, reference);
      ReferencesDistinct(s', id, n, id', k);
    }
  }

  lemma RetryDoubles(s: State, id: Uuid, k: nat, input: BookingInput)
    requires Inv(s) && Traced(s) && CanQueueAgain(s, id) && Live(s, id, k)
    ensures Doubles(s)
  {
    hide CellInv, HonestRun, Run, Dispatch, CanQueueAgain, MerchantReference, AwbUnique, SingleCarrier, CellEvolves;
    hide Traced;
    var steps, n := Dispatch(s, id, input), |s.cells[id].record.intents|;
    Dispatches(s, id, input);
    RunKeeps(s, steps);
    var s' := Run(s, steps);
    NextIsNew(s, s', id, input);
    assert Live(s', id, k) && Live(s', id, n);
    TwoLiveDouble(s', id, k, n);
    DoublesLater(s, steps);
  }

  // ---- Freeing the order's carrier ----------------------------------------------------------------------------

  lemma {:induction false} NewCall(calls: set<nat>) returns (call: nat)
    ensures forall other :: other in calls ==> other < call
    decreases |calls|
  {
    call := 0;
    if calls != {} {
      var other :| other in calls;
      call := NewCall(calls - {other});
      assert forall x :: x in calls ==> x == other || x in calls - {other};
      if call <= other {
        call := other + 1;
      }
    }
  }

  /** The order's carrier, whose cancellation can be requested. */
  lemma TheCarrier(s: State, id: Uuid) returns (carrier: Uuid)
    requires Inv(s) && id in s.cells && OtherCarrier(s, id) && !Stuck(s, id) && s.cells[id].record.row.collectible > 0
    ensures carrier in s.cells && carrier != id && s.cells[carrier].record.row.Carrier()
    ensures s.cells[carrier].record.row.order == s.cells[id].record.row.order
    ensures s.cells[carrier].record.row.state == Confirmed
    ensures s.cells[carrier].record.row.custody in {PickupPending, PickupScheduled}
  {
    carrier :| carrier in s.cells && carrier != id
               && s.cells[carrier].record.row.order == s.cells[id].record.row.order
                  && s.cells[carrier].record.row.Carrier();
    CarrierConfirmed(s, carrier);
    hide Inv;
    assert !Settled(s.cells[carrier].record.row);
  }

  lemma CarrierConfirmed(s: State, carrier: Uuid)
    requires Inv(s) && carrier in s.cells && s.cells[carrier].record.row.Carrier()
    ensures s.cells[carrier].record.row.state == Confirmed
  {
    hide IntentsInv, WorkersInv, ResolverOk, SentInv, CancelInv, LedgerInv, CountersInv, AwbUnique, SingleCarrier;
    assert CellInv(carrier, s.cells[carrier]);
  }

  function Cancellation(carrier: Uuid, call: nat): seq<Step> {
    [RequestCancel(carrier, call), CancelAnswered(carrier, call, CancelAccepted), SettleCancel(carrier, call, CAUTIOUS)]
  }

  lemma Cancels(s: State, carrier: Uuid, call: nat)
    requires carrier in s.cells && call !in s.cells[carrier].cancels
    requires s.cells[carrier].record.row.state == Confirmed
    requires s.cells[carrier].record.row.custody in {PickupPending, PickupScheduled}
    ensures HonestRun(s, Cancellation(carrier, call))
    ensures var c, s' := s.cells[carrier], Run(s, Cancellation(carrier, call));
            && OnlyCell(s, s', carrier)
            && s'.cells[carrier] == c.(record := c.record.(row := c.record.row.(custody := Cancelled, state := Void,
                  collectible := 0)),
                                       cancels := c.cancels[call := AfterVoid(c.record.row.isTest)])
  {
    hide Apply;
    var steps, c := Cancellation(carrier, call), s.cells[carrier];
    RunThree(s, steps[0], steps[1], steps[2]);
    assert steps == [steps[0], steps[1], steps[2]];
    hide Run, HonestRun;
    Requests(s, carrier, call);
    var s1 := Apply(s, steps[0]);
    Accepts(s1, carrier, call);
    var s2 := Apply(s1, steps[1]);
    hide Cancellation;
    CancelsOn(s, s1, s2, carrier, call);
  }

  lemma CancelsOn(s: State, s1: State, s2: State, carrier: Uuid, call: nat)
    requires carrier in s.cells && call !in s.cells[carrier].cancels && OnlyCell(s, s1, carrier)
    requires OnlyCell(s1, s2, carrier)
    requires var c := s.cells[carrier];
             s1.cells[carrier] == c.(record := c.record.(row := c.record.row.(custody := CancelRequested)),
                                     cancels := c.cancels[call := Requested(c.record.row.custody, c.record.row.isTest)])
    requires var c1 := s1.cells[carrier];
             s2.cells[carrier] == c1.(cancels := c1.cancels[call := Replied(CancelAccepted, c1.cancels[call].previous,
                   c1.cancels[call].test)])
    ensures var c, s' := s.cells[carrier], Apply(s2, SettleCancel(carrier, call, CAUTIOUS));
            && OnlyCell(s, s', carrier)
            && s'.cells[carrier] == c.(record := c.record.(row := c.record.row.(custody := Cancelled, state := Void,
                  collectible := 0)),
                                       cancels := c.cancels[call := AfterVoid(c.record.row.isTest)])
  {
    hide Apply;
    Voids(s2, carrier, call);
    var c := s.cells[carrier];
    assert s2.cells[carrier].cancels[call := AfterVoid(c.record.row.isTest)]
           == c.cancels[call := AfterVoid(c.record.row.isTest)];
  }

  /** Cancelling the carrier leaves the order without one. */
  lemma Frees(s: State, id: Uuid) returns (steps: seq<Step>)
    requires Inv(s) && id in s.cells && OtherCarrier(s, id) && !Stuck(s, id) && s.cells[id].record.row.collectible > 0
    ensures HonestRun(s, steps) && id in Run(s, steps).cells && !OtherCarrier(Run(s, steps), id)
    ensures Run(s, steps).cells[id] == s.cells[id] && Run(s, steps).courier == s.courier
    ensures Run(s, steps).requested == s.requested
  {
    hide HonestRun, Run, CellsInv, AwbUnique, Stuck, Cancellation;
    var carrier := TheCarrier(s, id);
    var call := NewCall(s.cells[carrier].cancels.Keys);
    assert call !in s.cells[carrier].cancels;
    steps := Cancellation(carrier, call);
    Cancels(s, carrier, call);
    var s' := Run(s, steps);
    forall other | other in s.cells && other != id && s.cells[other].record.row.order == s.cells[id].record.row.order
      ensures !s'.cells[other].record.row.Carrier()
    {
      assert other != carrier ==> s'.cells[other] == s.cells[other];
    }
  }

  lemma CanRetryDoubles(s: State, id: Uuid, k: nat)
    requires Inv(s) && Traced(s) && CanRetry(s, id) && Live(s, id, k)
    ensures Doubles(s)
  {
    hide CellInv, HonestRun, Run, AwbUnique, SingleCarrier, CellEvolves, Traced, Stuck, OtherCarrier, LiveReference;
    if CanQueueAgain(s, id) {
      RetryDoubles(s, id, k, SomeInput());
    } else {
      var steps := Frees(s, id);
      RunKeeps(s, steps);
      RunTraces(s, steps);
      assert Live(Run(s, steps), id, k) by { SameLive(s, Run(s, steps), id, k); }
      RetryDoubles(Run(s, steps), id, k, SomeInput());
      DoublesLater(s, steps);
    }
  }

  lemma SameLive(s: State, s': State, id: Uuid, k: nat)
    requires Live(s, id, k) && id in s'.cells && s'.cells[id] == s.cells[id] && s'.courier == s.courier
    requires s'.requested == s.requested
    ensures Live(s', id, k)
  {
  }

  // ---- An AWB that was never issued ---------------------------------------------------------------------------

  /** The confirmation finds the AWB taken, and quarantines. */
  const TAKEN := Reads(true, true, true, true)

  lemma HearsCreated(s: State, id: Uuid, k: nat, awb: string)
    requires id in s.cells && k in s.cells[id].workers && s.cells[id].workers[k].Sent?
    ensures var s' := Apply(s, CreateAnswered(id, k, ReplyCreated(awb)));
            && OnlyCell(s, s', id) && s'.cells[id].record == s.cells[id].record
            && k in s'.cells[id].workers && s'.cells[id].workers[k] == Answered(Created(awb))
  {
    hide Seal;
  }

  lemma TakenIsOk(s: State, id: Uuid, k: nat, awb: string, holder: Uuid)
    requires id in s.cells && k in s.cells[id].workers && s.cells[id].workers[k] == Answered(Created(awb))
    requires NormalizeAwb(awb) == awb
    requires holder in s.cells && holder != id && SameAwb(s.cells[id].record.row, s.cells[holder].record.row, awb)
    ensures ReadsOk(s, SettleWorker(id, k, false, TAKEN))
  {
    hide NormalizeAwb;
  }

  lemma Quarantines(s: State, id: Uuid, k: nat, awb: string)
    requires id in s.cells && k in s.cells[id].workers && s.cells[id].workers[k] == Answered(Created(awb))
    requires ReadsOk(s, SettleWorker(id, k, false, TAKEN))
    requires k < |s.cells[id].record.intents| && s.cells[id].record.row.state == Submitted
    requires s.cells[id].record.row.collectible == 0
    ensures var s' := Apply(s, SettleWorker(id, k, false, TAKEN));
            && OnlyCell(s, s', id)
            && s'.cells[id].record.row.state == Failed && s'.cells[id].record.row.collectible == 0
            && |s'.cells[id].record.intents| == |s.cells[id].record.intents|
            && s'.cells[id].record.intents[k].reference == s.cells[id].record.intents[k].reference
  {
    hide Seal, ReadsOk, SettleFailedTx, MarkUnknownTx, NormalizeAwb;
  }

  function Quarantine(id: Uuid, reference: string, awb: string): seq<Step> {
    [CourierRules(reference, Booked(awb)), CreateAnswered(id, 0, ReplyCreated(awb)), SettleWorker(id, 0, false, TAKEN)]
  }

  /** The first attempt of `id` is on its way and will be given an AWB that `holder` shows. */
  ghost predicate WillClash(s: State, id: Uuid, reference: string, holder: Uuid, awb: string) {
    && id in s.cells && 0 in s.cells[id].workers && s.cells[id].workers[0].Sent?
       && s.cells[id].workers[0].request.reference == reference
    && |s.cells[id].record.intents| == 1 && s.cells[id].record.intents[0].reference == reference
    && s.cells[id].record.row.state == Submitted && s.cells[id].record.row.collectible == 0
    && reference in s.requested && reference !in s.courier && FreshIn(s.courier, awb) && NormalizeAwb(awb) == awb
    && holder in s.cells && holder != id && SameAwb(s.cells[id].record.row, s.cells[holder].record.row, awb)
  }

  /** The courier books the attempt under the taken AWB, and the worker is told so. */
  lemma ClashAnswered(s: State, id: Uuid, reference: string, holder: Uuid, awb: string)
    requires WillClash(s, id, reference, holder, awb)
    ensures var a, b := CourierRules(reference, Booked(awb)), CreateAnswered(id, 0, ReplyCreated(awb));
            var s1 := Apply(s, a);
            var s2 := Apply(s1, b);
            && FreshAwb(s, a) && Truthful(s, a) && FreshAwb(s1, b) && Truthful(s1, b)
            && OnlyCell(s1, s2, id) && s1 == s.(courier := s.courier[reference := Booked(awb)])
            && s2.cells[id].record == s.cells[id].record && 0 in s2.cells[id].workers
               && s2.cells[id].workers[0] == Answered(Created(awb))
  {
    hide NormalizeAwb;
    var a, b := CourierRules(reference, Booked(awb)), CreateAnswered(id, 0, ReplyCreated(awb));
    Books(s, reference, awb);
    assert FreshAwb(s, a) && Truthful(s, a);
    HearsCreated(Apply(s, a), id, 0, awb);
    assert Truthful(Apply(s, a), b) && FreshAwb(Apply(s, a), b);
  }

  lemma ClashQuarantines(s: State, id: Uuid, reference: string, holder: Uuid, awb: string)
    requires WillClash(s, id, reference, holder, awb)
    ensures HonestRun(s, Quarantine(id, reference, awb))
    ensures var s' := Run(s, Quarantine(id, reference, awb));
            && id in s'.cells && s'.cells[id].record.row.state == Failed && s'.cells[id].record.row.collectible == 0
            && BookedAttempt(s', id, 0)
  {
    var steps := Quarantine(id, reference, awb);
    var a, b, c := steps[0], steps[1], steps[2];
    ClashAnswered(s, id, reference, holder, awb);
    var s2 := Apply(Apply(s, a), b);
    assert Truthful(s2, c) && FreshAwb(s2, c);
    hide Apply, FreshIn, ReadsOk, FreshAwb, Truthful, SameAwb;
    TakenIsOk(s2, id, 0, awb, holder);
    Quarantines(s2, id, 0, awb);
    HonestThree(s, a, b, c);
    assert steps == [a, b, c];
  }

  lemma HonestThree(s: State, a: Step, b: Step, c: Step)
    requires Truthful(s, a) && FreshAwb(s, a) && Truthful(Apply(s, a), b) && FreshAwb(Apply(s, a), b)
    requires Truthful(Apply(Apply(s, a), b), c) && FreshAwb(Apply(Apply(s, a), b), c)
    ensures HonestRun(s, [a, b, c]) && Run(s, [a, b, c]) == Apply(Apply(Apply(s, a), b), c)
  {
    hide Apply, Truthful, FreshAwb;
    RunThree(s, a, b, c);
    RunSnoc(s, [], a);
    RunSnoc(s, [a], b);
    HonestSnoc(s, [], a);
    HonestSnoc(s, [a], b);
    HonestSnoc(s, [a, b], c);
    assert Run(s, []) == s && [] + [a] == [a] && [a] + [b] == [a, b] && [a, b] + [c] == [a, b, c];
  }

  lemma InsertsFresh(s: State, id: Uuid, shop: Uuid, order: Uuid)
    requires id !in s.cells
    ensures var steps := [InsertShipment(id, shop, order, "")];
            Run(s, steps) == s.(cells := s.cells[id := NewCell(shop, order, "")]) && HonestRun(s, steps)
  {
    var step := InsertShipment(id, shop, order, "");
    RunSnoc(s, [], step);
    HonestSnoc(s, [], step);
    assert [] + [step] == [step] && Run(s, []) == s;
  }

  /** A new shipment of the holder's shop is sent under the holder's account. */
  lemma SendsBeside(s: State, holder: Uuid, unused: Uuid) returns (steps: seq<Step>, reference: string)
    requires Inv(s) && Traced(s) && holder in s.cells && unused !in s.cells && s.cells[holder].record.row.awb.Some?
    requires NormalAwb(s.cells[holder].record.row) && !Issued(s.courier, s.cells[holder].record.row.awb.value)
    ensures HonestRun(s, steps)
    ensures WillClash(Run(s, steps), unused, reference, holder, s.cells[holder].record.row.awb.value)
  {
    hide CellInv, Run, HonestRun, Dispatch, MerchantReference, NormalizeAwb, AwbUnique, SingleCarrier, CellEvolves;
    hide Traced, OtherCarrier;
    HolderHasAccount(s, holder);
    var row := s.cells[holder].record.row;
    var input := SomeInput().(accountId := row.account.value);
    var inserted := [InsertShipment(unused, row.shop, row.order, "")];
    InsertsFresh(s, unused, row.shop, row.order);
    var s1 := Run(s, inserted);
    RunKeeps(s, inserted);
    RunTraces(s, inserted);
    var sent := Dispatch(s1, unused, input);
    Dispatches(s1, unused, input);
    RunKeeps(s1, sent);
    NextIsNew(s1, Run(s1, sent), unused, input);
    steps, reference := inserted + sent, NextReference(s1, unused);
    HonestAppend(s, inserted, sent);
    RunAppend(s, inserted, sent);
  }

  lemma UnissuedDoubles(s: State, holder: Uuid, unused: Uuid)
    requires Inv(s) && Traced(s) && holder in s.cells && unused !in s.cells && s.cells[holder].record.row.awb.Some?
    requires NormalAwb(s.cells[holder].record.row) && !Issued(s.courier, s.cells[holder].record.row.awb.value)
    ensures Doubles(s)
  {
    hide Inv, Run, HonestRun, Issued, Traced, Quarantine, WillClash, NormalAwb, OtherCarrier;
    var awb := s.cells[holder].record.row.awb.value;
    var steps, reference := SendsBeside(s, holder, unused);
    var s1 := Run(s, steps);
    ClashQuarantines(s1, unused, reference, holder, awb);
    RunKeeps(s, steps);
    RunTraces(s, steps);
    RunKeeps(s1, Quarantine(unused, reference, awb));
    RunTraces(s1, Quarantine(unused, reference, awb));
    RetryDoubles(Run(s1, Quarantine(unused, reference, awb)), unused, 0, SomeInput());
    DoublesLater(s1, Quarantine(unused, reference, awb));
    DoublesLater(s, steps);
  }

  // ---- Exactly when -------------------------------------------------------------------------------------------

  lemma UnsafeDoubles(s: State, unused: Uuid)
    requires Inv(s) && Traced(s) && AwbsNormal(s) && unused !in s.cells && !(SafeToRetry(s) && AwbsIssued(s))
    ensures Doubles(s)
  {
    hide Inv, Traced, NormalAwb, Live, CanRetry, Issued, Doubles;
    if id, i, j :| Live(s, id, i) && Live(s, id, j) && i != j {
      LiveCells(s);
      TwoLiveDouble(s, id, i, j);
    } else if id, k :| CanRetry(s, id) && Live(s, id, k) {
      CanRetryDoubles(s, id, k);
    } else {
      var holder :| holder in s.cells && s.cells[holder].record.row.awb.Some?
          && !Issued(s.courier, s.cells[holder].record.row.awb.value);
      UnissuedDoubles(s, holder, unused);
    }
  }

  lemma LiveCells(s: State)
    requires Inv(s)
    ensures CellsInv(s)
  {
  }

  /** From a state with nothing in flight, reached by any run whatever the courier said in it, and with a
      shipment id to spare: every honest continuation books every shipment at most once if and only if no
      shipment has two live attempts, no shipment that can be queued again has one, and every AWB held was
      issued. */
  lemma RetryExactly(s: State, unused: Uuid)
    requires Reachable(s) && Quiescent(s) && unused !in s.cells
    ensures AlwaysOnce(s) <==> SafeToRetry(s) && AwbsIssued(s)
  {
    hide Reachable, Quiescent, SafeToRetry, AwbsIssued, AtMostOnce, Inv, Traced, AwbsNormal;
    if SafeToRetry(s) && AwbsIssued(s) {
      forall steps | HonestRun(s, steps)
        ensures AtMostOnce(Run(s, steps))
      {
        SafeStaysOnce(s, steps);
      }
    } else {
      ReachableNormal(s);
      UnsafeDoubles(s, unused);
      NotAlways(s);
    }
  }

  /** In an honest state only the confirmed attempt of a shipment is live. */
  lemma HonestLive(s: State, id: Uuid, k: nat)
    requires HonestInv(s, {}) && Quiescent(s) && Live(s, id, k)
    ensures IsLatest(s.cells[id].record, k) && Landed(s.cells[id].record.row.state)
  {
    hide NormalizeAwb, CellInv, AwbUnique, SingleCarrier;
    assert CourierOk(WordOf(s), s.cells[id]) && CellInv(id, s.cells[id]);
    assert Ruled(WordOf(s), s.cells[id].record.row.awb, s.cells[id].record.intents[k]);
    assert s.cells[id].record.intents[k].outcome.SettledConfirmed();
    CellRows(id, s.cells[id]);
    hide HonestInv, Quiescent;
    ConfirmedIsLatest(id, s.cells[id].record, k);
  }

  lemma ConfirmedIsLatest(id: Uuid, r: Record, k: nat)
    requires RecordInv(id, r) && k < |r.intents| && r.intents[k].outcome.SettledConfirmed()
    ensures IsLatest(r, k) && Landed(r.row.state)
  {
    hide IntentsInv, BuildSnapshot;
    assert k < |r.intents| - 1 ==> r.intents[k].outcome.SettledFailed();
  }

  /** A run that was honest from the start ends, when nothing is in flight, in a state that is safe to retry. */
  lemma HonestIsSafe(s: State)
    requires HonestlyReachable(s) && Quiescent(s)
    ensures SafeToRetry(s) && AwbsIssued(s)
  {
    hide HonestlyReachable, HonestInv, Quiescent, Traced, Stuck, LiveReference, NormalizeAwb;
    HonestlyReachableInv(s);
    forall id, k | Live(s, id, k)
      ensures IsLatest(s.cells[id].record, k) && Landed(s.cells[id].record.row.state)
    {
      HonestLive(s, id, k);
    }
    forall id | id in s.cells && s.cells[id].record.row.awb.Some?
      ensures Issued(s.courier, s.cells[id].record.row.awb.value)
    {
      HolderIsBooked(s, id, {});
    }
  }
}
