/** The overage service's two entry points as statements over mutable tables, run without interleaving: each
    is the corresponding sequence of moves of the concurrent machine. */
module OverageService {
  import opened Wrappers
  import opened BookingSnapshot
  import opened Overage
  import opened OverageInvariant

  datatype RecordResult =
    | WithinAllowance
    | NoOveragePrice
    | CoveredByCredit(credit: nat)
    | CapExceeded
    | AlreadyRecorded
    | NoUsageLineItem(usage: nat)
    | SubmittedUsage(usage: nat)
    | RejectedByShopify(usage: nat)
    | SubmitAmbiguous(usage: nat)

  datatype ReverseResult = NoUsageRecord | TerminalState | ReversedUnsubmitted | SubmitAmbiguousReview
      | AlreadyCredited | CreditHeld

  /** The oldest credit nobody has consumed. */
  function OldestUnconsumed(credits: seq<Credit>): (r: Option<nat>)
    ensures r.Some? ==> r.value < |credits| && credits[r.value].consumedBy.None?
                        && forall i :: 0 <= i < r.value ==> credits[i].consumedBy.Some?
    ensures r.None? ==> forall i :: 0 <= i < |credits| ==> credits[i].consumedBy.Some?
  {
    if credits == [] then None
    else if credits[0].consumedBy.None? then Some(0)
    else
      var rest := OldestUnconsumed(credits[1..]);
      if rest.Some? then Some(rest.value + 1) else None
  }

  /** The latest usage record of a shipment. */
  function LatestUsage(usages: seq<Usage>, shipment: Uuid): (r: Option<nat>)
    ensures r.Some? ==> Newest(usages, shipment, r.value)
    ensures r.None? ==> NoUsage(usages, shipment)
  {
    if usages == [] then None
    else if usages[|usages| - 1].shipment == shipment then Some(|usages| - 1)
    else LatestUsage(usages[..|usages| - 1], shipment)
  }

  function RecordMoves(shipment: Uuid, credit: Option<nat>, lineItem: bool, reply: ShopifyReply): seq<Move> {
    [BeginRecord(0, shipment, credit), CheckCap(0), InsertUsage(0)]
    + (if lineItem then [SendUsage(0), UsageAnswered(0, reply)] else [CrashCall(0)])
  }

  function ReverseMoves(shipment: Uuid): seq<Move> {
    [BeginReversal(0, shipment), ActOnUsage(0), HoldCredit(0)]
  }

  lemma BillLast(s: Billing, moves: seq<Move>)
    requires moves != []
    ensures Bill(s, moves) == Next(Bill(s, moves[..|moves| - 1]), moves[|moves| - 1])
  {
    hide Next;
  }

  lemma RecordUnrolled(s: Billing, shipment: Uuid, credit: Option<nat>, lineItem: bool, reply: ShopifyReply)
    ensures var inserted := InsertRow(Check(Begin(s, 0, shipment, credit), 0), 0);
            Bill(s, RecordMoves(shipment, credit, lineItem, reply)) == if lineItem
                then Answer(Send(inserted, 0), 0, reply) else EndCall(inserted, 0)
  {
    var moves := RecordMoves(shipment, credit, lineItem, reply);
    hide Begin, Check, InsertRow, Send, Answer, EndCall;
    BillLast(s, moves);
    if lineItem {
      BillLast(s, moves[..4]);
      assert moves[..4][..3] == moves[..3];
    }
    BillLast(s, moves[..3]);
    BillLast(s, moves[..2]);
    BillLast(s, moves[..1]);
    assert moves[..3][..2] == moves[..2] && moves[..2][..1] == moves[..1] && moves[..1][..0] == [];
  }

  /** The record as the submission leaves it. */
  function SubmittedRow(row: Usage, lineItem: bool, reply: ShopifyReply): Usage {
    if !lineItem then row
    else
      var sent := row.(sends := row.sends + 1);
      match reply
      case Created => sent.(state := Submitted, stamped := true)
      case UserError => sent.(state := Refused)
      case Unclear => sent.(stamped := true)
  }

  /** The one call under way submits the record it inserted last. */
  lemma SubmitsAlone(s: Billing, usages: seq<Usage>, row: Usage, lineItem: bool, reply: ShopifyReply)
    requires s.calls == map[0 := Holding(|usages|)] && s.usages == usages + [row] && row.state == Pending
    ensures (if lineItem then Answer(Send(s, 0), 0, reply) else EndCall(s, 0))
            == s.(calls := map[], usages := usages + [SubmittedRow(row, lineItem, reply)])
  {
    assert map[0 := Holding(|usages|)] - {0} == map[] && map[0 := Sent(|usages|)] - {0} == map[];
    if lineItem {
      var sent := row.(sends := row.sends + 1);
      assert s.usages[|usages| := sent] == usages + [sent];
      assert Send(s, 0) == s.(usages := usages + [sent], calls := map[0 := Sent(|usages|)]);
      assert (usages + [sent])[|usages| := SubmittedRow(row, true, reply)] == usages + [SubmittedRow(row, true, reply)];
    }
  }

  /** Up to the INSERT, nothing else under way. */
  lemma InsertsAlone(s: Billing, shipment: Uuid)
    requires s.calls == map[] && s.unit > 0
    ensures var inserted := InsertRow(Check(Begin(s, 0, shipment, None), 0), 0);
            inserted == if ChargedSince(s.usages, s.cycle) + s.unit > s.cap || KeyTaken(s.usages, shipment, s.cycle)
                then s.(began := s.began + {shipment})
                        else s.(began := s.began + {shipment}, calls := map[0 := Holding(|s.usages|)],
                                usages := s.usages + [Usage(shipment, s.cycle, s.cycle, s.unit, Pending, false, 0)])
  {
    hide ChargedSince, KeyTaken;
    assert map[0 := Uncovered(shipment, s.cycle)] - {0} == map[] && map[0 := Checked(shipment, s.cycle)] - {0} == map[];
  }

  lemma EndsNothing(s: Billing, reply: ShopifyReply)
    requires s.calls == map[]
    ensures Check(s, 0) == s && InsertRow(s, 0) == s && Answer(Send(s, 0), 0, reply) == s && EndCall(s, 0) == s
  {
    assert s.calls - {0} == s.calls;
  }

  /** The recording of a shipment over its allowance, nothing else under way: covered by the credit found,
      refused by the cap or by the key, or recorded and submitted. */
  lemma RecordOf(s: Billing, shipment: Uuid, credit: Option<nat>, lineItem: bool, reply: ShopifyReply)
    requires s.calls == map[] && s.unit > 0
    requires (credit.Some? ==> credit.value < |s.credits| && s.credits[credit.value].consumedBy.None?)
    ensures var s' := s.(began := s.began + {shipment});
            Bill(s, RecordMoves(shipment, credit, lineItem, reply))
            == if credit.Some?
                then s'.(credits := s.credits[credit.value := s.credits[credit.value].(consumedBy := Some(shipment))])
               else if ChargedSince(s.usages, s.cycle) + s.unit > s.cap || KeyTaken(s.usages, shipment, s.cycle) then s'
               else s'.(usages := s.usages + [SubmittedRow(Usage(shipment, s.cycle, s.cycle, s.unit, Pending, false,
                                                                 0), lineItem, reply)])
  {
    hide ChargedSince, KeyTaken, Bill, RecordMoves, Check, InsertRow, Send, Answer, EndCall, SubmittedRow;
    RecordUnrolled(s, shipment, credit, lineItem, reply);
    if credit.Some? {
      EndsNothing(Begin(s, 0, shipment, credit), reply);
    } else {
      hide Begin;
      InsertsAlone(s, shipment);
      var row := Usage(shipment, s.cycle, s.cycle, s.unit, Pending, false, 0);
      if ChargedSince(s.usages, s.cycle) + s.unit > s.cap || KeyTaken(s.usages, shipment, s.cycle) {
        EndsNothing(s.(began := s.began + {shipment}), reply);
      } else {
        SubmitsAlone(s.(began := s.began + {shipment}, calls := map[0 := Holding(|s.usages|)],
                        usages := s.usages + [row]),
                     s.usages, row, lineItem, reply);
      }
    }
  }

  lemma ReverseUnrolled(s: Billing, shipment: Uuid)
    ensures Bill(s, ReverseMoves(shipment)) == Hold(Act(Reverse(s, 0, shipment), 0), 0)
  {
    var moves := ReverseMoves(shipment);
    hide Reverse, Act, Hold;
    BillLast(s, moves);
    BillLast(s, moves[..2]);
    BillLast(s, moves[..1]);
    assert moves[..2][..1] == moves[..1] && moves[..1][..0] == [];
  }

  /** The reversal's SELECT finds row `u`, and its next statement acts on it; nothing else is under way. */
  lemma ReadsLatest(s: Billing, shipment: Uuid, u: nat)
    requires s.reversals == map[] && Newest(s.usages, shipment, u)
    ensures var row := s.usages[u];
            && Reverse(s, 0, shipment) == s.(reversals := map[0 := Read(u, row.state, row.stamped)],
                                             fates := s.fates[shipment := Fate(Saw(u, row.state, row.stamped),
                                                   Underway)])
  {
    forall v: nat | Newest(s.usages, shipment, v)
      ensures v == u
    {
      NewestUnique(s.usages, shipment, u, v);
    }
    hide Newest;
  }

  predicate CreditWaits(credits: seq<Credit>, u: nat) {
    exists c :: c in credits && c.source == u && c.consumedBy.None?
  }

  lemma EndsAlone(s: Billing, pc: ReversalPc)
    requires s.reversals == map[0 := pc] && pc.usage < |s.usages| && s.usages[pc.usage].shipment in s.fates
    ensures var x := s.usages[pc.usage].shipment;
            EndReversal(s, 0, pc.usage, Finished)
                == s.(reversals := map[], fates := s.fates[x := s.fates[x].(stage := Finished)])
  {
    assert s.reversals - {0} == map[];
  }

  lemma ActsAlone(s: Billing, u: nat, fate: Fate)
    requires u < |s.usages| && s.reversals == map[0 := Read(u, s.usages[u].state, s.usages[u].stamped)]
    requires s.usages[u].shipment in s.fates && s.fates[s.usages[u].shipment] == fate
    ensures var row := s.usages[u];
            Hold(Act(s, 0), 0)
            == s.(fates := s.fates[row.shipment := fate.(stage := Finished)], reversals := map[],
                  usages := if row.state == Pending && !row.stamped then s.usages[u := row.(state := Reversed)]
                      else s.usages,
                  credits := if row.state.Charged() && !CreditWaits(s.credits, u)
                      then s.credits + [Credit(u, -(row.amount as int), None)]
                             else s.credits)
  {
    var row := s.usages[u];
    EndsAlone(s, s.reversals[0]);
    if row.state.Charged() && !CreditWaits(s.credits, u) {
      var acted := Act(s, 0);
      assert acted == s.(reversals := map[0 := Crediting(u)]);
      EndsAlone(acted, Crediting(u));
    }
    hide EndReversal;
  }

  lemma ReverseOfRow(s: Billing, shipment: Uuid, u: nat)
    requires s.reversals == map[] && Newest(s.usages, shipment, u)
    ensures var row := s.usages[u];
            Bill(s, ReverseMoves(shipment))
            == s.(fates := s.fates[shipment := Fate(Saw(u, row.state, row.stamped), Finished)],
                  usages := if row.state == Pending && !row.stamped then s.usages[u := row.(state := Reversed)]
                      else s.usages,
                  credits := if row.state.Charged() && !CreditWaits(s.credits, u)
                      then s.credits + [Credit(u, -(row.amount as int), None)]
                             else s.credits)
  {
    hide Reverse, Act, Hold, Bill, ReverseMoves, Newest, CreditWaits;
    ReverseUnrolled(s, shipment);
    ReadsLatest(s, shipment, u);
    FoundIsUsage(s.usages, shipment, u);
    var row := s.usages[u];
    var fate := Fate(Saw(u, row.state, row.stamped), Underway);
    var read := s.(reversals := map[0 := Read(u, row.state, row.stamped)], fates := s.fates[shipment := fate]);
    ActsAlone(read, u, fate);
    assert read.fates[shipment := fate.(stage := Finished)] == s.fates[shipment := fate.(stage := Finished)];
  }

  lemma FoundIsUsage(usages: seq<Usage>, shipment: Uuid, u: nat)
    requires Newest(usages, shipment, u)
    ensures u < |usages| && usages[u].shipment == shipment && !NoUsage(usages, shipment)
    ensures forall later :: u < later < |usages| ==> usages[later].shipment != shipment
  {
  }

  lemma ReverseOfNone(s: Billing, shipment: Uuid)
    requires s.reversals == map[] && NoUsage(s.usages, shipment)
    ensures Bill(s, ReverseMoves(shipment)) == s.(fates := s.fates[shipment := Fate(NoRecord, Finished)])
  {
    ReverseUnrolled(s, shipment);
  }

  /** Row `u` is the shipment's newest; what the reversal answers and leaves goes by its state: a refused or
      reversed row and an ambiguous submission are left alone, an unsubmitted one is reversed, and a charged one
      is credited with its amount unless a credit for it is still waiting. */
  ghost predicate ReversesRow(usages: seq<Usage>, credits: seq<Credit>, shipment: Uuid, u: nat, result: ReverseResult,
                              usages': seq<Usage>, credits': seq<Credit>)
  {
    && u < |usages| && usages[u].shipment == shipment
    && (forall later :: u < later < |usages| ==> usages[later].shipment != shipment)
    && var row := usages[u];
       && (row.state in {Refused, Reversed} ==> result == TerminalState && usages' == usages && credits' == credits)
       && (row.state == Pending && row.stamped ==>
             result == SubmitAmbiguousReview && usages' == usages && credits' == credits)
       && (row.state == Pending && !row.stamped ==>
             result == ReversedUnsubmitted && usages' == usages[u := row.(state := Reversed)] && credits' == credits)
       && (row.state in {Submitted, Accepted} ==>
             usages' == usages
             && if exists c :: c in credits && c.source == u && c.consumedBy.None?
                then result == AlreadyCredited && credits' == credits
                else result == CreditHeld && credits' == credits + [Credit(u, -(row.amount as int), None)])
  }

  /** Above the cap nothing is written, nor for a shipment already recorded in the cycle; otherwise one row is
      added, PENDING and unsent without a line item, and after the submission SUBMITTED, REJECTED, or PENDING and
      stamped. */
  ghost predicate Charges(usages: seq<Usage>, shipment: Uuid, cycle: nat, unit: nat, cap: nat, lineItem: bool,
                          reply: ShopifyReply, result: RecordResult, usages': seq<Usage>)
  {
    var n := |usages|;
    if ChargedSince(usages, cycle) + unit > cap then result == CapExceeded && usages' == usages
    else if exists u :: u in usages && u.shipment == shipment && u.keyCycle == cycle
    then result == AlreadyRecorded && usages' == usages
    else if !lineItem
    then result == NoUsageLineItem(n) && usages' == usages + [Usage(shipment, cycle, cycle, unit, Pending, false, 0)]
    else match reply
         case Created =>
           result == SubmittedUsage(n) && usages' == usages + [Usage(shipment, cycle, cycle, unit, Submitted, true, 1)]
         case UserError =>
           result == RejectedByShopify(n)
           && usages' == usages + [Usage(shipment, cycle, cycle, unit, Refused, false, 1)]
         case Unclear =>
           result == SubmitAmbiguous(n) && usages' == usages + [Usage(shipment, cycle, cycle, unit, Pending, true, 1)]
  }

  lemma SubmittedRows(row: Usage)
    ensures SubmittedRow(row, true, Created) == row.(sends := row.sends + 1, state := Submitted, stamped := true)
    ensures SubmittedRow(row, true, UserError) == row.(sends := row.sends + 1, state := Refused)
    ensures SubmittedRow(row, true, Unclear) == row.(sends := row.sends + 1, stamped := true)
    ensures forall reply :: SubmittedRow(row, false, reply) == row
  {
  }

  lemma WaitsMeans(credits: seq<Credit>, u: nat)
    ensures CreditWaits(credits, u) <==> exists c :: c in credits && c.source == u && c.consumedBy.None?
  {
  }

  lemma TakenMeans(usages: seq<Usage>, shipment: Uuid, cycle: nat)
    ensures KeyTaken(usages, shipment, cycle) <==>
            exists u :: u in usages && u.shipment == shipment && u.keyCycle == cycle
  {
  }

  lemma NoUsageMeans(usages: seq<Usage>, shipment: Uuid)
    ensures NoUsage(usages, shipment) <==> forall u :: u in usages ==> u.shipment != shipment
  {
  }

  class Service {
    const unit: nat
    const cap: nat
    var cycle: nat
    var usages: seq<Usage>
    var credits: seq<Credit>
    ghost var began: set<Uuid>
    ghost var fates: map<Uuid, Fate>
    ghost var revived: nat

    /** The tables as a state of the machine with no call under way. */
    ghost function Idle(): Billing
      reads this
    {
      Billing(unit, cap, cycle, usages, credits, map[], map[], began, fates, revived)
    }

    constructor (unit: nat, cap: nat)
      ensures Idle() == Opening(unit, cap)
    {
      this.unit, this.cap, cycle, usages, credits, began, fates, revived := unit, cap, 0, [], [], {}, map[], 0;
    }

    /** The submission of a record just inserted, and the UPDATE that its answer calls for. */
    method SubmitUsage(usage: nat, lineItem: bool, reply: ShopifyReply) returns (result: RecordResult)
      requires usage < |usages|
      modifies this`usages
      ensures usages == old(usages)[usage := SubmittedRow(old(usages)[usage], lineItem, reply)]
      ensures result == if !lineItem then NoUsageLineItem(usage)
                        else match reply
                             case Created => SubmittedUsage(usage)
                             case UserError => RejectedByShopify(usage)
                             case Unclear => SubmitAmbiguous(usage)
    {
      if !lineItem {
        return NoUsageLineItem(usage);
      }
      usages := usages[usage := usages[usage].(sends := usages[usage].sends + 1)];
      match reply {
        case Created =>
          usages := usages[usage := usages[usage].(state := Submitted, stamped := true)];
          result := SubmittedUsage(usage);
        case UserError =>
          usages := usages[usage := usages[usage].(state := Refused)];
          result := RejectedByShopify(usage);
        case Unclear =>
          usages := usages[usage := usages[usage].(stamped := true)];
          result := SubmitAmbiguous(usage);
      }
    }

    /** The part of recordOverageForShipment after no credit was found: the cap query, the INSERT, the submission. */
    method ChargeUsage(shipment: Uuid, lineItem: bool, reply: ShopifyReply) returns (result: RecordResult)
      modifies this`usages
      ensures Charges(old(usages), shipment, cycle, unit, cap, lineItem, reply, result, usages)
      ensures !result.CoveredByCredit? && !result.WithinAllowance? && !result.NoOveragePrice?
      ensures usages == if ChargedSince(old(usages), cycle) + unit > cap || KeyTaken(old(usages), shipment, cycle)
                        then old(usages)
                        else old(usages) + [SubmittedRow(Usage(shipment, cycle, cycle, unit, Pending, false, 0),
                                                         lineItem, reply)]
    {
      hide KeyTaken, ChargedSince, SubmittedRow;
      TakenMeans(usages, shipment, cycle);
      SubmittedRows(Usage(shipment, cycle, cycle, unit, Pending, false, 0));
      if ChargedSince(usages, cycle) + unit > cap {
        return CapExceeded;
      }
      if KeyTaken(usages, shipment, cycle) {
        return AlreadyRecorded;
      }
      var usage := |usages|;
      usages := usages + [Usage(shipment, cycle, cycle, unit, Pending, false, 0)];
      result := SubmitUsage(usage, lineItem, reply);
    }

    /** recordOverageForShipment; `lineItem` and `reply` are what Shopify answers. */
    method RecordOverage(shipment: Uuid, overAllowance: bool, lineItem: bool,
                         reply: ShopifyReply) returns (result: RecordResult)
      modifies this
      ensures (result == WithinAllowance <==> !overAllowance) && (!overAllowance ==> unchanged(this))
      ensures result == NoOveragePrice <==> overAllowance && unit == 0
      ensures overAllowance && unit == 0 ==> unchanged(this)
      ensures overAllowance && unit > 0 ==>
                Idle() == Bill(old(Idle()), RecordMoves(shipment, OldestUnconsumed(old(credits)), lineItem, reply))
      ensures cycle == old(cycle) && fates == old(fates) && revived == old(revived)
      ensures result.CoveredByCredit? <==>
              overAllowance && unit > 0 && exists c :: c in old(credits) && c.consumedBy.None?
      ensures result.CoveredByCredit? ==>
                && result.credit < |old(credits)| && old(credits)[result.credit].consumedBy.None?
                && (forall i :: 0 <= i < result.credit ==> old(credits)[i].consumedBy.Some?) && usages == old(usages)
                && credits == old(credits)[result.credit :=
                                old(credits)[result.credit].(consumedBy := Some(shipment))]
      ensures !result.CoveredByCredit? ==> credits == old(credits)
      ensures overAllowance && unit > 0 && (forall c :: c in old(credits) ==> c.consumedBy.Some?) ==>
                Charges(old(usages), shipment, cycle, unit, cap, lineItem, reply, result, usages)
    {
      hide KeyTaken, ChargedSince, Bill, RecordMoves, SubmittedRow;
      if !overAllowance {
        return WithinAllowance;
      }
      if unit == 0 {
        return NoOveragePrice;
      }
      RecordOf(Idle(), shipment, OldestUnconsumed(credits), lineItem, reply);
      hide OldestUnconsumed, Charges;
      began := began + {shipment};
      var credit := OldestUnconsumed(credits);
      if credit.Some? {
        credits := credits[credit.value := credits[credit.value].(consumedBy := Some(shipment))];
        return CoveredByCredit(credit.value);
      }
      result := ChargeUsage(shipment, lineItem, reply);
    }

    /** reverseOverageForShipment. */
    method ReverseOverage(shipment: Uuid) returns (result: ReverseResult)
      modifies this
      ensures Idle() == Bill(old(Idle()), ReverseMoves(shipment))
      ensures cycle == old(cycle) && began == old(began) && revived == old(revived)
      ensures result == NoUsageRecord <==> forall u :: u in old(usages) ==> u.shipment != shipment
      ensures result == NoUsageRecord ==> usages == old(usages) && credits == old(credits)
      ensures result != NoUsageRecord ==>
                exists u :: ReversesRow(old(usages), old(credits), shipment, u, result, usages, credits)
    {
      hide Bill, ReverseMoves, CreditWaits, Newest, NoUsage;
      NoUsageMeans(usages, shipment);
      ghost var before := Idle();
      var latest := LatestUsage(usages, shipment);
      if latest.None? {
        ReverseOfNone(before, shipment);
        fates := fates[shipment := Fate(NoRecord, Finished)];
        return NoUsageRecord;
      }
      var u := latest.value;
      ReverseOfRow(before, shipment, u);
      WaitsMeans(credits, u);
      FoundIsUsage(usages, shipment, u);
      var record := usages[u];
      fates := fates[shipment := Fate(Saw(u, record.state, record.stamped), Finished)];
      if record.state == Refused || record.state == Reversed {
        result := TerminalState;
        assert ReversesRow(before.usages, before.credits, shipment, u, result, usages, credits);
        return;
      }
      if record.state == Pending {
        if record.stamped {
          result := SubmitAmbiguousReview;
          assert ReversesRow(before.usages, before.credits, shipment, u, result, usages, credits);
          return;
        }
        usages := usages[u := record.(state := Reversed)];
        result := ReversedUnsubmitted;
        assert ReversesRow(before.usages, before.credits, shipment, u, result, usages, credits);
        return;
      }
      if CreditWaits(credits, u) {
        result := AlreadyCredited;
        assert ReversesRow(before.usages, before.credits, shipment, u, result, usages, credits);
        return;
      }
      credits := credits + [Credit(u, -(record.amount as int), None)];
      result := CreditHeld;
      assert ReversesRow(before.usages, before.credits, shipment, u, result, usages, credits);
    }
  }
}
