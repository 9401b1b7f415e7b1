/** Overage charging (src/modules/billing/overage.service.ts) for one subscription: credits, a cap checked
    without a lock, one usage record per key, one submission, and the reversal. Calls interleave between
    their statements; a statement is atomic. */
module Overage {
  import opened Wrappers
  import opened BookingSnapshot

  datatype UsageState = Pending | Submitted | Accepted | Refused | Reversed
  {
    /** The row says that the charge exists at Shopify. */
    predicate Charged() {
      Submitted? || Accepted?
    }

    /** The cap query counts it. */
    predicate Counted() {
      Pending? || Charged()
    }
  }

  /** `keyCycle` is the cycle in the idempotency key, `cycle` the one the row was created in; `stamped` is
      submitted_at, `sends` how often the charge was sent to Shopify. */
  datatype Usage = Usage(shipment: Uuid, keyCycle: nat, cycle: nat, amount: nat, state: UsageState, stamped: bool,
                         sends: nat)

  datatype Credit = Credit(source: nat, amount: int, consumedBy: Option<Uuid>)

  datatype CallPc =
    | Uncovered(shipment: Uuid, cycle: nat)   // no credit taken; the cap query is next
    | Checked(shipment: Uuid, cycle: nat)     // within the cap; the INSERT is next
    | Holding(usage: nat)                     // row inserted, not sent
    | Sent(usage: nat)

  datatype ReversalPc =
    | Read(usage: nat, state: UsageState, stamped: bool)
    | Crediting(usage: nat)                   // no unconsumed credit seen; the INSERT is next

  datatype ShopifyReply = Created | UserError | Unclear

  /** What a reversal's SELECT gave it. */
  datatype Reading = NoRecord | Saw(usage: nat, state: UsageState, stamped: bool)

  datatype Stage = Underway | Finished | Crashed

  datatype Fate = Fate(saw: Reading, stage: Stage)

  datatype Billing = Billing(
    unit: nat, cap: nat, cycle: nat, usages: seq<Usage>, credits: seq<Credit>,
    calls: map<nat, CallPc>, reversals: map<nat, ReversalPc>,
    began: set<Uuid>,            // shipments recordOverageForShipment was called for
    fates: map<Uuid, Fate>,      // shipments reverseOverageForShipment was called for, and what became of it
    revived: nat)                // answers that made a REVERSED row SUBMITTED

  datatype Move =
    | BeginRecord(call: nat, shipment: Uuid, credit: Option<nat>)
    | CheckCap(call: nat)
    | InsertUsage(call: nat)
    | SendUsage(call: nat)
    | UsageAnswered(call: nat, reply: ShopifyReply)
    | CrashCall(call: nat)                    // also: no usage line item
    | AcceptUsage(usage: nat)
    | BeginReversal(reversal: nat, shipment: Uuid)
    | ActOnUsage(reversal: nat)
    | HoldCredit(reversal: nat)
    | CrashReversal(reversal: nat)
    | NextCycle

  function Opening(unit: nat, cap: nat): Billing {
    Billing(unit, cap, 0, [], [], map[], map[], {}, map[], 0)
  }

  /** What the cap query sums: rows created since `from` that are not refused or reversed. */
  function ChargedSince(usages: seq<Usage>, from: nat): nat {
    if usages == [] then 0
    else
      var last := usages[|usages| - 1];
      ChargedSince(usages[..|usages| - 1], from) + Contribution(last, from)
  }

  function Contribution(u: Usage, from: nat): nat {
    if u.cycle >= from && u.state.Counted() then u.amount else 0
  }

  predicate KeyTaken(usages: seq<Usage>, shipment: Uuid, keyCycle: nat) {
    exists u :: u in usages && u.shipment == shipment && u.keyCycle == keyCycle
  }

  /** The newest usage record of a shipment. */
  predicate Newest(usages: seq<Usage>, shipment: Uuid, u: nat) {
    u < |usages| && usages[u].shipment == shipment && forall later :: u < later < |usages| ==>
          usages[later].shipment != shipment
  }

  function EndCall(s: Billing, call: nat): Billing {
    s.(calls := s.calls - {call})
  }

  /** Credits are consumed by one guarded statement; a call that finds none, or loses the one it picked to
      another call, goes on to charge. */
  function Begin(s: Billing, call: nat, shipment: Uuid, credit: Option<nat>): Billing {
    if call in s.calls || s.unit == 0 then s
    else if credit.Some? && credit.value < |s.credits| && s.credits[credit.value].consumedBy.None?
    then s.(credits := s.credits[credit.value := s.credits[credit.value].(consumedBy := Some(shipment))],
            began := s.began + {shipment})
    else s.(calls := s.calls[call := Uncovered(shipment, s.cycle)], began := s.began + {shipment})
  }

  function Check(s: Billing, call: nat): Billing {
    if call !in s.calls || !s.calls[call].Uncovered? then s
    else if ChargedSince(s.usages, s.calls[call].cycle) + s.unit > s.cap then EndCall(s, call)
    else s.(calls := s.calls[call := Checked(s.calls[call].shipment, s.calls[call].cycle)])
  }

  function InsertRow(s: Billing, call: nat): Billing {
    if call !in s.calls || !s.calls[call].Checked? then s
    else
      var pc := s.calls[call];
      if KeyTaken(s.usages, pc.shipment, pc.cycle) then EndCall(s, call)
      else s.(usages := s.usages + [Usage(pc.shipment, pc.cycle, s.cycle, s.unit, Pending, false, 0)],
              calls := s.calls[call := Holding(|s.usages|)])
  }

  function Send(s: Billing, call: nat): Billing {
    if call !in s.calls || !s.calls[call].Holding? || s.calls[call].usage >= |s.usages| then s
    else
      var u := s.calls[call].usage;
      s.(usages := s.usages[u := s.usages[u].(sends := s.usages[u].sends + 1)], calls := s.calls[call := Sent(u)])
  }

  /** The UPDATEs after the answer name the usage id only. */
  function Answer(s: Billing, call: nat, reply: ShopifyReply): Billing {
    if call !in s.calls || !s.calls[call].Sent? || s.calls[call].usage >= |s.usages| then s
    else
      var u := s.calls[call].usage;
      var row := match reply
                 case Created => s.usages[u].(state := Submitted, stamped := true)
                 case UserError => s.usages[u].(state := Refused)
                 case Unclear => s.usages[u].(stamped := true);
      EndCall(s.(usages := s.usages[u := row],
                 revived := if s.usages[u].state == Reversed && reply == Created then s.revived + 1
                     else s.revived), call)
  }

  function Accept(s: Billing, u: nat): Billing {
    if u < |s.usages| && s.usages[u].state == Submitted
       then s.(usages := s.usages[u := s.usages[u].(state := Accepted)]) else s
  }

  /** The reversal's call ends for the shipment of row `u`. */
  function EndReversal(s: Billing, reversal: nat, u: nat, stage: Stage): Billing
    requires u < |s.usages|
  {
    var x := s.usages[u].shipment;
    s.(reversals := s.reversals - {reversal}, fates := if x in s.fates then s.fates[x := s.fates[x].(stage := stage)]
       else s.fates)
  }

  ghost function Reverse(s: Billing, reversal: nat, shipment: Uuid): Billing {
    if reversal in s.reversals then s
    else if exists u: nat :: Newest(s.usages, shipment, u) then
      var u: nat :| Newest(s.usages, shipment, u);
      var row := s.usages[u];
      s.(reversals := s.reversals[reversal := Read(u, row.state, row.stamped)],
         fates := s.fates[shipment := Fate(Saw(u, row.state, row.stamped), Underway)])
    else s.(fates := s.fates[shipment := Fate(NoRecord, Finished)])
  }

  /** The UPDATE to REVERSED names the usage id only. */
  function Act(s: Billing, reversal: nat): Billing {
    if reversal !in s.reversals || !s.reversals[reversal].Read? || s.reversals[reversal].usage >= |s.usages| then s
    else
      var pc := s.reversals[reversal];
      var ended := EndReversal(s, reversal, pc.usage, Finished);
      if pc.state == Pending && !pc.stamped
         then ended.(usages := s.usages[pc.usage := s.usages[pc.usage].(state := Reversed)])
      else if !pc.state.Charged() || (exists c :: c in s.credits && c.source == pc.usage && c.consumedBy.None?)
          then ended
      else s.(reversals := s.reversals[reversal := Crediting(pc.usage)])
  }

  function Hold(s: Billing, reversal: nat): Billing {
    if reversal !in s.reversals || !s.reversals[reversal].Crediting? || s.reversals[reversal].usage >= |s.usages| then s
    else
      var u := s.reversals[reversal].usage;
      EndReversal(s, reversal, u, Finished).(credits := s.credits + [Credit(u, -(s.usages[u].amount as int), None)])
  }

  function AbandonReversal(s: Billing, reversal: nat): Billing {
    if reversal in s.reversals && s.reversals[reversal].usage < |s.usages|
       then EndReversal(s, reversal, s.reversals[reversal].usage, Crashed)
    else s
  }

  ghost function Next(s: Billing, move: Move): Billing {
    match move
    case BeginRecord(call, shipment, credit) => Begin(s, call, shipment, credit)
    case CheckCap(call) => Check(s, call)
    case InsertUsage(call) => InsertRow(s, call)
    case SendUsage(call) => Send(s, call)
    case UsageAnswered(call, reply) => Answer(s, call, reply)
    case CrashCall(call) => EndCall(s, call)
    case AcceptUsage(u) => Accept(s, u)
    case BeginReversal(reversal, shipment) => Reverse(s, reversal, shipment)
    case ActOnUsage(reversal) => Act(s, reversal)
    case HoldCredit(reversal) => Hold(s, reversal)
    case CrashReversal(reversal) => AbandonReversal(s, reversal)
    case NextCycle => s.(cycle := s.cycle + 1)
  }

  ghost function Bill(s: Billing, moves: seq<Move>): Billing {
    if moves == [] then s else Next(Bill(s, moves[..|moves| - 1]), moves[|moves| - 1])
  }

  // ---- Discipline of the callers ------------------------------------------------------------------------------

  /** The shipment a call is about. */
  function About(usages: seq<Usage>, pc: CallPc): Option<Uuid> {
    match pc
    case Uncovered(x, _) => Some(x)
    case Checked(x, _) => Some(x)
    case Holding(u) => if u < |usages| then Some(usages[u].shipment) else None
    case Sent(u) => if u < |usages| then Some(usages[u].shipment) else None
  }

  predicate NoCall(usages: seq<Usage>, calls: map<nat, CallPc>, shipment: Uuid) {
    forall call :: call in calls ==> About(usages, calls[call]) != Some(shipment)
  }

  /** One recording and one reversal per shipment. */
  ghost predicate Disciplined(s: Billing, move: Move) {
    && (move.BeginRecord? ==> move.shipment !in s.began)
    && (move.BeginReversal? ==> move.shipment !in s.fates)
  }

  ghost predicate DisciplinedRun(s: Billing, moves: seq<Move>) {
    moves != [] ==>
      var n := |moves| - 1;
      DisciplinedRun(s, moves[..n]) && Disciplined(Bill(s, moves[..n]), moves[n])
  }
}
