/** What disciplined callers keep, whatever overlaps: per shipment one call, one record, one consumed credit
    and one reversal at most; what a reversal read decides whether its row is credited. */
module OverageInvariant {
  import opened Wrappers
  import opened BookingSnapshot
  import opened Overage

  // ---- The invariant ------------------------------------------------------------------------------------------

  ghost predicate UsagesInv(unit: nat, cycle: nat, began: set<Uuid>, usages: seq<Usage>) {
    && (forall i :: 0 <= i < |usages| ==>
          usages[i].amount == unit && usages[i].shipment in began && usages[i].cycle <= cycle && usages[i].sends <= 1)
    && (forall i, j :: 0 <= i < j < |usages| ==> usages[i].shipment != usages[j].shipment)
  }

  predicate NoUsage(usages: seq<Usage>, shipment: Uuid) {
    forall i :: 0 <= i < |usages| ==> usages[i].shipment != shipment
  }

  predicate Uncredited(credits: seq<Credit>, shipment: Uuid) {
    forall i :: 0 <= i < |credits| ==> credits[i].consumedBy != Some(shipment)
  }

  /** The row of a submission under way: not answered, though a reversal may have marked it. */
  predicate Awaiting(row: Usage) {
    (row.state == Pending || row.state == Reversed) && !row.stamped
  }

  ghost predicate CallOk(s: Billing, pc: CallPc) {
    match pc
    case Uncovered(x, c) => x in s.began && c <= s.cycle && NoUsage(s.usages, x) && Uncredited(s.credits, x)
    case Checked(x, c) => x in s.began && c <= s.cycle && NoUsage(s.usages, x) && Uncredited(s.credits, x)
        && s.unit <= s.cap
    case Holding(u) => u < |s.usages| && Awaiting(s.usages[u]) && s.usages[u].sends == 0
    case Sent(u) => u < |s.usages| && Awaiting(s.usages[u])
  }

  ghost predicate CallsInv(s: Billing) {
    forall call :: call in s.calls ==> CallOk(s, s.calls[call])
  }

  /** No two calls are about the same shipment. */
  ghost predicate CallsApart(usages: seq<Usage>, calls: map<nat, CallPc>) {
    forall a, b :: a in calls && b in calls && a != b ==> About(usages, calls[a]) != About(usages, calls[b])
  }

  predicate NotSource(credits: seq<Credit>, u: nat) {
    forall i :: 0 <= i < |credits| ==> credits[i].source != u
  }

  /** Each credit is the exact negative of a record of its own. */
  ghost predicate SourcesInv(unit: nat, rows: nat, credits: seq<Credit>) {
    && (forall i :: 0 <= i < |credits| ==> credits[i].source < rows && credits[i].amount == -(unit as int))
    && (forall i, j :: 0 <= i < j < |credits| ==> credits[i].source != credits[j].source)
  }

  /** Each shipment consumes at most one credit, and then has no record. */
  ghost predicate ConsumersInv(usages: seq<Usage>, credits: seq<Credit>, began: set<Uuid>) {
    && (forall i :: 0 <= i < |credits| && credits[i].consumedBy.Some? ==>
          credits[i].consumedBy.value in began && NoUsage(usages, credits[i].consumedBy.value))
    && (forall i, j :: 0 <= i < j < |credits| && credits[i].consumedBy.Some? ==>
        credits[i].consumedBy != credits[j].consumedBy)
  }

  function FateOf(fates: map<Uuid, Fate>, x: Uuid): Option<Fate> {
    if x in fates then Some(fates[x]) else None
  }

  /** Row `i` and the reversal of its shipment: it is credited exactly when the reversal read it charged and
      ran to its end, and what was read Refused, or Pending and stamped, has stayed so. */
  ghost predicate FateOk(row: Usage, i: nat, fate: Option<Fate>, uncredited: bool) {
    && (uncredited <==> !(fate.Some? && fate.value.stage == Finished && fate.value.saw.Saw?
                          && fate.value.saw.state.Charged()))
    && (row.state == Reversed ==> fate.Some? && fate.value == Fate(Saw(i, Pending, false), Finished))
    && (fate.Some? && fate.value.saw.Saw? ==>
          var saw := fate.value.saw;
          && saw.usage == i && saw.state != Reversed
          && (saw.state.Charged() ==> row.state.Charged())
          && (saw.state == Refused ==> row.state == Refused)
          && (saw.state == Pending && saw.stamped ==> row.state == Pending && row.stamped)
          && (saw.state == Pending && !saw.stamped && fate.value.stage == Finished ==> row.state != Pending))
  }

  ghost predicate FatesInv(usages: seq<Usage>, credits: seq<Credit>, fates: map<Uuid, Fate>) {
    && (forall i :: 0 <= i < |usages| ==>
        FateOk(usages[i], i, FateOf(fates, usages[i].shipment), NotSource(credits, i)))
    && (forall x :: x in fates ==>
          if fates[x].saw.Saw? then fates[x].saw.usage < |usages| && usages[fates[x].saw.usage].shipment == x
          else fates[x].stage == Finished)
  }

  ghost predicate ReversalOk(usages: seq<Usage>, fates: map<Uuid, Fate>, pc: ReversalPc) {
    && pc.usage < |usages| && usages[pc.usage].shipment in fates
    && var fate := fates[usages[pc.usage].shipment];
       && fate.stage == Underway && fate.saw.Saw? && fate.saw.usage == pc.usage
       && if pc.Read? then fate.saw == Saw(pc.usage, pc.state, pc.stamped) else fate.saw.state.Charged()
  }

  ghost predicate ReversalsInv(usages: seq<Usage>, fates: map<Uuid, Fate>, reversals: map<nat, ReversalPc>) {
    && (forall r :: r in reversals ==> ReversalOk(usages, fates, reversals[r]))
    && (forall a, b :: a in reversals && b in reversals && a != b ==> reversals[a].usage != reversals[b].usage)
  }

  ghost predicate BillingInv(s: Billing) {
    && UsagesInv(s.unit, s.cycle, s.began, s.usages) && CallsInv(s) && CallsApart(s.usages, s.calls)
    && SourcesInv(s.unit, |s.usages|, s.credits) && ConsumersInv(s.usages, s.credits, s.began)
    && FatesInv(s.usages, s.credits, s.fates) && ReversalsInv(s.usages, s.fates, s.reversals)
  }

  // ---- Calls --------------------------------------------------------------------------------------------------

  /** Nothing is known of a shipment no call was made for. */
  lemma Fresh(s: Billing, shipment: Uuid)
    requires BillingInv(s) && shipment !in s.began
    ensures NoUsage(s.usages, shipment) && Uncredited(s.credits, shipment) && NoCall(s.usages, s.calls, shipment)
  {
    hide FatesInv, ReversalsInv, SourcesInv;
    forall call | call in s.calls
      ensures About(s.usages, s.calls[call]) != Some(shipment)
    {
      assert CallOk(s, s.calls[call]);
    }
  }

  lemma SameSources(credits: seq<Credit>, credits': seq<Credit>, u: nat)
    requires |credits'| == |credits| && forall i :: 0 <= i < |credits| ==> credits'[i].source == credits[i].source
    ensures NotSource(credits', u) == NotSource(credits, u)
  {
  }

  lemma ConsumeKeepsTables(s: Billing, credits': seq<Credit>, shipment: Uuid, i: nat)
    requires BillingInv(s) && shipment !in s.began && i < |s.credits| && s.credits[i].consumedBy.None?
    requires credits' == s.credits[i := s.credits[i].(consumedBy := Some(shipment))]
    ensures SourcesInv(s.unit, |s.usages|, credits') && ConsumersInv(s.usages, credits', s.began + {shipment})
    ensures FatesInv(s.usages, credits', s.fates) && UsagesInv(s.unit, s.cycle, s.began + {shipment}, s.usages)
  {
    Fresh(s, shipment);
    hide CallsInv, CallsApart, ReversalsInv, FateOk;
    forall u: nat
      ensures NotSource(credits', u) == NotSource(s.credits, u)
    {
      SameSources(s.credits, credits', u);
    }
    hide NotSource;
  }

  lemma ConsumeKeeps(s: Billing, shipment: Uuid, i: nat)
    requires BillingInv(s) && shipment !in s.began && i < |s.credits| && s.credits[i].consumedBy.None?
    ensures BillingInv(s.(credits := s.credits[i := s.credits[i].(consumedBy := Some(shipment))],
                          began := s.began + {shipment}))
  {
    var s' := s.(credits := s.credits[i := s.credits[i].(consumedBy := Some(shipment))], began := s.began + {shipment});
    ConsumeKeepsTables(s, s'.credits, shipment, i);
    hide SourcesInv, ConsumersInv, UsagesInv, FatesInv, ReversalsInv, NoUsage, CallsApart;
    forall c | c in s'.calls
      ensures CallOk(s', s'.calls[c])
    {
      assert CallOk(s, s.calls[c]);
      assert About(s.usages, s.calls[c]) != Some(shipment) by { Fresh(s, shipment); }
    }
  }

  lemma ChargeKeeps(s: Billing, call: nat, shipment: Uuid)
    requires BillingInv(s) && shipment !in s.began && call !in s.calls
    ensures BillingInv(s.(calls := s.calls[call := Uncovered(shipment, s.cycle)], began := s.began + {shipment}))
  {
    Fresh(s, shipment);
    var s' := s.(calls := s.calls[call := Uncovered(shipment, s.cycle)], began := s.began + {shipment});
    hide SourcesInv, FatesInv, ReversalsInv, NoUsage, Uncredited;
    forall c | c in s'.calls
      ensures CallOk(s', s'.calls[c])
    {
      assert c != call ==> CallOk(s, s.calls[c]);
    }
  }

  lemma BeginKeeps(s: Billing, call: nat, shipment: Uuid, credit: Option<nat>)
    requires BillingInv(s) && shipment !in s.began
    ensures BillingInv(Begin(s, call, shipment, credit))
  {
    hide BillingInv;
    if call !in s.calls && s.unit != 0 {
      if credit.Some? && credit.value < |s.credits| && s.credits[credit.value].consumedBy.None? {
        ConsumeKeeps(s, shipment, credit.value);
      } else {
        ChargeKeeps(s, call, shipment);
      }
    }
  }

  lemma CheckKeeps(s: Billing, call: nat)
    requires BillingInv(s)
    ensures BillingInv(Check(s, call))
  {
    hide ChargedSince, NoUsage, Uncredited, SourcesInv, ConsumersInv, UsagesInv, FatesInv, ReversalsInv;
    EndKeeps(s, call);
  }

  lemma EndKeeps(s: Billing, call: nat)
    requires BillingInv(s)
    ensures BillingInv(EndCall(s, call))
  {
    hide NoUsage, Uncredited, SourcesInv, ConsumersInv, UsagesInv, FatesInv, ReversalsInv;
  }

  // ---- Rows ---------------------------------------------------------------------------------------------------

  /** One row changes in state, stamp or sends. */
  ghost predicate RowChanges(usages: seq<Usage>, usages': seq<Usage>, u: nat) {
    && |usages'| == |usages| && u < |usages| && usages' == usages[u := usages'[u]]
    && usages'[u].shipment == usages[u].shipment && usages'[u].amount == usages[u].amount
       && usages'[u].cycle == usages[u].cycle
    && usages'[u].sends <= 1
  }

  lemma SameShipments(usages: seq<Usage>, usages': seq<Usage>, x: Uuid)
    requires |usages'| == |usages| && forall i :: 0 <= i < |usages| ==> usages'[i].shipment == usages[i].shipment
    ensures NoUsage(usages, x) == NoUsage(usages', x)
  {
  }

  /** What a changed row leaves as it was; its fate is the caller's to show. */
  lemma RowChangeKeeps(s: Billing, usages': seq<Usage>, u: nat)
    requires BillingInv(s) && RowChanges(s.usages, usages', u)
    ensures UsagesInv(s.unit, s.cycle, s.began, usages') && ConsumersInv(usages', s.credits, s.began)
    ensures forall x :: NoUsage(s.usages, x) == NoUsage(usages', x)
    ensures forall pc :: About(usages', pc) == About(s.usages, pc)
    ensures FateOk(usages'[u], u, FateOf(s.fates, s.usages[u].shipment), NotSource(s.credits, u)) ==>
              FatesInv(usages', s.credits, s.fates)
    ensures ReversalsInv(usages', s.fates, s.reversals)
  {
    hide CallsInv, CallsApart, FateOk, NotSource;
    forall x
      ensures NoUsage(s.usages, x) == NoUsage(usages', x)
    {
      SameShipments(s.usages, usages', x);
    }
    hide NoUsage;
  }

  lemma OtherCallKeeps(s: Billing, s': Billing, call: nat, u: nat, c: nat)
    requires BillingInv(s) && RowChanges(s.usages, s'.usages, u) && s' == s.(usages := s'.usages, calls := s'.calls)
    requires call in s.calls && About(s.usages, s.calls[call]) == Some(s.usages[u].shipment) && c in s.calls
    requires c != call
    ensures CallOk(s', s.calls[c])
  {
    RowChangeKeeps(s, s'.usages, u);
    hide SourcesInv, ConsumersInv, UsagesInv, NoUsage, Uncredited, FatesInv, ReversalsInv, FateOk;
    assert CallOk(s, s.calls[c]) && About(s.usages, s.calls[c]) != About(s.usages, s.calls[call]);
  }

  /** A call moves on with its row: afterwards it has sent it, or it is gone. */
  lemma CallRowKeeps(s: Billing, call: nat, usages': seq<Usage>, u: nat, calls': map<nat, CallPc>)
    requires BillingInv(s) && RowChanges(s.usages, usages', u) && call in s.calls
    requires About(s.usages, s.calls[call]) == Some(s.usages[u].shipment)
    requires calls' == s.calls - {call} || (Awaiting(usages'[u]) && calls' == s.calls[call := Sent(u)])
    requires FateOk(usages'[u], u, FateOf(s.fates, s.usages[u].shipment), NotSource(s.credits, u))
    ensures BillingInv(s.(usages := usages', calls := calls'))
  {
    RowChangeKeeps(s, usages', u);
    var s' := s.(usages := usages', calls := calls');
    forall c | c in s.calls && c != call
      ensures CallOk(s', s.calls[c])
    {
      OtherCallKeeps(s, s', call, u, c);
    }
    assert forall c :: c in calls' ==> c in s.calls && About(usages', calls'[c]) == About(s.usages, s.calls[c]);
    assert calls' == s.calls[call := Sent(u)] ==> CallOk(s', Sent(u));
    hide SourcesInv, ConsumersInv, UsagesInv, FatesInv, ReversalsInv, CallOk, About, RowChanges, FateOk, NotSource;
  }

  /** A submission's row: its reversal, if there was one, read it pending and unstamped. */
  lemma AwaitingFate(s: Billing, call: nat)
    requires BillingInv(s) && call in s.calls && (s.calls[call].Holding? || s.calls[call].Sent?)
    ensures var u := s.calls[call].usage;
            && u < |s.usages| && Awaiting(s.usages[u]) && s.usages[u].sends <= 1
               && (s.calls[call].Holding? ==> s.usages[u].sends == 0)
            && var fate := FateOf(s.fates, s.usages[u].shipment);
               && FateOk(s.usages[u], u, fate, NotSource(s.credits, u))
               && (fate.Some? && fate.value.saw.Saw? ==> fate.value.saw == Saw(u, Pending, false))
  {
    hide SourcesInv, ConsumersInv, ReversalsInv, CallsApart, NotSource;
    assert CallOk(s, s.calls[call]);
  }

  lemma SendKeeps(s: Billing, call: nat)
    requires BillingInv(s)
    ensures BillingInv(Send(s, call))
  {
    if call in s.calls && s.calls[call].Holding? {
      hide BillingInv, NotSource;
      AwaitingFate(s, call);
      CallRowKeeps(s, call, Send(s, call).usages, s.calls[call].usage, Send(s, call).calls);
    }
  }

  lemma AnswerKeeps(s: Billing, call: nat, reply: ShopifyReply)
    requires BillingInv(s)
    ensures BillingInv(Answer(s, call, reply))
  {
    if call in s.calls && s.calls[call].Sent? {
      hide BillingInv, NotSource;
      AwaitingFate(s, call);
      var s' := Answer(s, call, reply);
      CallRowKeeps(s, call, s'.usages, s.calls[call].usage, s'.calls);
      Uncounted(s.(usages := s'.usages, calls := s'.calls), s'.revived);
    }
  }

  lemma Uncounted(s: Billing, revived: nat)
    requires BillingInv(s)
    ensures BillingInv(s.(revived := revived))
  {
    hide SourcesInv, ConsumersInv, UsagesInv, FatesInv, ReversalsInv, CallsApart, NoUsage, Uncredited, Awaiting;
    forall c | c in s.calls
      ensures CallOk(s.(revived := revived), s.calls[c])
    {
      assert CallOk(s, s.calls[c]);
    }
  }

  /** A row no submission waits for changes. */
  lemma SettledRowKeeps(s: Billing, usages': seq<Usage>, u: nat)
    requires BillingInv(s) && RowChanges(s.usages, usages', u)
    requires (Awaiting(s.usages[u]) ==> Awaiting(usages'[u]) && usages'[u].sends == s.usages[u].sends)
    requires FateOk(usages'[u], u, FateOf(s.fates, s.usages[u].shipment), NotSource(s.credits, u))
    ensures BillingInv(s.(usages := usages'))
  {
    RowChangeKeeps(s, usages', u);
    var s' := s.(usages := usages');
    hide SourcesInv, ConsumersInv, UsagesInv, NoUsage, Uncredited, FatesInv, ReversalsInv, FateOk;
    forall c | c in s'.calls
      ensures CallOk(s', s'.calls[c])
    {
      assert CallOk(s, s.calls[c]);
    }
  }

  lemma AcceptKeeps(s: Billing, u: nat)
    requires BillingInv(s)
    ensures BillingInv(Accept(s, u))
  {
    if u < |s.usages| && s.usages[u].state == Submitted {
      assert FateOk(s.usages[u], u, FateOf(s.fates, s.usages[u].shipment), NotSource(s.credits, u))
             && s.usages[u].sends <= 1;
      hide BillingInv, NotSource;
      SettledRowKeeps(s, Accept(s, u).usages, u);
    }
  }

  // ---- The INSERT ---------------------------------------------------------------------------------------------

  /** The tables after the INSERT of a record for a shipment with no record and no consumed credit. */
  lemma AppendKeepsTables(s: Billing, row: Usage)
    requires BillingInv(s) && NoUsage(s.usages, row.shipment) && Uncredited(s.credits, row.shipment)
    requires row.shipment in s.began
    requires row.amount == s.unit && row.cycle == s.cycle && row.sends == 0
    ensures var usages' := s.usages + [row];
            && UsagesInv(s.unit, s.cycle, s.began, usages') && SourcesInv(s.unit, |usages'|, s.credits)
            && ConsumersInv(usages', s.credits, s.began)
            && forall x :: x != row.shipment && NoUsage(s.usages, x) ==> NoUsage(usages', x)
  {
    hide CallsInv, CallsApart, ReversalsInv, FatesInv;
  }

  lemma AppendKeepsFates(s: Billing, row: Usage)
    requires BillingInv(s) && NoUsage(s.usages, row.shipment) && row.state == Pending
    ensures FatesInv(s.usages + [row], s.credits, s.fates) && ReversalsInv(s.usages + [row], s.fates, s.reversals)
  {
    hide CallsInv, CallsApart, ConsumersInv, UsagesInv;
    var usages' := s.usages + [row];
    assert NotSource(s.credits, |s.usages|);
    hide SourcesInv, NotSource;
    forall i | 0 <= i < |usages'|
      ensures FateOk(usages'[i], i, FateOf(s.fates, usages'[i].shipment), NotSource(s.credits, i))
    {
      if i < |s.usages| {
        assert FateOk(s.usages[i], i, FateOf(s.fates, s.usages[i].shipment), NotSource(s.credits, i));
      }
    }
    hide FateOk;
  }

  lemma InsertedCalls(s: Billing, s': Billing, call: nat, x: Uuid, row: Usage, c: nat)
    requires BillingInv(s) && call in s.calls && s.calls[call].Checked? && s.calls[call].shipment == x
    requires row.shipment == x
    requires s' == s.(usages := s.usages + [row], calls := s.calls[call := Holding(|s.usages|)])
    requires forall y :: y != x && NoUsage(s.usages, y) ==> NoUsage(s'.usages, y)
    requires c in s.calls && c != call
    ensures CallOk(s', s.calls[c]) && About(s'.usages, s.calls[c]) == About(s.usages, s.calls[c])
  {
    hide SourcesInv, ConsumersInv, UsagesInv, Uncredited, NoUsage, ReversalsInv, FatesInv;
    assert CallOk(s, s.calls[c]) && About(s.usages, s.calls[c]) != About(s.usages, s.calls[call]);
  }

  lemma InsertKeeps(s: Billing, call: nat)
    requires BillingInv(s)
    ensures BillingInv(InsertRow(s, call))
  {
    EndKeeps(s, call);
    if call in s.calls && s.calls[call].Checked? && !KeyTaken(s.usages, s.calls[call].shipment, s.calls[call].cycle) {
      hide KeyTaken;
      var pc, s' := s.calls[call], InsertRow(s, call);
      var row := Usage(pc.shipment, pc.cycle, s.cycle, s.unit, Pending, false, 0);
      assert CallOk(s, pc);
      AppendKeepsTables(s, row);
      AppendKeepsFates(s, row);
      forall c | c in s.calls && c != call
        ensures CallOk(s', s.calls[c]) && About(s'.usages, s.calls[c]) == About(s.usages, s.calls[c])
      {
        InsertedCalls(s, s', call, pc.shipment, row, c);
      }
      assert CallOk(s', s'.calls[call]) && About(s'.usages, s'.calls[call]) == Some(pc.shipment);
      hide SourcesInv, ConsumersInv, UsagesInv, Uncredited, FatesInv, ReversalsInv, NoUsage, CallOk, About;
    }
  }

  // ---- Reversals ----------------------------------------------------------------------------------------------

  /** Moves that touch neither records nor calls. */
  lemma ReversalMoves(s: Billing, s': Billing)
    requires BillingInv(s)
    requires s' == s.(credits := s'.credits, reversals := s'.reversals, fates := s'.fates)
    requires SourcesInv(s.unit, |s.usages|, s'.credits) && ConsumersInv(s.usages, s'.credits, s.began)
    requires forall x :: Uncredited(s.credits, x) ==> Uncredited(s'.credits, x)
    requires FatesInv(s.usages, s'.credits, s'.fates) && ReversalsInv(s.usages, s'.fates, s'.reversals)
    ensures BillingInv(s')
  {
    hide SourcesInv, ConsumersInv, UsagesInv, FatesInv, ReversalsInv, CallsApart, NoUsage, Uncredited, Awaiting;
    forall c | c in s'.calls
      ensures CallOk(s', s'.calls[c])
    {
      assert CallOk(s, s.calls[c]);
    }
  }

  lemma {:induction false} NewestExists(usages: seq<Usage>, shipment: Uuid)
    ensures NoUsage(usages, shipment) || exists u: nat :: Newest(usages, shipment, u)
  {
    if usages != [] {
      var n := |usages| - 1;
      NewestExists(usages[..n], shipment);
      if usages[n].shipment == shipment {
        assert Newest(usages, shipment, n);
      } else if u: nat :| Newest(usages[..n], shipment, u) {
        assert Newest(usages, shipment, u);
      }
    }
  }

  lemma NewestIs(usages: seq<Usage>, shipment: Uuid, u: nat)
    requires Newest(usages, shipment, u)
    ensures u < |usages| && usages[u].shipment == shipment
  {
  }

  lemma NewestUnique(usages: seq<Usage>, shipment: Uuid, u: nat, v: nat)
    requires Newest(usages, shipment, u) && Newest(usages, shipment, v)
    ensures u == v
  {
  }

  lemma MissesKeeps(s: Billing, shipment: Uuid)
    requires BillingInv(s) && shipment !in s.fates && NoUsage(s.usages, shipment)
    ensures BillingInv(s.(fates := s.fates[shipment := Fate(NoRecord, Finished)]))
  {
    hide SourcesInv, ConsumersInv, UsagesInv, CallsInv, CallsApart, FateOk, NotSource;
    var s' := s.(fates := s.fates[shipment := Fate(NoRecord, Finished)]);
    assert forall i :: 0 <= i < |s.usages| ==>
             FateOf(s'.fates, s.usages[i].shipment) == FateOf(s.fates, s.usages[i].shipment);
    hide FateOf, NoUsage;
    ReversalMoves(s, s');
  }

  lemma ReadKeeps(s: Billing, reversal: nat, u: nat)
    requires BillingInv(s) && reversal !in s.reversals && u < |s.usages| && s.usages[u].shipment !in s.fates
    ensures var row := s.usages[u];
            BillingInv(s.(reversals := s.reversals[reversal := Read(u, row.state, row.stamped)],
                          fates := s.fates[row.shipment := Fate(Saw(u, row.state, row.stamped), Underway)]))
  {
    var row := s.usages[u];
    var s' := s.(reversals := s.reversals[reversal := Read(u, row.state, row.stamped)],
                 fates := s.fates[row.shipment := Fate(Saw(u, row.state, row.stamped), Underway)]);
    hide SourcesInv, ConsumersInv, CallsInv, CallsApart, NotSource;
    forall i | 0 <= i < |s.usages|
      ensures FateOk(s.usages[i], i, FateOf(s'.fates, s.usages[i].shipment), NotSource(s.credits, i))
    {
      assert FateOk(s.usages[i], i, FateOf(s.fates, s.usages[i].shipment), NotSource(s.credits, i));
    }
    hide FateOk, UsagesInv;
    ReversalMoves(s, s');
  }

  lemma ReverseKeeps(s: Billing, reversal: nat, shipment: Uuid)
    requires BillingInv(s) && shipment !in s.fates
    ensures BillingInv(Reverse(s, reversal, shipment))
  {
    hide BillingInv, Newest;
    if reversal !in s.reversals {
      if exists u: nat :: Newest(s.usages, shipment, u) {
        var u := Reverse(s, reversal, shipment).reversals[reversal].usage;
        assert Newest(s.usages, shipment, u);
        NewestIs(s.usages, shipment, u);
        ReadKeeps(s, reversal, u);
      } else {
        NewestExists(s.usages, shipment);
        MissesKeeps(s, shipment);
      }
    }
  }

  lemma ReversalFate(s: Billing, reversal: nat)
    requires BillingInv(s) && reversal in s.reversals
    ensures var u := s.reversals[reversal].usage;
            && u < |s.usages| && ReversalOk(s.usages, s.fates, s.reversals[reversal])
            && FateOk(s.usages[u], u, Some(s.fates[s.usages[u].shipment]), NotSource(s.credits, u))
               && NotSource(s.credits, u)
  {
    hide SourcesInv, ConsumersInv, UsagesInv, CallsInv, CallsApart;
    assert ReversalOk(s.usages, s.fates, s.reversals[reversal]);
    assert FateOk(s.usages[s.reversals[reversal].usage], s.reversals[reversal].usage,
                  FateOf(s.fates, s.usages[s.reversals[reversal].usage].shipment),
                      NotSource(s.credits, s.reversals[reversal].usage));
    hide NotSource;
  }

  /** A reversal ends with row `u` as `row'` and the credits as `credits'`. */
  lemma EndKeepsFates(s: Billing, reversal: nat, row': Usage, credits': seq<Credit>, stage: Stage)
    requires BillingInv(s) && reversal in s.reversals
    requires var u := s.reversals[reversal].usage;
             && u < |s.usages| && row'.shipment == s.usages[u].shipment && row'.shipment in s.fates
             && FateOk(row', u, Some(s.fates[row'.shipment].(stage := stage)), NotSource(credits', u))
             && (forall v: nat :: v != u ==> NotSource(credits', v) == NotSource(s.credits, v))
    ensures var u := s.reversals[reversal].usage;
            var fates' := s.fates[row'.shipment := s.fates[row'.shipment].(stage := stage)];
            FatesInv(s.usages[u := row'], credits', fates')
                && ReversalsInv(s.usages[u := row'], fates', s.reversals - {reversal})
  {
    hide SourcesInv, ConsumersInv, CallsInv, CallsApart, NotSource;
    var u := s.reversals[reversal].usage;
    var usages', fates' := s.usages[u := row'], s.fates[row'.shipment := s.fates[row'.shipment].(stage := stage)];
    assert ReversalOk(s.usages, s.fates, s.reversals[reversal]);
    assert FatesInv(usages', credits', fates') by {
      hide ReversalsInv;
      forall i | 0 <= i < |usages'|
        ensures FateOk(usages'[i], i, FateOf(fates', usages'[i].shipment), NotSource(credits', i))
      {
        if i != u {
          assert FateOk(s.usages[i], i, FateOf(s.fates, s.usages[i].shipment), NotSource(s.credits, i));
        }
      }
    }
    hide FateOk, FatesInv;
    forall r | r in s.reversals && r != reversal
      ensures ReversalOk(usages', fates', s.reversals[r])
    {
      assert ReversalOk(s.usages, s.fates, s.reversals[r]) && s.reversals[r].usage != u;
    }
  }

  lemma FinishKeeps(s: Billing, reversal: nat, stage: Stage)
    requires BillingInv(s) && reversal in s.reversals && stage != Underway
    requires stage == Crashed || (s.reversals[reversal].Read? && !s.reversals[reversal].state.Charged()
                                  && (s.reversals[reversal].state == Pending ==> s.reversals[reversal].stamped))
    ensures s.reversals[reversal].usage < |s.usages|
    ensures BillingInv(EndReversal(s, reversal, s.reversals[reversal].usage, stage))
  {
    ReversalFate(s, reversal);
    var u := s.reversals[reversal].usage;
    var s' := EndReversal(s, reversal, u, stage);
    EndKeepsFates(s, reversal, s.usages[u], s.credits, stage);
    assert s.usages[u := s.usages[u]] == s.usages;
    hide FatesInv, ReversalsInv, UsagesInv, CallsInv, CallsApart, FateOk, ReversalOk, NotSource;
    ReversalMoves(s, s');
  }

  /** REVERSED, whatever the row has become since it was read. */
  lemma MarkReversedKeeps(s: Billing, reversal: nat)
    requires BillingInv(s) && reversal in s.reversals && s.reversals[reversal].Read?
    requires s.reversals[reversal].state == Pending && !s.reversals[reversal].stamped
    ensures var u := s.reversals[reversal].usage;
            && u < |s.usages|
            && BillingInv(EndReversal(s, reversal, u, Finished)
                          .(usages := s.usages[u := s.usages[u].(state := Reversed)]))
  {
    ReversalFate(s, reversal);
    var u := s.reversals[reversal].usage;
    var row' := s.usages[u].(state := Reversed);
    var s' := EndReversal(s, reversal, u, Finished).(usages := s.usages[u := row']);
    EndKeepsFates(s, reversal, row', s.credits, Finished);
    assert s.usages[u].sends <= 1;
    MarkedRest(s, s', u);
  }

  lemma MarkedRest(s: Billing, s': Billing, u: nat)
    requires BillingInv(s) && u < |s.usages| && s'.usages == s.usages[u := s.usages[u].(state := Reversed)]
    requires s.usages[u].sends <= 1
    requires s' == s.(usages := s'.usages, reversals := s'.reversals, fates := s'.fates)
    requires FatesInv(s'.usages, s.credits, s'.fates) && ReversalsInv(s'.usages, s'.fates, s'.reversals)
    ensures BillingInv(s')
  {
    assert RowChanges(s.usages, s'.usages, u);
    RowChangeKeeps(s, s'.usages, u);
    hide SourcesInv, ConsumersInv, UsagesInv, NoUsage, Uncredited, FatesInv, ReversalsInv, FateOk;
    forall c | c in s'.calls
      ensures CallOk(s', s'.calls[c])
    {
      assert CallOk(s, s.calls[c]);
    }
  }

  /** Nobody else holds a credit of a row whose reversal is under way, so the charged row goes on to the INSERT. */
  lemma ChargedGoesOn(s: Billing, reversal: nat)
    requires BillingInv(s) && reversal in s.reversals && s.reversals[reversal].Read?
    requires s.reversals[reversal].state.Charged()
    ensures var s' := Act(s, reversal);
            BillingInv(s') && s' == s.(reversals := s.reversals[reversal := Crediting(s.reversals[reversal].usage)])
  {
    ReversalFate(s, reversal);
    var u := s.reversals[reversal].usage;
    var s' := s.(reversals := s.reversals[reversal := Crediting(u)]);
    assert Act(s, reversal) == s';
    hide Act, SourcesInv, ConsumersInv, UsagesInv, CallsInv, CallsApart, FatesInv, FateOk, NotSource;
    assert ReversalsInv(s.usages, s'.fates, s'.reversals);
    hide ReversalsInv;
    ReversalMoves(s, s');
  }

  lemma ActKeeps(s: Billing, reversal: nat)
    requires BillingInv(s)
    ensures BillingInv(Act(s, reversal))
  {
    if reversal in s.reversals && s.reversals[reversal].Read? {
      var pc := s.reversals[reversal];
      hide BillingInv;
      if pc.state == Pending && !pc.stamped {
        MarkReversedKeeps(s, reversal);
      } else if pc.state.Charged() {
        ChargedGoesOn(s, reversal);
      } else {
        FinishKeeps(s, reversal, Finished);
      }
    }
  }

  lemma HoldKeepsTables(s: Billing, u: nat)
    requires BillingInv(s) && u < |s.usages| && NotSource(s.credits, u)
    ensures var credits' := s.credits + [Credit(u, -(s.unit as int), None)];
            && SourcesInv(s.unit, |s.usages|, credits') && ConsumersInv(s.usages, credits', s.began)
            && (forall x :: Uncredited(s.credits, x) ==> Uncredited(credits', x))
            && (forall v: nat :: v != u ==> NotSource(credits', v) == NotSource(s.credits, v))
               && !NotSource(credits', u)
  {
    hide CallsInv, CallsApart, ReversalsInv, FatesInv, UsagesInv, NoUsage;
    var credits' := s.credits + [Credit(u, -(s.unit as int), None)];
    assert credits'[|s.credits|].source == u;
    forall v: nat | v != u
      ensures NotSource(credits', v) == NotSource(s.credits, v)
    {
      assert forall i :: 0 <= i < |s.credits| ==> credits'[i] == s.credits[i];
    }
  }

  lemma HoldKeeps(s: Billing, reversal: nat)
    requires BillingInv(s)
    ensures BillingInv(Hold(s, reversal))
  {
    if reversal in s.reversals && s.reversals[reversal].Crediting? {
      ReversalFate(s, reversal);
      var s', u := Hold(s, reversal), s.reversals[reversal].usage;
      assert s.usages[u].amount == s.unit;
      HoldKeepsTables(s, u);
      EndKeepsFates(s, reversal, s.usages[u], s'.credits, Finished);
      assert s.usages[u := s.usages[u]] == s.usages;
      hide FatesInv, ReversalsInv, UsagesInv, CallsInv, CallsApart, FateOk, ReversalOk, NotSource, Uncredited;
      hide SourcesInv, ConsumersInv;
      ReversalMoves(s, s');
    }
  }

  lemma AbandonKeeps(s: Billing, reversal: nat)
    requires BillingInv(s)
    ensures BillingInv(AbandonReversal(s, reversal))
  {
    hide BillingInv;
    if reversal in s.reversals {
      FinishKeeps(s, reversal, Crashed);
    }
  }

  lemma CycleKeeps(s: Billing)
    requires BillingInv(s)
    ensures BillingInv(s.(cycle := s.cycle + 1))
  {
    hide SourcesInv, ConsumersInv, NoUsage, Uncredited, FatesInv, ReversalsInv;
    var s' := s.(cycle := s.cycle + 1);
    forall c | c in s'.calls
      ensures CallOk(s', s'.calls[c])
    {
      assert CallOk(s, s.calls[c]);
    }
  }

  lemma NextKeeps(s: Billing, move: Move)
    requires BillingInv(s) && Disciplined(s, move)
    ensures BillingInv(Next(s, move))
  {
    hide BillingInv, Begin, Check, InsertRow, Send, Answer, Accept, Reverse, Act, Hold, EndCall, AbandonReversal;
    match move
    case BeginRecord(call, shipment, credit) => BeginKeeps(s, call, shipment, credit);
    case CheckCap(call) => CheckKeeps(s, call);
    case InsertUsage(call) => InsertKeeps(s, call);
    case SendUsage(call) => SendKeeps(s, call);
    case UsageAnswered(call, reply) => AnswerKeeps(s, call, reply);
    case CrashCall(call) => EndKeeps(s, call);
    case AcceptUsage(u) => AcceptKeeps(s, u);
    case BeginReversal(reversal, shipment) => ReverseKeeps(s, reversal, shipment);
    case ActOnUsage(reversal) => ActKeeps(s, reversal);
    case HoldCredit(reversal) => HoldKeeps(s, reversal);
    case CrashReversal(reversal) => AbandonKeeps(s, reversal);
    case NextCycle => CycleKeeps(s);
  }

  lemma {:induction false} BillKeeps(s: Billing, moves: seq<Move>)
    requires BillingInv(s) && DisciplinedRun(s, moves)
    ensures BillingInv(Bill(s, moves))
  {
    hide BillingInv, Next;
    if moves != [] {
      BillKeeps(s, moves[..|moves| - 1]);
      NextKeeps(Bill(s, moves[..|moves| - 1]), moves[|moves| - 1]);
    }
  }
}
