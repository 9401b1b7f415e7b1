/** Conservation, who is credited, and the cap, over every run of the overage machine. */
module OverageTheorems {
  import opened Wrappers
  import opened BookingSnapshot
  import opened Overage
  import opened OverageInvariant

  // ---- Conservation -------------------------------------------------------------------------------------------

  /** What the rows say Shopify charged. A row that was sent and then marked REVERSED is charged at Shopify and
      not counted here, so this is a lower bound of the charges. */
  function ShopifyTotal(usages: seq<Usage>): int {
    if usages == [] then 0
    else
      var last := usages[|usages| - 1];
      ShopifyTotal(usages[..|usages| - 1]) + if last.state.Charged() then last.amount else 0
  }

  function CreditTotal(credits: seq<Credit>): int {
    if credits == [] then 0 else CreditTotal(credits[..|credits| - 1]) + credits[|credits| - 1].amount
  }

  function ChargedRows(usages: seq<Usage>): set<nat> {
    set i: nat | i < |usages| && usages[i].state.Charged()
  }

  function Sources(credits: seq<Credit>): set<nat> {
    set i: nat | i < |credits| :: credits[i].source
  }

  lemma {:induction false} ShopifyTotalIs(unit: nat, usages: seq<Usage>)
    requires forall i :: 0 <= i < |usages| ==> usages[i].amount == unit
    ensures ShopifyTotal(usages) == |ChargedRows(usages)| * unit
  {
    if usages != [] {
      var n := |usages| - 1;
      ShopifyTotalIs(unit, usages[..n]);
      if usages[n].state.Charged() {
        assert ChargedRows(usages) == ChargedRows(usages[..n]) + {n};
        assert (|ChargedRows(usages[..n])| + 1) * unit == |ChargedRows(usages[..n])| * unit + unit;
      } else {
        assert ChargedRows(usages) == ChargedRows(usages[..n]);
      }
    }
  }

  lemma {:induction false} CreditTotalIs(unit: nat, credits: seq<Credit>)
    requires forall i :: 0 <= i < |credits| ==> credits[i].amount == -(unit as int)
    requires forall i, j :: 0 <= i < j < |credits| ==> credits[i].source != credits[j].source
    ensures CreditTotal(credits) == -(|Sources(credits)| * unit)
  {
    if credits != [] {
      var n := |credits| - 1;
      CreditTotalIs(unit, credits[..n]);
      assert Sources(credits) == Sources(credits[..n]) + {credits[n].source};
      assert credits[n].source !in Sources(credits[..n]);
      assert (|Sources(credits[..n])| + 1) * unit == |Sources(credits[..n])| * unit + unit;
    }
  }

  lemma SubsetSmaller(a: set<nat>, b: set<nat>, unit: nat)
    requires a <= b
    ensures |a| * unit <= |b| * unit
  {
    assert b == a + (b - a);
    assert |b| == |a| + |b - a|;
    assert (|a| + |b - a|) * unit == |a| * unit + |b - a| * unit;
  }

  lemma CreditedIsCharged(s: Billing, i: nat)
    requires BillingInv(s) && i < |s.credits|
    ensures s.credits[i].source < |s.usages| && s.usages[s.credits[i].source].state.Charged()
  {
    hide CallsInv, CallsApart, ConsumersInv, UsagesInv, ReversalsInv;
    var u := s.credits[i].source;
    assert FateOk(s.usages[u], u, FateOf(s.fates, s.usages[u].shipment), NotSource(s.credits, u));
  }

  lemma NeverNegative(s: Billing)
    requires BillingInv(s)
    ensures ShopifyTotal(s.usages) + CreditTotal(s.credits) >= 0
  {
    hide CallsInv, CallsApart, ConsumersInv, ReversalsInv, FatesInv;
    ShopifyTotalIs(s.unit, s.usages);
    CreditTotalIs(s.unit, s.credits);
    forall i | 0 <= i < |s.credits|
      ensures s.credits[i].source in ChargedRows(s.usages)
    {
      CreditedIsCharged(s, i);
    }
    SubsetSmaller(Sources(s.credits), ChargedRows(s.usages), s.unit);
  }

  /** A shipment's overage is a usage record, or a consumed credit, or nothing. */
  ghost predicate OneOutcome(s: Billing) {
    && (forall i, j :: 0 <= i < j < |s.usages| ==> s.usages[i].shipment != s.usages[j].shipment)
    && (forall i, j :: 0 <= i < j < |s.credits| && s.credits[i].consumedBy.Some? ==>
        s.credits[i].consumedBy != s.credits[j].consumedBy)
    && (forall i, j :: 0 <= i < |s.usages| && 0 <= j < |s.credits| ==>
        s.credits[j].consumedBy != Some(s.usages[i].shipment))
  }

  /** Each credit is the exact negative of a record of its own that was charged. */
  ghost predicate CreditsExact(s: Billing) {
    && (forall i :: 0 <= i < |s.credits| ==>
          && s.credits[i].source < |s.usages| && s.usages[s.credits[i].source].state.Charged()
          && s.credits[i].amount == -(s.usages[s.credits[i].source].amount as int))
    && (forall i, j :: 0 <= i < j < |s.credits| ==> s.credits[i].source != s.credits[j].source)
  }

  ghost predicate SentOnce(s: Billing) {
    forall i :: 0 <= i < |s.usages| ==> s.usages[i].sends <= 1
  }

  lemma InvConserves(s: Billing)
    requires BillingInv(s)
    ensures OneOutcome(s) && CreditsExact(s) && SentOnce(s) && ShopifyTotal(s.usages) + CreditTotal(s.credits) >= 0
  {
    NeverNegative(s);
    hide CallsInv, CallsApart, FatesInv, ReversalsInv, ShopifyTotal, CreditTotal;
    forall i | 0 <= i < |s.credits|
      ensures s.credits[i].source < |s.usages| && s.usages[s.credits[i].source].state.Charged()
    {
      CreditedIsCharged(s, i);
    }
  }

  lemma EmptyInv(s: Billing)
    requires s.usages == [] && s.credits == [] && s.calls == map[] && s.reversals == map[] && s.fates == map[]
    ensures BillingInv(s)
  {
    hide CallOk, ReversalOk, About, NoUsage, FateOk;
  }

  lemma OpeningInv(unit: nat, cap: nat)
    ensures BillingInv(Opening(unit, cap))
  {
    hide BillingInv;
    EmptyInv(Opening(unit, cap));
  }

  /** A state that disciplined callers can reach. */
  ghost predicate Billable(s: Billing) {
    exists unit, cap, moves :: DisciplinedRun(Opening(unit, cap), moves) && s == Bill(Opening(unit, cap), moves)
  }

  lemma BillableInv(s: Billing)
    requires Billable(s)
    ensures BillingInv(s)
  {
    hide BillingInv, Bill, DisciplinedRun;
    var unit, cap, moves :| DisciplinedRun(Opening(unit, cap), moves) && s == Bill(Opening(unit, cap), moves);
    OpeningInv(unit, cap);
    BillKeeps(Opening(unit, cap), moves);
  }

  /** Over every interleaving of recordings, submissions, crashes and reversals: one outcome per shipment, one
      submission per record, one exact credit per charged record, and never less than nothing in total. */
  lemma Conservation(s: Billing)
    requires Billable(s)
    ensures OneOutcome(s) && CreditsExact(s) && SentOnce(s)
    ensures ShopifyTotal(s.usages) + CreditTotal(s.credits) >= 0
  {
    hide Billable, BillingInv, OneOutcome, CreditsExact, SentOnce, ShopifyTotal, CreditTotal;
    BillableInv(s);
    InvConserves(s);
  }

  // ---- Who is credited ----------------------------------------------------------------------------------------

  /** The reversal of a shipment is over. */
  predicate ReversalOver(s: Billing, shipment: Uuid) {
    shipment in s.fates && s.fates[shipment].stage != Underway
  }

  /** Once the reversal of its shipment is over, a record has its credit if and only if the reversal read it
      SUBMITTED or ACCEPTED and did not crash; and it has no second one. */
  lemma CreditedExactly(s: Billing, u: nat)
    requires Billable(s) && u < |s.usages| && ReversalOver(s, s.usages[u].shipment)
    ensures var fate := s.fates[s.usages[u].shipment];
            !NotSource(s.credits, u) <==> fate.saw.Saw? && fate.saw.state.Charged() && fate.stage == Finished
    ensures forall i, j ::
              0 <= i < |s.credits| && 0 <= j < |s.credits| && s.credits[i].source == s.credits[j].source == u ==>
                i == j
  {
    hide Billable, NotSource;
    BillableInv(s);
    assert FateOk(s.usages[u], u, FateOf(s.fates, s.usages[u].shipment), NotSource(s.credits, u));
  }

  /** What a reversal may have read of a record that was sent and is left without a credit. */
  datatype Missed = NotInserted | ReadUnstamped | ReadStamped | ReadRefused | ReversalCrashed

  predicate MissedBy(fate: Fate, why: Missed) {
    match why
    case NotInserted => fate.saw == NoRecord
    case ReadUnstamped => fate.saw.Saw? && fate.saw.state == Pending && !fate.saw.stamped
    case ReadStamped => fate.saw.Saw? && fate.saw.state == Pending && fate.saw.stamped
    case ReadRefused => fate.saw.Saw? && fate.saw.state == Refused
    case ReversalCrashed => fate.stage == Crashed
  }

  /** A record sent to Shopify ends without a credit exactly when its shipment's reversal ran before the
      record was inserted, read it PENDING (unstamped or stamped), read it REFUSED, or crashed; and what
      became of the record in each case. */
  lemma SentWithoutCreditExactly(s: Billing, u: nat)
    requires Billable(s) && u < |s.usages| && s.usages[u].sends == 1 && ReversalOver(s, s.usages[u].shipment)
    ensures var fate := s.fates[s.usages[u].shipment];
            && (NotSource(s.credits, u) <==> exists why :: MissedBy(fate, why))
            && (MissedBy(fate, ReadRefused) ==> s.usages[u].state == Refused)
            && (MissedBy(fate, ReadStamped) ==> s.usages[u].state == Pending && s.usages[u].stamped)
            && (MissedBy(fate, ReadUnstamped) && fate.stage == Finished ==> s.usages[u].state != Pending)
  {
    hide Billable, NotSource;
    BillableInv(s);
    CreditedExactly(s, u);
    assert FateOk(s.usages[u], u, FateOf(s.fates, s.usages[u].shipment), NotSource(s.credits, u));
    hide BillingInv;
    var fate := s.fates[s.usages[u].shipment];
    assert MissedBy(fate, NotInserted) || MissedBy(fate, ReadUnstamped) || MissedBy(fate, ReadStamped)
           || MissedBy(fate, ReadRefused)
           || MissedBy(fate, ReversalCrashed) || (fate.saw.Saw? && fate.saw.state.Charged() && fate.stage == Finished);
  }

  /** So a charge that stands on the books of a reversed shipment lacks its credit exactly when the reversal
      ran before the INSERT, read the record before its stamp, or crashed. */
  lemma ChargedWithoutCreditExactly(s: Billing, u: nat)
    requires Billable(s) && u < |s.usages| && s.usages[u].state.Charged() && ReversalOver(s, s.usages[u].shipment)
    ensures var fate := s.fates[s.usages[u].shipment];
            NotSource(s.credits, u) <==> MissedBy(fate, NotInserted) || MissedBy(fate, ReadUnstamped)
                                         || MissedBy(fate, ReversalCrashed)
  {
    hide Billable, NotSource;
    BillableInv(s);
    CreditedExactly(s, u);
    assert FateOk(s.usages[u], u, FateOf(s.fates, s.usages[u].shipment), NotSource(s.credits, u));
  }

  /** The reversal of row `i` read it pending and unstamped; its UPDATE names the id only. */
  predicate ReadEarly(s: Billing, i: nat)
    requires i < |s.usages|
  {
    s.usages[i].shipment in s.fates && s.fates[s.usages[i].shipment].saw == Saw(i, Pending, false)
  }

  ghost predicate RowEvolves(s: Billing, s': Billing, i: nat)
    requires i < |s.usages| && i < |s'.usages|
  {
    var row, row' := s.usages[i], s'.usages[i];
    && row'.shipment == row.shipment && row'.amount == row.amount && row.sends <= row'.sends
    && (!ReadEarly(s', i) ==>
          (row.state.Charged() ==> row'.state.Charged())
              && (row.state in {Accepted, Refused} ==> row'.state == row.state))
    && (NoCall(s.usages, s.calls, row.shipment) ==>
          NoCall(s'.usages, s'.calls, row.shipment) && (row.state == Reversed ==> row'.state == Reversed))
  }

  /** Records and credits are never lost and a consumed credit stays with its consumer. A final state is final,
      except that a reversal which had read the row unstamped may overwrite it, and REVERSED, except that the
      answer to a submission still under way may. */
  ghost predicate LedgerEvolves(s: Billing, s': Billing) {
    && |s.usages| <= |s'.usages| && |s.credits| <= |s'.credits| && s.began <= s'.began
    && (forall x :: x in s.fates ==> x in s'.fates && s'.fates[x].saw == s.fates[x].saw)
    && (forall i :: 0 <= i < |s.credits| ==>
          && s'.credits[i].source == s.credits[i].source && s'.credits[i].amount == s.credits[i].amount
          && (s.credits[i].consumedBy.Some? ==> s'.credits[i] == s.credits[i]))
    && forall i :: 0 <= i < |s.usages| ==> RowEvolves(s, s', i)
  }

  /** What the moves of calls leave of everybody else's. */
  lemma BeginEvolves(s: Billing, call: nat, shipment: Uuid, credit: Option<nat>)
    requires BillingInv(s) && shipment !in s.began
    ensures LedgerEvolves(s, Begin(s, call, shipment, credit))
  {
    hide CallsInv, CallsApart, SourcesInv, ConsumersInv, FatesInv, ReversalsInv;
    assert NoUsage(s.usages, shipment);
    hide BillingInv;
  }

  lemma SameAbout(usages: seq<Usage>, usages': seq<Usage>, pc: CallPc)
    requires |usages'| == |usages| && forall i :: 0 <= i < |usages| ==> usages'[i].shipment == usages[i].shipment
    ensures About(usages', pc) == About(usages, pc)
  {
  }

  /** Rows keep their shipments, calls end or stay about what they were; one row changes. */
  ghost predicate OneRow(s: Billing, s': Billing, u: nat) {
    && u < |s.usages| && |s'.usages| == |s.usages| && s'.usages == s.usages[u := s'.usages[u]]
    && s'.usages[u].shipment == s.usages[u].shipment && s'.usages[u].amount == s.usages[u].amount
       && s.usages[u].sends <= s'.usages[u].sends
    && s'.began == s.began && s'.credits == s.credits
    && (forall x :: x in s.fates ==> x in s'.fates && s'.fates[x].saw == s.fates[x].saw)
    && (forall c :: c in s'.calls ==> c in s.calls && About(s.usages, s'.calls[c]) == About(s.usages, s.calls[c]))
  }

  lemma OneRowNoCall(s: Billing, s': Billing, u: nat, x: Uuid)
    requires OneRow(s, s', u) && NoCall(s.usages, s.calls, x)
    ensures NoCall(s'.usages, s'.calls, x)
  {
    forall c | c in s'.calls
      ensures About(s'.usages, s'.calls[c]) == About(s.usages, s.calls[c])
    {
      SameAbout(s.usages, s'.usages, s'.calls[c]);
    }
    hide About;
  }

  /** The changed row is charged no more only if its reversal read it early, and leaves REVERSED only by an answer. */
  lemma OneRowEvolves(s: Billing, s': Billing, u: nat)
    requires OneRow(s, s', u)
    requires !ReadEarly(s', u) ==>
               && (s.usages[u].state.Charged() ==> s'.usages[u].state.Charged())
               && (s.usages[u].state in {Accepted, Refused} ==> s'.usages[u].state == s.usages[u].state)
    requires s.usages[u].state == Reversed && s'.usages[u].state != Reversed ==>
               !NoCall(s.usages, s.calls, s.usages[u].shipment)
    ensures LedgerEvolves(s, s')
  {
    hide NoCall;
    forall i | 0 <= i < |s.usages|
      ensures RowEvolves(s, s', i)
    {
      if NoCall(s.usages, s.calls, s.usages[i].shipment) {
        OneRowNoCall(s, s', u, s.usages[i].shipment);
      }
    }
    hide RowEvolves;
  }

  lemma SendEvolves(s: Billing, call: nat)
    requires BillingInv(s)
    ensures LedgerEvolves(s, Send(s, call))
  {
    hide BillingInv, LedgerEvolves, FateOk;
    NothingEvolves(s);
    if call in s.calls && s.calls[call].Holding? {
      AwaitingFate(s, call);
      OneRowEvolves(s, Send(s, call), s.calls[call].usage);
    }
  }

  lemma AnswerEvolves(s: Billing, call: nat, reply: ShopifyReply)
    requires BillingInv(s)
    ensures LedgerEvolves(s, Answer(s, call, reply))
  {
    hide BillingInv, LedgerEvolves, FateOk;
    NothingEvolves(s);
    if call in s.calls && s.calls[call].Sent? {
      AwaitingFate(s, call);
      assert !NoCall(s.usages, s.calls, s.usages[s.calls[call].usage].shipment);
      OneRowEvolves(s, Answer(s, call, reply), s.calls[call].usage);
    }
  }

  lemma ActEvolves(s: Billing, reversal: nat)
    requires BillingInv(s)
    ensures LedgerEvolves(s, Act(s, reversal))
  {
    hide BillingInv, LedgerEvolves, FateOk, NotSource;
    NothingEvolves(s);
    if reversal in s.reversals && s.reversals[reversal].Read? {
      ReversalFate(s, reversal);
      assert s.usages[s.reversals[reversal].usage := s.usages[s.reversals[reversal].usage]] == s.usages;
      OneRowEvolves(s, Act(s, reversal), s.reversals[reversal].usage);
    }
  }

  lemma NothingEvolves(s: Billing)
    ensures LedgerEvolves(s, s)
  {
  }

  lemma InsertIsNoNewCall(s: Billing, call: nat, x: Uuid)
    requires NoCall(s.usages, s.calls, x)
    ensures NoCall(InsertRow(s, call).usages, InsertRow(s, call).calls, x)
  {
  }

  lemma InsertEvolves(s: Billing, call: nat)
    ensures LedgerEvolves(s, InsertRow(s, call))
  {
    hide NoCall, KeyTaken;
    forall i | 0 <= i < |s.usages|
      ensures RowEvolves(s, InsertRow(s, call), i)
    {
      if NoCall(s.usages, s.calls, s.usages[i].shipment) {
        InsertIsNoNewCall(s, call, s.usages[i].shipment);
      }
    }
    hide RowEvolves;
  }

  lemma CallsEvolve(s: Billing, call: nat)
    ensures LedgerEvolves(s, Check(s, call)) && LedgerEvolves(s, EndCall(s, call))
  {
    hide ChargedSince;
  }

  lemma AcceptEvolves(s: Billing, u: nat)
    requires BillingInv(s)
    ensures LedgerEvolves(s, Accept(s, u))
  {
    hide BillingInv, LedgerEvolves;
    NothingEvolves(s);
    if u < |s.usages| && s.usages[u].state == Submitted {
      OneRowEvolves(s, Accept(s, u), u);
    }
  }

  lemma ReversalsEvolve(s: Billing, move: Move)
    requires Disciplined(s, move) && (move.BeginReversal? || move.HoldCredit? || move.CrashReversal? || move.NextCycle?)
    ensures LedgerEvolves(s, Next(s, move))
  {
    hide Newest, NoCall;
  }

  lemma NextEvolves(s: Billing, move: Move)
    requires BillingInv(s) && Disciplined(s, move)
    ensures LedgerEvolves(s, Next(s, move))
  {
    hide BillingInv, LedgerEvolves, Begin, Send, Answer, Act, Check, EndCall, InsertRow, Accept;
    if move.BeginRecord? {
      BeginEvolves(s, move.call, move.shipment, move.credit);
    } else if move.SendUsage? {
      SendEvolves(s, move.call);
    } else if move.UsageAnswered? {
      AnswerEvolves(s, move.call, move.reply);
    } else if move.ActOnUsage? {
      ActEvolves(s, move.reversal);
    } else if move.InsertUsage? {
      InsertEvolves(s, move.call);
    } else if move.CheckCap? || move.CrashCall? {
      CallsEvolve(s, move.call);
    } else if move.AcceptUsage? {
      AcceptEvolves(s, move.usage);
    } else {
      ReversalsEvolve(s, move);
    }
  }

  lemma EvolvesChain(a: Billing, b: Billing, c: Billing)
    requires LedgerEvolves(a, b) && LedgerEvolves(b, c)
    ensures LedgerEvolves(a, c)
  {
    forall i | 0 <= i < |a.usages|
      ensures RowEvolves(a, c, i)
    {
      assert RowEvolves(a, b, i) && RowEvolves(b, c, i);
    }
    hide RowEvolves;
  }

  lemma {:induction false} LedgerOnlyGrows(s: Billing, moves: seq<Move>)
    requires BillingInv(s) && DisciplinedRun(s, moves)
    ensures LedgerEvolves(s, Bill(s, moves))
  {
    hide BillingInv, Next;
    if moves != [] {
      var front := moves[..|moves| - 1];
      LedgerOnlyGrows(s, front);
      BillKeeps(s, front);
      hide LedgerEvolves;
      NextEvolves(Bill(s, front), moves[|moves| - 1]);
      EvolvesChain(s, Bill(s, front), Bill(s, moves));
    }
  }

  // ---- Runs that lose the credit ------------------------------------------------------------------------------

  lemma BillSnoc(s: Billing, moves: seq<Move>, move: Move)
    ensures Bill(s, moves + [move]) == Next(Bill(s, moves), move)
    ensures DisciplinedRun(s, moves + [move]) <==> DisciplinedRun(s, moves) && Disciplined(Bill(s, moves), move)
  {
    hide Next, Disciplined;
    assert (moves + [move])[..|moves|] == moves;
  }

  lemma BillableStep(s: Billing, move: Move)
    requires Billable(s) && Disciplined(s, move)
    ensures Billable(Next(s, move))
  {
    hide Next, Disciplined, Opening, Bill, DisciplinedRun;
    var unit, cap, moves :| DisciplinedRun(Opening(unit, cap), moves) && s == Bill(Opening(unit, cap), moves);
    BillSnoc(Opening(unit, cap), moves, move);
  }

  lemma OpeningBillable(unit: nat, cap: nat)
    ensures Billable(Opening(unit, cap))
  {
    assert Bill(Opening(unit, cap), []) == Opening(unit, cap) && DisciplinedRun(Opening(unit, cap), []);
  }

  /** One shipment's recording has got as far as the INSERT, or as the submission. */
  function OneRecord(unit: nat, a: Uuid, sent: bool): Billing {
    Opening(unit, unit).(usages := [Usage(a, 0, 0, unit, Pending, false, if sent then 1 else 0)],
                         calls := map[0 := if sent then Sent(0) else Holding(0)], began := {a})
  }

  lemma RecordsOne(unit: nat, a: Uuid)
    requires unit > 0
    ensures Billable(OneRecord(unit, a, true))
  {
    hide Billable;
    var s0 := Opening(unit, unit);
    OpeningBillable(unit, unit);
    BillableStep(s0, BeginRecord(0, a, None));
    var s1 := Next(s0, BeginRecord(0, a, None));
    BillableStep(s1, CheckCap(0));
    var s2 := Next(s1, CheckCap(0));
    BillableStep(s2, InsertUsage(0));
    assert Next(s2, InsertUsage(0)) == OneRecord(unit, a, false);
    BillableStep(OneRecord(unit, a, false), SendUsage(0));
    assert Next(OneRecord(unit, a, false), SendUsage(0)) == OneRecord(unit, a, true);
  }

  /** The reversal of the one shipment reads its record and acts on what it read. */
  lemma ReadsAndActs(s: Billing, a: Uuid)
    requires Billable(s) && |s.usages| == 1 && s.usages[0].shipment == a && s.reversals == map[] && a !in s.fates
    requires s.usages[0].state == Pending && !s.usages[0].stamped
    ensures var s' := s.(usages := [s.usages[0].(state := Reversed)],
                         fates := s.fates[a := Fate(Saw(0, Pending, false), Finished)]);
            Billable(s')
  {
    hide Billable;
    assert Newest(s.usages, a, 0);
    BillableStep(s, BeginReversal(0, a));
    var read := Next(s, BeginReversal(0, a));
    assert read.reversals == map[0 := Read(0, Pending, false)] by { NewestUnique(s.usages, a, 0,
          read.reversals[0].usage); }
    BillableStep(read, ActOnUsage(0));
    assert Next(read, ActOnUsage(0))
           == s.(usages := [s.usages[0].(state := Reversed)],
                 fates := s.fates[a := Fate(Saw(0, Pending, false), Finished)]);
  }

  /** The process dies between the submission and its stamp: the charge is at Shopify, the row is REVERSED, no
      credit is held, nothing is under way. No reversal overlapped the recording. */
  lemma CrashLosesCredit(unit: nat, a: Uuid)
    requires unit > 0
    ensures exists s :: Billable(s) && |s.usages| == 1 && s.usages[0].sends == 1 && s.usages[0].state == Reversed
                        && s.credits == [] && s.calls == map[] && s.reversals == map[]
  {
    hide Billable;
    var sent := OneRecord(unit, a, true);
    RecordsOne(unit, a);
    BillableStep(sent, CrashCall(0));
    var crashed := Next(sent, CrashCall(0));
    assert crashed == sent.(calls := map[]);
    ReadsAndActs(crashed, a);
  }

  /** A reversal that reads the record while the charge is on its way is overwritten by the answer: the charge
      stands SUBMITTED and no credit is held. */
  lemma OverlapLosesCredit(unit: nat, a: Uuid)
    requires unit > 0
    ensures exists s :: Billable(s) && |s.usages| == 1 && s.usages[0].sends == 1 && s.usages[0].state == Submitted
                        && a in s.fates && s.credits == [] && s.calls == map[] && s.reversals == map[]
  {
    hide Billable;
    var sent := OneRecord(unit, a, true);
    RecordsOne(unit, a);
    ReadsAndActs(sent, a);
    var acted := sent.(usages := [sent.usages[0].(state := Reversed)],
                       fates := sent.fates[a := Fate(Saw(0, Pending, false), Finished)]);
    BillableStep(acted, UsageAnswered(0, Created));
  }

  /** A reversal that runs before the record is inserted finds none; the recording then charges a shipment
      whose reversal is over. */
  lemma EarlyReversalLosesCredit(unit: nat, a: Uuid)
    requires unit > 0
    ensures exists s :: Billable(s) && |s.usages| == 1 && s.usages[0].sends == 1 && s.usages[0].state == Submitted
                        && a in s.fates && s.credits == [] && s.calls == map[] && s.reversals == map[]
  {
    hide Billable;
    var s0 := Opening(unit, unit);
    OpeningBillable(unit, unit);
    BillableStep(s0, BeginReversal(0, a));
    var s1 := s0.(fates := map[a := Fate(NoRecord, Finished)]);
    assert Next(s0, BeginReversal(0, a)) == s1;
    BillableStep(s1, BeginRecord(0, a, None));
    var s2 := s1.(calls := map[0 := Uncovered(a, 0)], began := {a});
    assert Next(s1, BeginRecord(0, a, None)) == s2;
    BillableStep(s2, CheckCap(0));
    var s3 := s2.(calls := map[0 := Checked(a, 0)]);
    assert Next(s2, CheckCap(0)) == s3;
    BillableStep(s3, InsertUsage(0));
    var s4 := s3.(usages := [Usage(a, 0, 0, unit, Pending, false, 0)], calls := map[0 := Holding(0)]);
    assert Next(s3, InsertUsage(0)) == s4;
    BillableStep(s4, SendUsage(0));
    var s5 := s4.(usages := [Usage(a, 0, 0, unit, Pending, false, 1)], calls := map[0 := Sent(0)]);
    assert Next(s4, SendUsage(0)) == s5;
    BillableStep(s5, UsageAnswered(0, Created));
  }

  /** A reversal that reads the charge and dies before its INSERT leaves a standing charge without a credit, and
      nobody comes back to it. */
  lemma ReversalCrashLosesCredit(unit: nat, a: Uuid)
    requires unit > 0
    ensures exists s :: Billable(s) && |s.usages| == 1 && s.usages[0].sends == 1 && s.usages[0].state == Submitted
                        && a in s.fates && s.fates[a].stage == Crashed
                        && s.credits == [] && s.calls == map[] && s.reversals == map[]
  {
    hide Billable;
    var sent := OneRecord(unit, a, true);
    RecordsOne(unit, a);
    BillableStep(sent, UsageAnswered(0, Created));
    var row := sent.usages[0].(state := Submitted, stamped := true);
    var charged := sent.(usages := [row], calls := map[]);
    assert Next(sent, UsageAnswered(0, Created)) == charged;
    BillableStep(charged, BeginReversal(0, a));
    assert Newest(charged.usages, a, 0);
    var read := charged.(reversals := map[0 := Read(0, Submitted, true)],
                         fates := charged.fates[a := Fate(Saw(0, Submitted, true), Underway)]);
    assert Next(charged, BeginReversal(0, a)) == read;
    BillableStep(read, CrashReversal(0));
    assert read.reversals - {0} == map[];
  }
}
