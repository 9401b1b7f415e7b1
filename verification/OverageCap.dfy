/** The cap of a billing cycle: how far concurrent calls can overshoot it, and that they can. */
module OverageCap {
  import opened Wrappers
  import opened BookingSnapshot
  import opened Overage
  import opened OverageInvariant
  import opened OverageTheorems

  /** Calls between the cap query and the INSERT. */
  function PastCap(calls: map<nat, CallPc>): set<nat> {
    set call | call in calls && calls[call].Checked?
  }

  /** `k` calls at most between the query and the INSERT. */
  ghost predicate CapOk(s: Billing, k: nat) {
    ChargedSince(s.usages, s.cycle) + |PastCap(s.calls)| * s.unit <= s.cap + (k - 1) * s.unit + s.revived * s.unit
  }

  lemma {:induction false} ChargedMonotone(usages: seq<Usage>, from: nat, later: nat)
    requires from <= later
    ensures ChargedSince(usages, later) <= ChargedSince(usages, from)
  {
    if usages != [] {
      ChargedMonotone(usages[..|usages| - 1], from, later);
    }
  }

  lemma {:induction false} ChargedUpdate(usages: seq<Usage>, i: nat, row: Usage, from: nat)
    requires i < |usages|
    ensures ChargedSince(usages[i := row], from) == ChargedSince(usages, from) - Contribution(usages[i], from)
            + Contribution(row, from)
  {
    var n := |usages| - 1;
    if i == n {
      assert usages[i := row][..n] == usages[..n];
    } else {
      ChargedUpdate(usages[..n], i, row, from);
      assert usages[i := row][..n] == usages[..n][i := row];
    }
  }

  lemma {:induction false} NothingThisCycle(usages: seq<Usage>, cycle: nat)
    requires forall i :: 0 <= i < |usages| ==> usages[i].cycle < cycle
    ensures ChargedSince(usages, cycle) == 0
  {
    if usages != [] {
      NothingThisCycle(usages[..|usages| - 1], cycle);
    }
  }

  lemma TimesMonotone(a: nat, b: nat, unit: nat)
    requires a <= b
    ensures a * unit <= b * unit
  {
    assert b * unit == a * unit + (b - a) * unit;
  }

  lemma FewerPastCap(calls: map<nat, CallPc>, calls': map<nat, CallPc>, unit: nat)
    requires PastCap(calls') <= PastCap(calls)
    ensures |PastCap(calls')| * unit <= |PastCap(calls)| * unit
  {
    SubsetSmaller(PastCap(calls'), PastCap(calls), unit);
  }

  lemma CheckKeepsCap(s: Billing, call: nat, k: nat)
    requires BillingInv(s) && CapOk(s, k) && |PastCap(Check(s, call).calls)| <= k
    ensures CapOk(Check(s, call), k)
  {
    if call in s.calls && s.calls[call].Uncovered? {
      assert CallOk(s, s.calls[call]);
      hide BillingInv, ChargedSince;
      var s' := Check(s, call);
      if call in s'.calls {
        assert call in PastCap(s'.calls);
        ChargedMonotone(s.usages, s.calls[call].cycle, s.cycle);
        RoomForOne(|PastCap(s'.calls)|, k, s.unit);
        TimesMonotone(0, s.revived, s.unit);
      } else {
        FewerPastCap(s.calls, s'.calls, s.unit);
      }
    }
  }

  /** One unit within the cap, and the m - 1 other calls past the query. */
  lemma RoomForOne(m: nat, k: nat, unit: nat)
    requires 1 <= m <= k
    ensures m * unit <= unit + (k - 1) * unit
  {
    TimesMonotone(m - 1, k - 1, unit);
    assert m * unit == (m - 1) * unit + unit;
  }

  lemma ChargedAppend(usages: seq<Usage>, row: Usage, from: nat)
    ensures ChargedSince(usages + [row], from) == ChargedSince(usages, from) + Contribution(row, from)
  {
    assert (usages + [row])[..|usages|] == usages;
  }

  lemma OneFewerPastCap(calls: map<nat, CallPc>, calls': map<nat, CallPc>, call: nat, unit: nat)
    requires call in calls && calls[call].Checked?
    requires calls' == calls - {call}
             || (call in calls' && !calls'[call].Checked? && calls' == calls[call := calls'[call]])
    ensures |PastCap(calls)| * unit == |PastCap(calls')| * unit + unit
  {
    assert PastCap(calls') == PastCap(calls) - {call} && call in PastCap(calls);
    assert (|PastCap(calls')| + 1) * unit == |PastCap(calls')| * unit + unit;
  }

  lemma InsertKeepsCap(s: Billing, call: nat, k: nat)
    requires CapOk(s, k)
    ensures CapOk(InsertRow(s, call), k)
  {
    hide ChargedSince, PastCap, KeyTaken;
    if call in s.calls && s.calls[call].Checked? {
      var s', pc := InsertRow(s, call), s.calls[call];
      OneFewerPastCap(s.calls, s'.calls, call, s.unit);
      ChargedAppend(s.usages, Usage(pc.shipment, pc.cycle, s.cycle, s.unit, Pending, false, 0), s.cycle);
    }
  }

  /** A row changes, and no further call gets past the query; if the query counts the row anew, it was revived. */
  lemma RowKeepsCap(s: Billing, s': Billing, u: nat, k: nat)
    requires CapOk(s, k) && u < |s.usages| && s'.unit == s.unit && s'.cap == s.cap && s'.cycle == s.cycle
    requires |s'.usages| == |s.usages| && s'.usages == s.usages[u := s'.usages[u]]
    requires PastCap(s'.calls) <= PastCap(s.calls)
    requires || (s'.revived == s.revived && Contribution(s'.usages[u], s.cycle) <= Contribution(s.usages[u], s.cycle))
             || (s'.revived == s.revived + 1
                 && Contribution(s'.usages[u], s.cycle) <= Contribution(s.usages[u], s.cycle) + s.unit)
    ensures CapOk(s', k)
  {
    ChargedUpdate(s.usages, u, s'.usages[u], s.cycle);
    FewerPastCap(s.calls, s'.calls, s.unit);
    assert (s.revived + 1) * s.unit == s.revived * s.unit + s.unit;
    hide ChargedSince, PastCap;
  }

  lemma AnswerKeepsCap(s: Billing, call: nat, reply: ShopifyReply, k: nat)
    requires BillingInv(s) && CapOk(s, k)
    ensures CapOk(Answer(s, call, reply), k)
  {
    if call in s.calls && s.calls[call].Sent? {
      AwaitingFate(s, call);
      assert s.usages[s.calls[call].usage].amount == s.unit;
      hide BillingInv, CapOk, FateOk;
      RowKeepsCap(s, Answer(s, call, reply), s.calls[call].usage, k);
    } else {
      hide BillingInv;
    }
  }

  lemma RowMovesKeepCap(s: Billing, move: Move, k: nat)
    requires BillingInv(s) && CapOk(s, k)
    requires move.SendUsage? || move.UsageAnswered? || move.AcceptUsage? || move.ActOnUsage?
    ensures CapOk(Next(s, move), k)
  {
    hide ChargedSince, BillingInv, CapOk;
    var s' := Next(s, move);
    if move.UsageAnswered? {
      AnswerKeepsCap(s, move.call, move.reply, k);
    } else if move.SendUsage? && move.call in s.calls && s.calls[move.call].Holding?
       && s.calls[move.call].usage < |s.usages| {
      RowKeepsCap(s, s', s.calls[move.call].usage, k);
    } else if move.AcceptUsage? && move.usage < |s.usages| {
      RowKeepsCap(s, s', move.usage, k);
    } else if move.ActOnUsage? && move.reversal in s.reversals && s.reversals[move.reversal].usage < |s.usages| {
      RowKeepsCap(s, s', s.reversals[move.reversal].usage, k);
    }
  }

  lemma CallMovesKeepCap(s: Billing, move: Move, k: nat)
    requires BillingInv(s) && CapOk(s, k)
    requires move.BeginRecord? || move.CrashCall? || move.BeginReversal? || move.HoldCredit? || move.CrashReversal?
    ensures CapOk(Next(s, move), k)
  {
    hide ChargedSince, BillingInv, Newest;
    FewerPastCap(s.calls, Next(s, move).calls, s.unit);
  }

  lemma CycleKeepsCap(s: Billing, k: nat)
    requires BillingInv(s) && |PastCap(s.calls)| <= k && k >= 1
    ensures CapOk(s.(cycle := s.cycle + 1), k)
  {
    NothingThisCycle(s.usages, s.cycle + 1);
    var m := |PastCap(s.calls)|;
    assert k * s.unit == (k - 1) * s.unit + s.unit;
    TimesMonotone(m, k, s.unit);
    TimesMonotone(0, s.revived, s.unit);
    TimesMonotone(0, k - 1, s.unit);
    if m > 0 {
      var call :| call in PastCap(s.calls);
      assert CallOk(s, s.calls[call]);
    }
  }

  lemma NextKeepsCap(s: Billing, move: Move, k: nat)
    requires BillingInv(s) && CapOk(s, k) && k >= 1
    requires |PastCap(s.calls)| <= k && |PastCap(Next(s, move).calls)| <= k
    ensures CapOk(Next(s, move), k)
  {
    hide BillingInv, CapOk;
    if move.CheckCap? {
      CheckKeepsCap(s, move.call, k);
    } else if move.InsertUsage? {
      InsertKeepsCap(s, move.call, k);
    } else if move.NextCycle? {
      CycleKeepsCap(s, k);
    } else if move.SendUsage? || move.UsageAnswered? || move.AcceptUsage? || move.ActOnUsage? {
      RowMovesKeepCap(s, move, k);
    } else {
      CallMovesKeepCap(s, move, k);
    }
  }

  ghost predicate AtMostPastCap(s: Billing, moves: seq<Move>, k: nat) {
    |PastCap(Bill(s, moves).calls)| <= k && (moves != [] ==> AtMostPastCap(s, moves[..|moves| - 1], k))
  }

  lemma {:induction false} BillKeepsCap(s: Billing, moves: seq<Move>, k: nat)
    requires BillingInv(s) && DisciplinedRun(s, moves) && CapOk(s, k) && k >= 1 && AtMostPastCap(s, moves, k)
    ensures CapOk(Bill(s, moves), k)
  {
    hide BillingInv, CapOk, Next, PastCap;
    if moves != [] {
      var front := moves[..|moves| - 1];
      BillKeepsCap(s, front, k);
      BillKeeps(s, front);
      NextKeepsCap(Bill(s, front), moves[|moves| - 1], k);
    }
  }

  /** A state that disciplined callers reach with never more than k of them between query and INSERT. */
  ghost predicate BillableWith(s: Billing, k: nat) {
    exists unit, cap, moves :: DisciplinedRun(Opening(unit, cap), moves) && AtMostPastCap(Opening(unit, cap), moves, k)
                               && s == Bill(Opening(unit, cap), moves)
  }

  /** With at most k calls at once between the cap query and the INSERT, a cycle's charges stay within the cap,
      k - 1 units, and one unit for every REVERSED record that its own answer made SUBMITTED again. So the cap
      is exact when calls are serial and no reversal overlaps a submission. */
  lemma CapBound(s: Billing, k: nat)
    requires BillableWith(s, k) && k >= 1
    ensures ChargedSince(s.usages, s.cycle) <= s.cap + (k - 1) * s.unit + s.revived * s.unit
    ensures k == 1 && s.revived == 0 ==> ChargedSince(s.usages, s.cycle) <= s.cap
  {
    hide BillingInv, Bill, DisciplinedRun, AtMostPastCap, Opening;
    var unit, cap, moves :| DisciplinedRun(Opening(unit, cap), moves) && AtMostPastCap(Opening(unit, cap), moves, k)
                            && s == Bill(Opening(unit, cap), moves);
    OpeningInv(unit, cap);
    OpeningWithinCap(unit, cap, k);
    BillKeepsCap(Opening(unit, cap), moves, k);
    WithinCap(s, k);
  }

  /** The rows of a cycle that are PENDING, SUBMITTED or ACCEPTED. */
  ghost function CountedRows(usages: seq<Usage>, from: nat): set<nat> {
    set i: nat | i < |usages| && usages[i].cycle >= from && usages[i].state in {Pending, Submitted, Accepted}
  }

  lemma LastCounted(usages: seq<Usage>, from: nat)
    requires usages != []
    ensures var n := |usages| - 1;
            |CountedRows(usages, from)|
            == |CountedRows(usages[..n], from)|
               + if usages[n].cycle >= from && usages[n].state in {Pending, Submitted, Accepted} then 1 else 0
  {
    var n := |usages| - 1;
    var counted := usages[n].cycle >= from && usages[n].state in {Pending, Submitted, Accepted};
    assert CountedRows(usages, from) == CountedRows(usages[..n], from) + if counted then {n} else {};
  }

  lemma OneMore(unit: nat, n: nat)
    ensures unit * (n + 1) == unit * n + unit
  {
  }

  /** The sum of the cap query is one unit for each of them. */
  lemma {:induction false} ChargedSinceCounts(usages: seq<Usage>, from: nat, unit: nat)
    requires forall i :: 0 <= i < |usages| ==> usages[i].amount == unit
    ensures ChargedSince(usages, from) == unit * |CountedRows(usages, from)|
  {
    hide CountedRows;
    if usages == [] {
      assert |CountedRows(usages, from)| == 0 by { NoneCounted(from); }
    } else {
      var front := usages[..|usages| - 1];
      ChargedSinceCounts(front, from, unit);
      LastCounted(usages, from);
      OneMore(unit, |CountedRows(front, from)|);
    }
  }

  lemma NoneCounted(from: nat)
    ensures CountedRows([], from) == {}
  {
  }

  /** So a cycle holds at most as many such rows as the cap, the overshoot and the revived rows allow. */
  lemma CapBoundsRows(s: Billing, k: nat)
    requires BillableWith(s, k) && k >= 1
    ensures s.unit * |CountedRows(s.usages, s.cycle)| <= s.cap + (k - 1) * s.unit + s.revived * s.unit
  {
    CapBound(s, k);
    BillableAmounts(s, k);
    hide BillableWith;
    ChargedSinceCounts(s.usages, s.cycle, s.unit);
  }

  /** The sweep promotes SUBMITTED rows only; the sum of the cap query and every other row stay as they are. */
  lemma AcceptsExactly(s: Billing, u: nat, from: nat)
    ensures var s' := Next(s, AcceptUsage(u));
            && (u < |s.usages| && s.usages[u].state == Submitted ==>
                  s' == s.(usages := s.usages[u := s.usages[u].(state := Accepted)]))
            && (!(u < |s.usages| && s.usages[u].state == Submitted) ==> s' == s)
            && ChargedSince(s'.usages, from) == ChargedSince(s.usages, from)
  {
    if u < |s.usages| && s.usages[u].state == Submitted {
      ChargedUpdate(s.usages, u, s.usages[u].(state := Accepted), from);
    }
    hide ChargedSince;
  }

  /** A new cycle counts from nothing; no row is touched. */
  lemma NewCycleStartsEmpty(s: Billing)
    requires BillingInv(s)
    ensures var s' := Next(s, NextCycle);
            && s'.usages == s.usages && s'.credits == s.credits && s'.cycle > s.cycle
            && |CountedRows(s'.usages, s'.cycle)| == 0
  {
    assert forall i :: 0 <= i < |s.usages| ==> s.usages[i].cycle <= s.cycle;
    assert CountedRows(s.usages, s.cycle + 1) == {};
  }

  lemma BillableAmounts(s: Billing, k: nat)
    requires BillableWith(s, k)
    ensures forall i :: 0 <= i < |s.usages| ==> s.usages[i].amount == s.unit
  {
    hide Bill, DisciplinedRun, AtMostPastCap, Opening;
    var unit, cap, moves :| DisciplinedRun(Opening(unit, cap), moves) && AtMostPastCap(Opening(unit, cap), moves, k)
                            && s == Bill(Opening(unit, cap), moves);
    OpeningInv(unit, cap);
    BillKeeps(Opening(unit, cap), moves);
  }

  lemma OpeningWithinCap(unit: nat, cap: nat, k: nat)
    requires k >= 1
    ensures CapOk(Opening(unit, cap), k)
  {
    assert PastCap(map[]) == {};
    TimesMonotone(0, k - 1, unit);
  }

  lemma WithinCap(s: Billing, k: nat)
    requires CapOk(s, k) && k >= 1
    ensures ChargedSince(s.usages, s.cycle) <= s.cap + (k - 1) * s.unit + s.revived * s.unit
    ensures k == 1 && s.revived == 0 ==> ChargedSince(s.usages, s.cycle) <= s.cap
  {
    TimesMonotone(0, |PastCap(s.calls)|, s.unit);
  }

  // ---- No overlap, no revival ---------------------------------------------------------------------------------

  /** No reversal of a shipment starts while its recording is under way. */
  ghost predicate NoOverlap(s: Billing, move: Move) {
    move.BeginReversal? ==> NoCall(s.usages, s.calls, move.shipment)
  }

  ghost predicate ApartRun(s: Billing, moves: seq<Move>) {
    moves != [] ==>
      var n := |moves| - 1;
      ApartRun(s, moves[..n]) && Disciplined(Bill(s, moves[..n]), moves[n]) && NoOverlap(Bill(s, moves[..n]), moves[n])
  }

  /** A submission's row is PENDING, and no reversal is about the shipment of a call. */
  ghost predicate ApartInv(s: Billing) {
    && s.revived == 0
    && (forall c :: c in s.calls && (s.calls[c].Holding? || s.calls[c].Sent?) ==>
          s.calls[c].usage < |s.usages| && s.usages[s.calls[c].usage].state == Pending)
    && (forall r :: r in s.reversals ==>
        s.reversals[r].usage < |s.usages| && NoCall(s.usages, s.calls, s.usages[s.reversals[r].usage].shipment))
  }

  /** Calls stay about what they were, or are about a shipment without a record. */
  lemma CallsKeepApart(s: Billing, s': Billing, new_: set<Uuid>)
    requires ApartInv(s) && s'.reversals == s.reversals && s'.revived == s.revived && |s'.usages| >= |s.usages|
    requires forall i :: 0 <= i < |s.usages| ==> s'.usages[i].shipment == s.usages[i].shipment
    requires forall x :: x in new_ ==> NoUsage(s.usages, x)
    requires forall c :: c in s'.calls ==>
               About(s'.usages, s'.calls[c]).Some?
               && (About(s'.usages, s'.calls[c]).value in new_
                   || (c in s.calls && About(s.usages, s.calls[c]) == About(s'.usages, s'.calls[c])))
    requires forall c :: c in s'.calls && (s'.calls[c].Holding? || s'.calls[c].Sent?) ==>
               s'.calls[c].usage < |s'.usages| && s'.usages[s'.calls[c].usage].state == Pending
    ensures ApartInv(s')
  {
    hide About;
  }

  lemma CallsKnown(s: Billing)
    requires BillingInv(s)
    ensures forall c :: c in s.calls ==> About(s.usages, s.calls[c]).Some?
  {
    hide SourcesInv, ConsumersInv, UsagesInv, FatesInv, ReversalsInv, CallsApart, Uncredited, NoUsage;
    forall c | c in s.calls
      ensures About(s.usages, s.calls[c]).Some?
    {
      assert CallOk(s, s.calls[c]);
    }
  }

  lemma BeginKeepsApart(s: Billing, call: nat, shipment: Uuid, credit: Option<nat>)
    requires BillingInv(s) && ApartInv(s) && shipment !in s.began
    ensures ApartInv(Begin(s, call, shipment, credit))
  {
    hide BillingInv, Uncredited, NoUsage, NoCall, ApartInv;
    Fresh(s, shipment);
    CallsKnown(s);
    PendingRows(s);
    assert About(s.usages, Uncovered(shipment, s.cycle)) == Some(shipment);
    hide About;
    CallsKeepApart(s, Begin(s, call, shipment, credit), {shipment});
  }

  /** The call that is about to insert is about a shipment without a record. */
  lemma InsertsNew(s: Billing, call: nat)
    requires BillingInv(s) && call in s.calls && s.calls[call].Checked?
    ensures NoUsage(s.usages, s.calls[call].shipment)
  {
    hide SourcesInv, ConsumersInv, UsagesInv, FatesInv, ReversalsInv, CallsApart, Uncredited, NoUsage;
    assert CallOk(s, s.calls[call]);
  }

  lemma InsertKeepsApart(s: Billing, call: nat)
    requires BillingInv(s) && ApartInv(s)
    ensures ApartInv(InsertRow(s, call))
  {
    if call in s.calls && s.calls[call].Checked? {
      hide BillingInv, NoUsage, NoCall, KeyTaken, ApartInv;
      InsertsNew(s, call);
      CallsKnown(s);
      PendingRows(s);
      CallsKeepApart(s, InsertRow(s, call), {s.calls[call].shipment});
    } else {
      hide BillingInv;
    }
  }

  lemma EndKeepsApart(s: Billing, call: nat)
    requires ApartInv(s)
    ensures ApartInv(EndCall(s, call))
  {
    hide About;
  }

  lemma CheckKeepsApart(s: Billing, call: nat)
    requires ApartInv(s)
    ensures ApartInv(Check(s, call))
  {
    EndKeepsApart(s, call);
    if call in s.calls && s.calls[call].Uncovered? {
      var pc := s.calls[call];
      assert About(s.usages, Checked(pc.shipment, pc.cycle)) == About(s.usages, pc);
      hide About, ChargedSince;
    }
  }

  lemma PendingRows(s: Billing)
    requires ApartInv(s)
    ensures forall c :: c in s.calls && (s.calls[c].Holding? || s.calls[c].Sent?) ==>
                          s.calls[c].usage < |s.usages| && s.usages[s.calls[c].usage].state == Pending
  {
  }

  lemma SendKeepsApart(s: Billing, call: nat)
    requires BillingInv(s) && ApartInv(s)
    ensures ApartInv(Send(s, call))
  {
    hide BillingInv, NoUsage, NoCall, ApartInv;
    CallsKnown(s);
    PendingRows(s);
    if call in s.calls && s.calls[call].Holding? {
      forall c | c in s.calls
        ensures About(Send(s, call).usages, s.calls[c]) == About(s.usages, s.calls[c])
      {
        SameAbout(s.usages, Send(s, call).usages, s.calls[c]);
      }
      assert About(Send(s, call).usages, Sent(s.calls[call].usage)) == About(s.usages, s.calls[call]);
      hide About;
      CallsKeepApart(s, Send(s, call), {});
    }
  }

  /** An answer ends its call and touches the row of that call only. */
  lemma AnswerTouches(s: Billing, call: nat, reply: ShopifyReply)
    requires call in s.calls && s.calls[call].Sent? && s.calls[call].usage < |s.usages|
    requires s.usages[s.calls[call].usage].state != Reversed
    ensures var s', u := Answer(s, call, reply), s.calls[call].usage;
            && s'.calls == s.calls - {call} && s'.reversals == s.reversals && s'.revived == s.revived
            && |s'.usages| == |s.usages| && s'.usages[u].shipment == s.usages[u].shipment
            && forall i :: 0 <= i < |s.usages| && i != u ==> s'.usages[i] == s.usages[i]
  {
  }

  lemma AnswerKeepsApart(s: Billing, call: nat, reply: ShopifyReply)
    requires BillingInv(s) && ApartInv(s)
    ensures ApartInv(Answer(s, call, reply))
  {
    hide FatesInv, ReversalsInv, SourcesInv, ConsumersInv, CallsInv, UsagesInv;
    if call in s.calls && s.calls[call].Sent? && s.calls[call].usage < |s.usages| {
      var u := s.calls[call].usage;
      AnswerTouches(s, call, reply);
      forall c | c in s.calls && c != call && (s.calls[c].Holding? || s.calls[c].Sent?)
        ensures s.calls[c].usage != u
      {
        assert About(s.usages, s.calls[c]) != About(s.usages, s.calls[call]);
      }
      hide CallsApart, Answer;
    }
  }

  lemma ReverseKeepsApart(s: Billing, reversal: nat, shipment: Uuid)
    requires ApartInv(s) && NoCall(s.usages, s.calls, shipment)
    ensures ApartInv(Reverse(s, reversal, shipment))
  {
    hide NoCall, Newest;
    if reversal !in s.reversals && exists u: nat :: Newest(s.usages, shipment, u) {
      var u := Reverse(s, reversal, shipment).reversals[reversal].usage;
      assert Newest(s.usages, shipment, u);
      NewestIs(s.usages, shipment, u);
    }
  }

  /** An act of a reversal touches the row it read only, and starts nothing. */
  lemma ActTouches(s: Billing, reversal: nat)
    ensures var s' := Act(s, reversal);
            && s'.calls == s.calls && s'.revived == s.revived && |s'.usages| == |s.usages|
            && (forall i :: 0 <= i < |s.usages| ==> s'.usages[i].shipment == s.usages[i].shipment)
            && (forall i :: 0 <= i < |s.usages| && s'.usages[i] != s.usages[i] ==>
                  reversal in s.reversals && i == s.reversals[reversal].usage)
            && (forall r :: r in s'.reversals ==> r in s.reversals
                                                  && s'.reversals[r].usage == s.reversals[r].usage)
  {
  }

  lemma ActKeepsApart(s: Billing, reversal: nat)
    requires ApartInv(s)
    ensures ApartInv(Act(s, reversal))
  {
    hide Act;
    ActTouches(s, reversal);
    if reversal in s.reversals {
      var u, s' := s.reversals[reversal].usage, Act(s, reversal);
      forall c | c in s.calls && (s.calls[c].Holding? || s.calls[c].Sent?)
        ensures s.calls[c].usage != u
      {
        assert About(s.usages, s.calls[c]) == Some(s.usages[s.calls[c].usage].shipment);
      }
      forall c | c in s.calls
        ensures About(s'.usages, s.calls[c]) == About(s.usages, s.calls[c])
      {
        SameAbout(s.usages, s'.usages, s.calls[c]);
      }
      hide About;
    }
  }

  lemma OthersKeepApart(s: Billing, move: Move)
    requires ApartInv(s) && (move.HoldCredit? || move.CrashReversal? || move.AcceptUsage? || move.NextCycle?)
    ensures ApartInv(Next(s, move))
  {
    var s' := Next(s, move);
    forall c | c in s.calls
      ensures About(s'.usages, s.calls[c]) == About(s.usages, s.calls[c])
    {
      SameAbout(s.usages, s'.usages, s.calls[c]);
    }
    hide About;
  }

  lemma NextKeepsApart(s: Billing, move: Move)
    requires BillingInv(s) && ApartInv(s) && Disciplined(s, move) && NoOverlap(s, move)
    ensures ApartInv(Next(s, move))
  {
    hide BillingInv, ApartInv;
    if move.UsageAnswered? {
      AnswerKeepsApart(s, move.call, move.reply);
    } else if move.BeginRecord? {
      BeginKeepsApart(s, move.call, move.shipment, move.credit);
    } else if move.InsertUsage? {
      InsertKeepsApart(s, move.call);
    } else if move.CheckCap? {
      CheckKeepsApart(s, move.call);
    } else if move.CrashCall? {
      EndKeepsApart(s, move.call);
    } else if move.SendUsage? {
      SendKeepsApart(s, move.call);
    } else if move.BeginReversal? {
      ReverseKeepsApart(s, move.reversal, move.shipment);
    } else if move.ActOnUsage? {
      ActKeepsApart(s, move.reversal);
    } else {
      OthersKeepApart(s, move);
    }
  }

  /** Where no reversal overlaps its shipment's recording, no REVERSED record is ever revived. */
  lemma {:induction false} NeverRevived(unit: nat, cap: nat, moves: seq<Move>)
    requires ApartRun(Opening(unit, cap), moves)
    ensures var s := Bill(Opening(unit, cap), moves);
            DisciplinedRun(Opening(unit, cap), moves) && BillingInv(s) && ApartInv(s) && s.revived == 0
  {
    hide BillingInv, Next, Opening;
    if moves == [] {
      OpeningInv(unit, cap);
      OpeningApart(unit, cap);
    } else {
      var front := moves[..|moves| - 1];
      NeverRevived(unit, cap, front);
      NextKeeps(Bill(Opening(unit, cap), front), moves[|moves| - 1]);
      NextKeepsApart(Bill(Opening(unit, cap), front), moves[|moves| - 1]);
    }
  }

  lemma OpeningApart(unit: nat, cap: nat)
    ensures ApartInv(Opening(unit, cap))
  {
  }

  // ---- The bound is attained ----------------------------------------------------------------------------------

  lemma BillableWithStep(s: Billing, move: Move, k: nat)
    requires BillableWith(s, k) && Disciplined(s, move) && |PastCap(Next(s, move).calls)| <= k
    ensures BillableWith(Next(s, move), k)
  {
    hide Next, Disciplined, Opening, Bill, DisciplinedRun, PastCap;
    var unit, cap, moves :| DisciplinedRun(Opening(unit, cap), moves) && AtMostPastCap(Opening(unit, cap), moves, k)
                            && s == Bill(Opening(unit, cap), moves);
    BillSnoc(Opening(unit, cap), moves, move);
    assert (moves + [move])[..|moves|] == moves;
  }

  function Rows(unit: nat, shipments: seq<Uuid>): seq<Usage> {
    seq(|shipments|, i requires 0 <= i < |shipments| => Usage(shipments[i], 0, 0, unit, Pending, false, 0))
  }

  /** `b` recordings begun, the first `c` of them past the query, the first `i` inserted. */
  function Rush(unit: nat, shipments: seq<Uuid>, b: nat, c: nat, i: nat): Billing
    requires i <= c <= b <= |shipments|
  {
    Opening(unit, unit).(usages := Rows(unit, shipments[..i]),
                         calls := map j: nat | j < b :: if j < i then Holding(j) else if j < c
                             then Checked(shipments[j], 0) else Uncovered(shipments[j], 0),
                         began := set j: nat | j < b :: shipments[j])
  }

  predicate AllDistinct(shipments: seq<Uuid>) {
    forall i, j :: 0 <= i < j < |shipments| ==> shipments[i] != shipments[j]
  }

  function UpTo(n: nat): (r: set<nat>)
    ensures |r| == n && forall j: nat :: j in r <==> j < n
  {
    if n == 0 then {} else UpTo(n - 1) + {n - 1}
  }

  lemma RushPastCap(unit: nat, shipments: seq<Uuid>, b: nat, c: nat, i: nat)
    requires i <= c <= b <= |shipments|
    ensures |PastCap(Rush(unit, shipments, b, c, i).calls)| <= |shipments|
  {
    assert PastCap(Rush(unit, shipments, b, c, i).calls) <= UpTo(|shipments|);
    SubsetSmaller(PastCap(Rush(unit, shipments, b, c, i).calls), UpTo(|shipments|), 1);
  }

  lemma RushBegins(unit: nat, shipments: seq<Uuid>, b: nat)
    requires unit > 0 && b < |shipments|
    ensures Next(Rush(unit, shipments, b, 0, 0), BeginRecord(b, shipments[b], None))
            == Rush(unit, shipments, b + 1, 0, 0)
  {
  }

  lemma RushChecks(unit: nat, shipments: seq<Uuid>, c: nat)
    requires c < |shipments|
    ensures var b := |shipments|; Next(Rush(unit, shipments, b, c, 0), CheckCap(c))
                                  == Rush(unit, shipments, b, c + 1, 0)
  {
    assert ChargedSince([], 0) == 0;
  }

  lemma RushInserts(unit: nat, shipments: seq<Uuid>, i: nat)
    requires i < |shipments| && AllDistinct(shipments)
    ensures var b := |shipments|; Next(Rush(unit, shipments, b, b, i), InsertUsage(i))
                                  == Rush(unit, shipments, b, b, i + 1)
  {
    var b := |shipments|;
    assert Rows(unit, shipments[..i + 1]) == Rows(unit, shipments[..i])
           + [Usage(shipments[i], 0, 0, unit, Pending, false, 0)];
    assert !KeyTaken(Rows(unit, shipments[..i]), shipments[i], 0);
  }

  lemma {:induction false} RushReachable(unit: nat, shipments: seq<Uuid>, b: nat, c: nat, i: nat)
    requires unit > 0 && AllDistinct(shipments) && i <= c <= b <= |shipments|
    requires (c > 0 ==> b == |shipments|) && (i > 0 ==> c == |shipments|)
    ensures BillableWith(Rush(unit, shipments, b, c, i), |shipments|)
    decreases b + c + i
  {
    hide BillableWith, Next, PastCap;
    RushPastCap(unit, shipments, b, c, i);
    if i > 0 {
      RushReachable(unit, shipments, b, c, i - 1);
      RushInserts(unit, shipments, i - 1);
      BillableWithStep(Rush(unit, shipments, b, c, i - 1), InsertUsage(i - 1), |shipments|);
    } else if c > 0 {
      RushReachable(unit, shipments, b, c - 1, 0);
      RushChecks(unit, shipments, c - 1);
      BillableWithStep(Rush(unit, shipments, b, c - 1, 0), CheckCap(c - 1), |shipments|);
    } else if b > 0 {
      RushReachable(unit, shipments, b - 1, 0, 0);
      RushBegins(unit, shipments, b - 1);
      BillableWithStep(Rush(unit, shipments, b - 1, 0, 0), BeginRecord(b - 1, shipments[b - 1], None), |shipments|);
    } else {
      assert Rush(unit, shipments, 0, 0, 0) == Opening(unit, unit);
      OpeningWith(unit, |shipments|);
    }
  }

  lemma OpeningWith(unit: nat, k: nat)
    ensures BillableWith(Opening(unit, unit), k)
  {
    var s := Opening(unit, unit);
    assert PastCap(map[]) == {};
    assert Bill(s, []) == s && DisciplinedRun(s, []) && AtMostPastCap(s, [], k);
  }

  lemma {:induction false} RowsCharge(unit: nat, shipments: seq<Uuid>)
    ensures ChargedSince(Rows(unit, shipments), 0) == |shipments| * unit
  {
    if shipments != [] {
      var n := |shipments| - 1;
      RowsCharge(unit, shipments[..n]);
      assert Rows(unit, shipments)[..n] == Rows(unit, shipments[..n]);
      assert (n + 1) * unit == n * unit + unit;
    }
  }

  /** The bound is attained for every k: k recordings that all pass the cap query before any inserts. */
  lemma BoundAttained(unit: nat, shipments: seq<Uuid>)
    requires unit > 0 && AllDistinct(shipments) && |shipments| >= 1
    ensures exists s :: BillableWith(s, |shipments|) && s.revived == 0 && s.cap == unit == s.unit
                        && ChargedSince(s.usages, s.cycle) == s.cap + (|shipments| - 1) * s.unit
  {
    hide BillableWith, ChargedSince;
    var k := |shipments|;
    RushReachable(unit, shipments, k, k, k);
    RowsCharge(unit, shipments);
    assert shipments[..k] == shipments;
    assert k * unit == unit + (k - 1) * unit;
    assert Rush(unit, shipments, k, k, k).revived == 0;
  }
}
