/** Exactly-once booking: over every run in which the answers about a merchant reference are truthful and
    final and the provider's AWBs stay distinct once normalised, at most one courier shipment is ever
    created per local shipment. */
module ExactlyOnce {
  import opened Wrappers
  import opened BookingSnapshot
  import opened ShipmentRows
  import opened BookingTransactions
  import opened RecordInvariant
  import opened BookingProtocol
  import opened BookingInvariant
  import opened BookingEvolution
  import opened BookingSafety

  type Courier = map<string, Ruling>

  // ---- The assumptions on the courier ---------------------------------------------------------------------------

  predicate IsBooked(courier: Courier, reference: string) {
    reference in courier && courier[reference].Booked?
  }

  /** The courier's rulings, and the references it was sent. */
  datatype Word = Word(rulings: Courier, requested: set<string>)

  function WordOf(s: State): Word {
    Word(s.courier, s.requested)
  }

  /** The courier has booked the reference, or was sent it and has not ruled. */
  predicate LiveReference(w: Word, reference: string) {
    IsBooked(w.rulings, reference) || (reference in w.requested && reference !in w.rulings)
  }

  /** The answer agrees with the courier's word; a refusal is final, or the reference was never sent. */
  predicate Told(w: Word, reference: string, answer: Answer) {
    match answer
    case Created(awb) => reference in w.rulings && w.rulings[reference] == Booked(awb)
    case Rejected => !LiveReference(w, reference)
    case Ambiguous => true
  }

  function LookupAnswer(awb: Option<string>): Answer {
    if awb.Some? then Created(awb.value) else Rejected
  }

  /** The reference whose fate a step reports, and what it reports. */
  function Report(s: State, step: Step): Option<(string, Answer)> {
    if step.CreateAnswered? && step.id in s.cells && step.k in s.cells[step.id].workers
       && CanHear(s.cells[step.id], step.k, step.reply) && WorkerAnswer(step.reply).Some?
    then Some((s.cells[step.id].workers[step.k].request.reference, WorkerAnswer(step.reply).value))
    else if step.ResolverLooks? && step.id in s.cells && s.cells[step.id].resolver.Loaded?
            && s.cells[step.id].resolver.k < |s.cells[step.id].record.intents|
    then Some((s.cells[step.id].record.intents[s.cells[step.id].resolver.k].reference, LookupAnswer(step.awb)))
    else None
  }

  /** Provider answers, lookups and operators' decisions are truthful and final. */
  predicate Truthful(s: State, step: Step) {
    var report := Report(s, step);
    report.Some? ==> Told(WordOf(s), report.value.0, report.value.1)
  }

  /** A newly issued AWB differs from every other one after normalisation. */
  ghost predicate FreshAwb(s: State, step: Step) {
    step.CourierRules? && step.ruling.Booked? && step.reference !in s.courier ==>
      forall reference :: IsBooked(s.courier, reference) && reference != step.reference ==>
        NormalizeAwb(s.courier[reference].awb) != NormalizeAwb(step.ruling.awb)
  }

  /** Every step of the run is honest where it is taken. */
  ghost predicate HonestRun(s: State, steps: seq<Step>) {
    steps != [] ==>
      var n := |steps| - 1;
      HonestRun(s, steps[..n]) && Truthful(Run(s, steps[..n]), steps[n]) && FreshAwb(Run(s, steps[..n]), steps[n])
  }

  // ---- The invariant ----------------------------------------------------------------------------------------------

  predicate Ruled(w: Word, awb: Option<string>, intent: Intent) {
    && (intent.outcome.SettledFailed() ==> Told(w, intent.reference, Rejected))
    && (intent.outcome.SettledConfirmed() ==>
          IsBooked(w.rulings, intent.reference) && awb == Some(NormalizeAwb(w.rulings[intent.reference].awb)))
  }

  /** What a shipment's processes hold about its references is the courier's word. */
  ghost predicate CourierOk(w: Word, c: Cell) {
    var intents := c.record.intents;
    && (forall k :: 0 <= k < |intents| ==> Ruled(w, c.record.row.awb, intents[k]))
    && (forall k :: k in c.workers && c.workers[k].Answered? && k < |intents| ==>
        Told(w, intents[k].reference, c.workers[k].answer))
    && (forall k :: k in c.memo && c.record.Unresolved(k) ==> Told(w, intents[k].reference, c.memo[k]))
    && (c.resolver.Looked? && c.resolver.k < |intents| ==>
          Told(w, intents[c.resolver.k].reference, LookupAnswer(c.resolver.awb)))
  }

  /** AWBs are distinct, except among the references of `base`. */
  ghost predicate DistinctAwbs(courier: Courier, base: set<string>) {
    forall r1, r2 :: IsBooked(courier, r1) && IsBooked(courier, r2) && r1 != r2 && r1 !in base ==>
      NormalizeAwb(courier[r1].awb) != NormalizeAwb(courier[r2].awb)
  }

  ghost predicate Attempt(s: State, id: Uuid, k: nat, reference: string) {
    id in s.cells && k < |s.cells[id].record.intents| && s.cells[id].record.intents[k].reference == reference
  }

  ghost predicate SettledAttempt(s: State, id: Uuid, k: nat, reference: string) {
    Attempt(s, id, k, reference) && s.cells[id].record.intents[k].outcome.Settled()
  }

  ghost predicate AllSettled(s: State, references: set<string>) {
    forall reference :: reference in references ==> exists id, k :: SettledAttempt(s, id, k, reference)
  }

  /** `base` holds references of attempts that were settled before the honest part of the run; it is empty
      for a run that is honest from the start. */
  ghost predicate HonestInv(s: State, base: set<string>) {
    && Inv(s) && DistinctAwbs(s.courier, base) && AllSettled(s, base)
    && forall id :: id in s.cells ==> CourierOk(WordOf(s), s.cells[id])
  }

  /** The courier never takes a word back. */
  ghost predicate CourierExtends(courier: Courier, courier': Courier) {
    forall reference :: reference in courier ==> reference in courier' && courier'[reference] == courier[reference]
  }

  /** More rulings on what was requested, and more requests. */
  ghost predicate WordExtends(w: Word, w': Word) {
    && CourierExtends(w.rulings, w'.rulings) && w.requested <= w'.requested
    && w'.rulings.Keys <= w.rulings.Keys + w.requested
  }

  /** Nobody holds an answer about the reference. */
  ghost predicate SilentOn(c: Cell, reference: string) {
    forall k :: 0 <= k < |c.record.intents| && c.record.intents[k].reference == reference ==>
      && !c.record.intents[k].outcome.Settled() && k !in c.memo
      && !(k in c.workers && c.workers[k].Answered?) && !(c.resolver.Looked? && c.resolver.k == k)
  }

  lemma ToldExtends(w: Word, w': Word, reference: string, answer: Answer)
    requires Told(w, reference, answer) && WordExtends(w, w')
    requires (reference in w'.requested ==> reference in w.requested)
    ensures Told(w', reference, answer)
  {
  }

  /** What is held stays the courier's word when only references nobody speaks of are newly requested. */
  lemma OkExtends(w: Word, w': Word, c: Cell)
    requires CourierOk(w, c) && WordExtends(w, w')
    requires forall reference :: reference in w'.requested && reference !in w.requested ==> SilentOn(c, reference)
    ensures CourierOk(w', c)
  {
    hide NormalizeAwb, Told, WordExtends;
    var intents := c.record.intents;
    forall k, answer | 0 <= k < |intents|
        && !(intents[k].reference in w'.requested && intents[k].reference !in w.requested)
                       && Told(w, intents[k].reference, answer)
      ensures Told(w', intents[k].reference, answer)
    {
      ToldExtends(w, w', intents[k].reference, answer);
    }
    forall k | 0 <= k < |intents|
      ensures Ruled(w', c.record.row.awb, intents[k])
    {
      RuledExtends(w, w', c.record.row.awb, intents[k]);
    }
    hide Ruled;
  }

  lemma RuledExtends(w: Word, w': Word, awb: Option<string>, intent: Intent)
    requires Ruled(w, awb, intent) && WordExtends(w, w')
    requires intent.reference in w'.requested && intent.reference !in w.requested ==> !intent.outcome.Settled()
    ensures Ruled(w', awb, intent)
  {
    hide NormalizeAwb;
  }

  lemma EffectOnCourier(s: State, step: Step)
    ensures CourierExtends(s.courier, Effect(s, step).courier)
    ensures FreshAwb(s, step) ==> forall base :: DistinctAwbs(s.courier, base) ==>
              DistinctAwbs(Effect(s, step).courier, base)
    ensures Effect(s, step).cells != s.cells ==> Effect(s, step).courier == s.courier
  {
    hide CellStep, NewRequest, NewlySealed, Seal, NormalizeAwb;
  }

  /** A step that leaves the attempts of a shipment as they are. */
  lemma SameIntentsOk(w: Word, c: Cell, c': Cell)
    requires CourierOk(w, c) && c'.record.intents == c.record.intents && c'.record.row.awb == c.record.row.awb
    requires forall k :: k in c'.workers && c'.workers[k].Answered? ==>
               (k in c.workers && c'.workers[k] == c.workers[k])
                   || (k in c.memo && c'.workers[k].answer == c.memo[k] && c.record.Unresolved(k))
               || (k < |c.record.intents| ==> Told(w, c.record.intents[k].reference, c'.workers[k].answer))
    requires forall k :: k in c'.memo ==>
               (k in c.memo && c'.memo[k] == c.memo[k])
               || (c.record.Unresolved(k) ==> Told(w, c.record.intents[k].reference, c'.memo[k]))
    requires c'.resolver == c.resolver
             || (c'.resolver.Looked? && c'.resolver.k < |c.record.intents| ==>
                   Told(w, c.record.intents[c'.resolver.k].reference, LookupAnswer(c'.resolver.awb)))
    ensures CourierOk(w, c')
  {
    hide NormalizeAwb, Told;
  }

  lemma QueueKeepsAwb(r: Record, id: Uuid, input: BookingInput, outstanding: Option<nat>, seen: Reads)
    ensures var result := QueueTx(r, id, input, outstanding, seen);
            result.Committed? ==> result.record.row.awb == r.row.awb
  {
    hide MerchantReference, Canonical, QueuedEntries, BuildSnapshot;
  }

  lemma NothingHeard(id: Uuid, c: Cell)
    requires CellInv(id, c) && c.record.row.state !in {Submitted, Confirmed, Void, OutcomeUnknown}
    ensures (forall k :: k !in c.workers) && !c.resolver.Looked? && forall k :: k in c.memo ==> k < |c.record.intents|
  {
    Idle(id, c);
    hide RecordInv, WorkersInv, SentInv, CancelInv, LedgerInv;
  }

  /** A new attempt, in flight, no process on it yet. */
  lemma ExtendedOk(id: Uuid, w: Word, c: Cell, r': Record)
    requires CellInv(id, c) && CourierOk(w, c) && Extends(c.record, r') && r'.row.awb == c.record.row.awb
    requires r'.intents[|c.record.intents|].outcome == InFlight
    requires c.record.row.state !in {Submitted, Confirmed, Void, OutcomeUnknown}
    ensures CourierOk(w, c.(record := r'))
  {
    hide CellInv, Told, NormalizeAwb;
    NothingHeard(id, c);
  }

  lemma QueueOk(id: Uuid, w: Word, c: Cell, input: BookingInput, outstanding: Option<nat>, seen: Reads)
    requires CellInv(id, c) && CourierOk(w, c)
    ensures CourierOk(w, WithRecord(c, QueueTx(c.record, id, input, outstanding, seen)))
  {
    var result := QueueTx(c.record, id, input, outstanding, seen);
    if result.Committed? {
      assert c.record.row.state in {Draft, NeedsManualAssignment, Failed} by {
        hide CellInv, CourierOk, MerchantReference, BuildSnapshot;
      }
      hide CourierOk, QueueTx, RecordInv;
      CellRows(id, c);
      hide CellInv;
      RecordInvariant.QueueKeeps(id, c.record, input, outstanding, seen);
      QueueKeepsAwb(c.record, id, input, outstanding, seen);
      ExtendedOk(id, w, c, result.record);
    }
  }

  /** The word the courier gave is what a settling transaction writes. */
  lemma SettledRuled(w: Word, r: Record, k: nat, answer: Answer, result: TxResult, outcome: IntentOutcome,
                     failure: IntentOutcome, from: BookingState, testMode: bool, duplicate: bool, otherCarrier: bool)
    requires k < |r.intents| && Told(w, r.intents[k].reference, answer)
    requires outcome.SettledConfirmed() && failure.SettledFailed() && (answer.Created? ==> !duplicate)
    requires match answer
             case Created(awb) => result == ConfirmTx(r, k, awb, outcome, testMode, duplicate, otherCarrier)
             case Rejected => result == SettleFailedTx(r, k, from, failure, otherCarrier)
             case Ambiguous => result == MarkUnknownTx(r, k, otherCarrier)
    ensures result.Committed? ==>
              && |result.record.intents| == |r.intents|
              && (forall j :: 0 <= j < |r.intents| && j != k ==> result.record.intents[j] == r.intents[j])
              && result.record.intents[k].reference == r.intents[k].reference
              && Ruled(w, result.record.row.awb, result.record.intents[k])
  {
    hide NormalizeAwb;
  }

  /** The cell after its latest attempt was settled as the courier said. */
  lemma SettledOk(id: Uuid, w: Word, c: Cell, c': Cell, k: nat)
    requires CellInv(id, c) && CourierOk(w, c) && IsLatest(c.record, k) && c.record.Unresolved(k)
    requires |c'.record.intents| == |c.record.intents| && c'.memo == c.memo
    requires forall j :: 0 <= j < k ==> c'.record.intents[j] == c.record.intents[j]
    requires c'.record.intents[k].reference == c.record.intents[k].reference
    requires Ruled(w, c'.record.row.awb, c'.record.intents[k])
    requires !c'.resolver.Looked? && forall j :: j in c'.workers ==> !c'.workers[j].Answered?
    ensures CourierOk(w, c')
  {
    hide BuildRequest, BuildSnapshot, IntentsInv, RequestOf, NormalizeAwb, Told, WorkersInv, ResolverOk, SentInv;
    hide CancelInv, LedgerInv;
    forall j | 0 <= j < |c.record.intents| && j != k
      ensures Ruled(w, c'.record.row.awb, c'.record.intents[j])
    {
      assert Ruled(w, c.record.row.awb, c.record.intents[j]);
    }
  }

  /** What a settling step leaves of the processes. */
  ghost predicate SettledShape(c: Cell, c': Cell, result: TxResult) {
    && c'.record == (if result.Committed? then result.record else c.record) && c'.memo == c.memo
    && !c'.resolver.Looked? && forall j :: j in c'.workers ==> !c'.workers[j].Answered?
  }

  lemma WorkerShape(id: Uuid, c: Cell, k: nat, testMode: bool, seen: Reads)
    requires CellInv(id, c) && k in c.workers && c.workers[k].Answered? && k < |c.record.intents|
    ensures SettledShape(c, SettleWorkerStep(c, k, testMode, seen), SettleWorkerTx(c, k, testMode, seen))
  {
    hide CellInv, SettleWorkerTx, SettlesTo;
    OnlyWorker(id, c, k, AfterConfirm(testMode));
    SettleWorkerTxKeeps(id, c, k, testMode, seen);
  }

  lemma ResolverShape(id: Uuid, c: Cell, testMode: bool, seen: Reads)
    requires CellInv(id, c) && c.resolver.Looked? && c.resolver.k < |c.record.intents|
    ensures SettledShape(c, SettleResolverStep(c, testMode, seen), SettleResolverTx(c, testMode, seen))
  {
    hide CellInv, SettleResolverTx;
    LookedAtLatest(id, c);
    Idle(id, c);
  }

  /** Settling the latest attempt as the courier said keeps the courier's word. */
  lemma SettledCellOk(id: Uuid, w: Word, c: Cell, c': Cell, k: nat, result: TxResult)
    requires CellInv(id, c) && CourierOk(w, c) && IsLatest(c.record, k) && c.record.Unresolved(k)
    requires SettledShape(c, c', result)
    requires result.Committed? ==>
               && |result.record.intents| == |c.record.intents|
               && (forall j :: 0 <= j < |c.record.intents| && j != k ==>
                   result.record.intents[j] == c.record.intents[j])
               && result.record.intents[k].reference == c.record.intents[k].reference
               && Ruled(w, result.record.row.awb, result.record.intents[k])
    ensures CourierOk(w, c')
  {
    if result.Committed? {
      hide CellInv, CourierOk, Ruled;
      SettledOk(id, w, c, c', k);
    } else {
      hide CellInv, Ruled, Told, NormalizeAwb;
    }
  }

  lemma SettleWorkerOk(id: Uuid, w: Word, c: Cell, k: nat, testMode: bool, seen: Reads)
    requires CellInv(id, c) && CourierOk(w, c)
    requires k in c.workers && c.workers[k].Answered? && c.workers[k].answer.Created? ==> !seen.duplicate
    ensures CourierOk(w, SettleWorkerStep(c, k, testMode, seen))
  {
    hide CellInv, NormalizeAwb, Ruled, Told, ConfirmTx, SettleFailedTx, MarkUnknownTx, SettledShape;
    if k in c.workers && c.workers[k].Answered? && k < |c.record.intents| {
      OnlyWorker(id, c, k, AfterConfirm(testMode));
      AnsweredUnresolved(id, c, k);
      var result := SettleWorkerTx(c, k, testMode, seen);
      SettledRuled(w, c.record, k, c.workers[k].answer, result, IntentConfirmed, IntentFailed, Submitted, testMode,
                   seen.duplicate, seen.write);
      WorkerShape(id, c, k, testMode, seen);
      hide SettleWorkerTx, SettleWorkerStep, CourierOk;
      SettledCellOk(id, w, c, SettleWorkerStep(c, k, testMode, seen), k, result);
    }
  }

  lemma SettleResolverOk(id: Uuid, w: Word, c: Cell, testMode: bool, seen: Reads)
    requires CellInv(id, c) && CourierOk(w, c)
    requires c.resolver.Looked? && c.resolver.awb.Some? ==> !seen.duplicate
    ensures CourierOk(w, SettleResolverStep(c, testMode, seen))
  {
    hide CellInv, NormalizeAwb, Ruled, Told, ConfirmTx, SettleFailedTx, MarkUnknownTx, SettledShape;
    if c.resolver.Looked? && c.resolver.k < |c.record.intents| {
      LookedAtLatest(id, c);
      var result := SettleResolverTx(c, testMode, seen);
      SettledRuled(w, c.record, c.resolver.k, LookupAnswer(c.resolver.awb), result, ResolvedConfirmed, ResolvedFailed,
                   OutcomeUnknown, testMode, seen.duplicate, seen.write);
      ResolverShape(id, c, testMode, seen);
      hide SettleResolverTx, SettleResolverStep, CourierOk;
      SettledCellOk(id, w, c, SettleResolverStep(c, testMode, seen), c.resolver.k, result);
    }
  }

  // ---- Distinct references keep AWBs apart --------------------------------------------------------------------------

  /** Two attempts of the system never share a merchant reference. */
  lemma ReferencesDistinct(s: State, a: Uuid, i: nat, b: Uuid, j: nat)
    requires CellsInv(s) && a in s.cells && b in s.cells
    requires i < |s.cells[a].record.intents| && j < |s.cells[b].record.intents|
    requires s.cells[a].record.intents[i].reference == s.cells[b].record.intents[j].reference
    ensures a == b && i == j
  {
    hide MerchantReference, Canonical, QueuedEntries, RowInv, WorkersInv, ResolverOk, SentInv, CancelInv, LedgerInv;
    hide CountersInv;
    assert CellInv(a, s.cells[a]) && CellInv(b, s.cells[b]);
    var ra, rb := s.cells[a].record, s.cells[b].record;
    assert IntentFrozen(a, ra.row.shop, i, ra.intents[i], ra.frozen[i]);
    assert IntentFrozen(b, rb.row.shop, j, rb.intents[j], rb.frozen[j]);
    ReferenceInjective(ra.row.shop, a, i + 1, rb.row.shop, b, j + 1);
  }

  /** A shipment that holds an AWB holds the one the courier issued for its latest attempt. */
  lemma HolderIsBooked(s: State, id: Uuid, base: set<string>)
    requires HonestInv(s, base) && id in s.cells && s.cells[id].record.row.awb.Some?
    ensures var intents := s.cells[id].record.intents;
            && intents != [] && IsBooked(s.courier, intents[|intents| - 1].reference)
            && s.cells[id].record.row.awb.value == NormalizeAwb(s.courier[intents[|intents| - 1].reference].awb)
  {
    hide NormalizeAwb, IntentsInv, WorkersInv, ResolverOk, SentInv, CancelInv, LedgerInv, CountersInv;
    assert CellInv(id, s.cells[id]) && CourierOk(WordOf(s), s.cells[id]);
    var intents := s.cells[id].record.intents;
    assert Ruled(WordOf(s), s.cells[id].record.row.awb, intents[|intents| - 1]);
  }

  lemma NotInBase(s: State, id: Uuid, k: nat, base: set<string>)
    requires CellsInv(s) && AllSettled(s, base) && id in s.cells && s.cells[id].record.Unresolved(k)
    ensures s.cells[id].record.intents[k].reference !in base
  {
    hide CellInv;
    var reference := s.cells[id].record.intents[k].reference;
    if reference in base {
      var id', k' :| SettledAttempt(s, id', k', reference);
      ReferencesDistinct(s, id, k, id', k');
    }
  }

  /** So the quarantine branch of a confirmation is never taken. */
  lemma NoDuplicate(s: State, id: Uuid, k: nat, awb: string, seen: Reads, base: set<string>)
    requires HonestInv(s, base) && id in s.cells && s.cells[id].record.Unresolved(k)
    requires Told(WordOf(s), s.cells[id].record.intents[k].reference, Created(awb))
    requires ReadsHold(s, id, Some(NormalizeAwb(awb)), seen)
    ensures !seen.duplicate
  {
    hide NormalizeAwb, CellInv, CourierOk;
    if seen.duplicate {
      var other :| other in s.cells && other != id
          && SameAwb(s.cells[id].record.row, s.cells[other].record.row, NormalizeAwb(awb));
      HolderIsBooked(s, other, base);
      var intents := s.cells[other].record.intents;
      NotInBase(s, id, k, base);
      ReferencesDistinct(s, id, k, other, |intents| - 1);
    }
  }

  // ---- Preservation -----------------------------------------------------------------------------------------------

  lemma AnswerOk(id: Uuid, w: Word, c: Cell, k: nat, reply: AdapterReply)
    requires CellInv(id, c) && CourierOk(w, c)
    requires CanHear(c, k, reply) && WorkerAnswer(reply).Some? ==>
               Told(w, c.workers[k].request.reference, WorkerAnswer(reply).value)
    ensures CourierOk(w, AnswerStep(c, k, reply))
  {
    hide CellInv, NormalizeAwb, Ruled, Told, WorkerAnswer, Memoised, CallRefused, BeforeSending;
    if CanHear(c, k, reply) {
      AskerUnresolved(id, c, k);
    }
    SameIntentsOk(w, c, AnswerStep(c, k, reply));
  }

  /** A worker that has its answer before it works on the attempt in flight, under that attempt's reference. */
  lemma AskerUnresolved(id: Uuid, c: Cell, k: nat)
    requires CellInv(id, c) && k in c.workers && (c.workers[k].Ready? || c.workers[k].Sent?)
    ensures c.record.Unresolved(k) && c.workers[k].request.reference == c.record.intents[k].reference
    ensures c.record.row.state == Submitted && !c.resolver.Looked?
  {
    hide BuildSnapshot, IntentsInv, SentInv, CancelInv, LedgerInv, CountersInv;
    assert WorkerOk(c.record, c.ledger, c.overageRecords, k, c.workers[k]);
  }

  /** Steps that neither queue nor settle nor hear from the courier. */
  predicate Quiet(step: Step) {
    !step.QueueBooking? && !step.SettleWorker? && !step.SettleResolver? && !step.CreateAnswered? && !step.ResolverLooks?
  }

  ghost predicate SameWord(c: Cell, c': Cell) {
    && c'.record.intents == c.record.intents && c'.record.row.awb == c.record.row.awb
    && (forall k :: k in c'.workers && c'.workers[k].Answered? ==>
          (k in c.workers && c'.workers[k] == c.workers[k]) || (k in c.memo && c'.workers[k].answer == c.memo[k]))
    && (forall k :: k in c'.memo ==> k in c.memo && c'.memo[k] == c.memo[k])
    && (c'.resolver == c.resolver || !c'.resolver.Looked?)
  }

  ghost predicate SameRows(r: Record, result: TxResult) {
    result.Committed? ==> result.record.intents == r.intents && result.record.row.awb == r.row.awb
  }

  /** Only queueing and settling touch the attempts or the AWB. */
  lemma OthersKeepRows(r: Record, k: nat, workingValues: string, manual: bool, previous: CustodyState,
                       otherCarrier: bool)
    ensures SameRows(r, RouteTx(r, workingValues, manual, otherCarrier)) && SameRows(r, ClaimTx(r, k, otherCarrier))
    ensures SameRows(r, SettleCancelledTx(r, otherCarrier)) && SameRows(r, SettleRejectedTx(r, previous))
    ensures SameRows(r, RequestCancelTx(r)) && SameRows(r, SchedulePickupTx(r)) && SameRows(r, ReversePickupTx(r))
    ensures SameRows(r, PickedUpTx(r))
  {
  }

  /** Rows as they were for the courier, and only cancellations moved. */
  lemma CancelLeavesWord(c: Cell, c': Cell)
    requires c'.record.intents == c.record.intents && c'.record.row.awb == c.record.row.awb
    requires c'.workers == c.workers && c'.memo == c.memo && c'.resolver == c.resolver
    ensures SameWord(c, c')
  {
  }

  lemma CancelIsQuiet(c: Cell, call: nat, seen: Reads)
    ensures SameWord(c, SettleCancelStep(c, call, seen))
  {
    hide SettleCancelledTx, SettleRejectedTx, RouteTx, ClaimTx, RequestCancelTx, SchedulePickupTx, ReversePickupTx;
    hide PickedUpTx, SameWord;
    if call in c.cancels && c.cancels[call].Replied? {
      OthersKeepRows(c.record, 0, "", false, c.cancels[call].previous, seen.write);
    }
    CancelLeavesWord(c, SettleCancelStep(c, call, seen));
  }

  lemma ClaimIsQuiet(c: Cell, k: nat, seen: Reads)
    ensures SameWord(c, ClaimStep(c, k, seen))
  {
    hide BuildRequest, ClaimTx;
    OthersKeepRows(c.record, k, "", false, PickupPending, seen.write);
  }

  lemma RowsAreQuiet(c: Cell, result: TxResult, pickedUp: bool)
    requires SameRows(c.record, result)
    ensures SameWord(c, WithRecord(c, result))
    ensures (result.Committed? ==> SameWord(c, c.(record := result.record, pickedUp := pickedUp)))
  {
  }

  lemma RowStepsAreQuiet(c: Cell, workingValues: string, manual: bool, seen: Reads)
    ensures SameWord(c, WithRecord(c, RouteTx(c.record, workingValues, manual, seen.write)))
    ensures SameWord(c, WithRecord(c, SchedulePickupTx(c.record)))
    ensures SameWord(c, WithRecord(c, ReversePickupTx(c.record)))
  {
    hide SameWord, SameRows, RouteTx, SchedulePickupTx, ReversePickupTx;
    OthersKeepRows(c.record, 0, workingValues, manual, PickupPending, seen.write);
    RowsAreQuiet(c, RouteTx(c.record, workingValues, manual, seen.write), false);
    RowsAreQuiet(c, SchedulePickupTx(c.record), false);
    RowsAreQuiet(c, ReversePickupTx(c.record), false);
  }

  lemma PickedUpIsQuiet(c: Cell)
    ensures SameWord(c, PickedUpStep(c))
  {
    hide SameWord, SameRows, PickedUpTx;
    OthersKeepRows(c.record, 0, "", false, PickupPending, false);
    RowsAreQuiet(c, PickedUpTx(c.record), true);
    UntouchedIsQuiet(c, c);
  }

  lemma RequestIsQuiet(c: Cell, call: nat)
    ensures SameWord(c, RequestCancelStep(c, call))
  {
    hide RequestCancelTx;
    OthersKeepRows(c.record, 0, "", false, PickupPending, false);
  }

  lemma SendIsQuiet(c: Cell, k: nat)
    ensures SameWord(c, SendStep(c, k))
  {
  }

  lemma DropIsQuiet(c: Cell, k: nat, c': Cell)
    requires c'.record == c.record
    requires (c'.workers == c.workers || c'.workers == c.workers - {k} || c'.workers == c.workers[k := AfterDebit])
    requires (c'.memo == c.memo || c'.memo == c.memo - {k}) && c'.resolver == c.resolver
    ensures SameWord(c, c')
  {
  }

  lemma WorkerCallsAreQuiet(c: Cell, k: nat, subscribed: bool)
    ensures SameWord(c, DropWorker(c, k)) && SameWord(c, c.(memo := c.memo - {k}))
    ensures SameWord(c, WorkerDebitStep(c, k, subscribed)) && SameWord(c, WorkerOverageStep(c, k))
  {
    hide SameWord, InsertOnce;
    DropIsQuiet(c, k, DropWorker(c, k));
    DropIsQuiet(c, k, c.(memo := c.memo - {k}));
    DropIsQuiet(c, k, WorkerDebitStep(c, k, subscribed));
    DropIsQuiet(c, k, WorkerOverageStep(c, k));
  }

  lemma UntouchedIsQuiet(c: Cell, c': Cell)
    requires c'.record == c.record && c'.workers == c.workers && c'.memo == c.memo
    requires (c'.resolver == c.resolver || !c'.resolver.Looked?)
    ensures SameWord(c, c')
  {
  }

  lemma ResolverCallsAreQuiet(c: Cell, k: nat, subscribed: bool)
    ensures SameWord(c, ResolverLoadStep(c, k)) && SameWord(c, ResolverDebitStep(c, subscribed))
    ensures SameWord(c, ResolverOverageStep(c))
    ensures SameWord(c, c) && SameWord(c, c.(resolver := SawUnknown)) && SameWord(c, c.(resolver := Resting))
  {
    hide SameWord;
    UntouchedIsQuiet(c, c);
    UntouchedIsQuiet(c, ResolverLoadStep(c, k));
    UntouchedIsQuiet(c, ResolverDebitStep(c, subscribed));
    UntouchedIsQuiet(c, ResolverOverageStep(c));
    UntouchedIsQuiet(c, c.(resolver := SawUnknown));
    UntouchedIsQuiet(c, c.(resolver := Resting));
  }

  lemma CancelCallsAreQuiet(c: Cell, call: nat, subscribed: bool, verdict: CancelReply)
    ensures SameWord(c, CancelAnswerStep(c, call, verdict)) && SameWord(c, LedgerReversalStep(c, call, subscribed))
    ensures SameWord(c, OverageReversalStep(c, call)) && SameWord(c, CrashCancelStep(c, call))
  {
    hide SameWord;
    UntouchedIsQuiet(c, CancelAnswerStep(c, call, verdict));
    UntouchedIsQuiet(c, LedgerReversalStep(c, call, subscribed));
    UntouchedIsQuiet(c, OverageReversalStep(c, call));
    UntouchedIsQuiet(c, CrashCancelStep(c, call));
  }

  lemma QuietSteps(c: Cell, step: Step, outstanding: Option<nat>)
    requires Quiet(step)
    ensures SameWord(c, CellStep(c, step, outstanding))
  {
    hide SameWord, QueueTx, RouteTx, ClaimStep, SendStep, AnswerStep, SettleWorkerStep, WorkerDebitStep;
    hide WorkerOverageStep, DropWorker;
    hide ResolverLoadStep, SettleResolverStep, ResolverDebitStep, ResolverOverageStep, RequestCancelStep;
    hide CancelAnswerStep;
    hide SettleCancelStep, LedgerReversalStep, OverageReversalStep, CrashCancelStep, SchedulePickupTx;
    hide ReversePickupTx, PickedUpStep;
    var none := Reads(false, false, false, false);
    ResolverCallsAreQuiet(c, 0, false);
    match step
    case Route(_, workingValues, manual, seen) => RowStepsAreQuiet(c, workingValues, manual, seen);
    case ClaimJob(_, k, seen) => ClaimIsQuiet(c, k, seen);
    case SettleCancel(_, call, seen) => CancelIsQuiet(c, call, seen);
    case RequestCancel(_, call) => RequestIsQuiet(c, call);
    case SchedulePickup(_) => RowStepsAreQuiet(c, "", false, none);
    case ReversePickup(_) => RowStepsAreQuiet(c, "", false, none);
    case PickedUp(_) => PickedUpIsQuiet(c);
    case SendCreate(_, k) => SendIsQuiet(c, k);
    case CrashWorker(_, k) => WorkerCallsAreQuiet(c, k, false);
    case ForgetMemo(_, k) => WorkerCallsAreQuiet(c, k, false);
    case DebitByWorker(_, k, subscribed) => WorkerCallsAreQuiet(c, k, subscribed);
    case OverageByWorker(_, k) => WorkerCallsAreQuiet(c, k, false);
    case ResolverLoads(_, k) => ResolverCallsAreQuiet(c, k, false);
    case DebitByResolver(_, subscribed) => ResolverCallsAreQuiet(c, 0, subscribed);
    case CancelAnswered(_, call, verdict) => CancelCallsAreQuiet(c, call, false, verdict);
    case ReverseLedger(_, call, subscribed) => CancelCallsAreQuiet(c, call, subscribed, CancelAmbiguous);
    case ReverseOverage(_, call) => CancelCallsAreQuiet(c, call, false, CancelAmbiguous);
    case CrashCancel(_, call) => CancelCallsAreQuiet(c, call, false, CancelAmbiguous);
    case _ =>
  }

  lemma WorkerStepOk(s: State, id: Uuid, k: nat, testMode: bool, seen: Reads, base: set<string>)
    requires HonestInv(s, base) && id in s.cells && ReadsOk(s, SettleWorker(id, k, testMode, seen))
    ensures CourierOk(WordOf(s), SettleWorkerStep(s.cells[id], k, testMode, seen))
  {
    hide CellInv, Told, NormalizeAwb, ReadsHold, SettleWorkerStep;
    var c := s.cells[id];
    if k in c.workers && c.workers[k].Answered? && c.workers[k].answer.Created? {
      OnlyWorker(id, c, k, c.workers[k]);
      AnsweredUnresolved(id, c, k);
      NoDuplicate(s, id, k, c.workers[k].answer.awb, seen, base);
    }
    SettleWorkerOk(id, WordOf(s), c, k, testMode, seen);
  }

  lemma ResolverStepOk(s: State, id: Uuid, testMode: bool, seen: Reads, base: set<string>)
    requires HonestInv(s, base) && id in s.cells && ReadsOk(s, SettleResolver(id, testMode, seen))
    ensures CourierOk(WordOf(s), SettleResolverStep(s.cells[id], testMode, seen))
  {
    hide CellInv, Told, NormalizeAwb, ReadsHold, SettleResolverStep;
    var c := s.cells[id];
    if c.resolver.Looked? && c.resolver.awb.Some? {
      LookedAtLatest(id, c);
      NoDuplicate(s, id, c.resolver.k, c.resolver.awb.value, seen, base);
    }
    SettleResolverOk(id, WordOf(s), c, testMode, seen);
  }

  lemma AnswerStepOk(s: State, id: Uuid, k: nat, reply: AdapterReply, base: set<string>)
    requires HonestInv(s, base) && id in s.cells && Truthful(s, CreateAnswered(id, k, reply))
    ensures CourierOk(WordOf(s), AnswerStep(s.cells[id], k, reply))
  {
    hide CellInv, CourierOk, Told, WorkerAnswer, AnswerStep;
    AnswerOk(id, WordOf(s), s.cells[id], k, reply);
  }

  lemma LookOk(s: State, id: Uuid, awb: Option<string>, base: set<string>)
    requires HonestInv(s, base) && id in s.cells && Truthful(s, ResolverLooks(id, awb))
    ensures CourierOk(WordOf(s), CellStep(s.cells[id], ResolverLooks(id, awb), None))
  {
    hide CellInv, Told, NormalizeAwb, LookupAnswer;
    SameIntentsOk(WordOf(s), s.cells[id], CellStep(s.cells[id], ResolverLooks(id, awb), None));
  }

  lemma LoudNextOk(s: State, step: Step, id: Uuid, base: set<string>)
    requires HonestInv(s, base) && ReadsOk(s, step) && Truthful(s, step) && Subject(step) == Some(id) && id in s.cells
    requires !Quiet(step)
    ensures CourierOk(WordOf(s), NextCell(s, step, id))
  {
    hide CellInv, CourierOk, Truthful, ReadsOk, QueueTx, AnswerStep, SettleWorkerStep, SettleResolverStep, NextCell;
    LoudCells(s, step, id);
    if step.QueueBooking? {
      QueueOk(id, WordOf(s), s.cells[id], step.input, Outstanding(s, s.cells[id].record.row.order), step.seen);
    } else if step.SettleWorker? {
      WorkerStepOk(s, id, step.k, step.testMode, step.seen, base);
    } else if step.SettleResolver? {
      ResolverStepOk(s, id, step.testMode, step.seen, base);
    } else if step.CreateAnswered? {
      AnswerStepOk(s, id, step.k, step.reply, base);
    } else {
      LookOk(s, id, step.awb, base);
    }
  }

  lemma LoudCells(s: State, step: Step, id: Uuid)
    requires id in s.cells && Subject(step) == Some(id)
    ensures var c := s.cells[id];
            && (step.QueueBooking? ==>
                  var outstanding := Outstanding(s, c.record.row.order);
                  NextCell(s, step, id) == WithRecord(c, QueueTx(c.record, id, step.input, outstanding, step.seen)))
            && (step.SettleWorker? ==> NextCell(s, step, id) == SettleWorkerStep(c, step.k, step.testMode, step.seen))
            && (step.SettleResolver? ==> NextCell(s, step, id) == SettleResolverStep(c, step.testMode, step.seen))
            && (step.CreateAnswered? ==> NextCell(s, step, id) == AnswerStep(c, step.k, step.reply))
            && (step.ResolverLooks? ==> NextCell(s, step, id) == CellStep(c, step, None))
  {
    hide QueueTx, AnswerStep, SettleWorkerStep, SettleResolverStep, WithRecord;
  }

  /** The subject's own cell keeps the courier's word. */
  lemma NextCellOk(s: State, step: Step, id: Uuid, base: set<string>)
    requires HonestInv(s, base) && ReadsOk(s, step) && Truthful(s, step) && Subject(step) == Some(id) && id in s.cells
    ensures CourierOk(WordOf(s), NextCell(s, step, id))
  {
    var c := s.cells[id];
    hide CellInv, CourierOk, Truthful, ReadsOk, CellStep, SameWord;
    if Quiet(step) {
      QuietSteps(c, step, Outstanding(s, c.record.row.order));
      NextCellKeeps(s, step, id);
      QuietOk(id, WordOf(s), c, NextCell(s, step, id));
    } else {
      LoudNextOk(s, step, id, base);
    }
  }

  lemma AnsweredUnresolved(id: Uuid, c: Cell, k: nat)
    requires CellInv(id, c) && k in c.workers && c.workers[k].Answered?
    ensures c.record.Unresolved(k)
  {
    hide BuildRequest, BuildSnapshot, IntentsInv, ResolverOk, SentInv, CancelInv, LedgerInv, CountersInv;
    assert WorkerOk(c.record, c.ledger, c.overageRecords, k, c.workers[k]);
  }

  lemma QuietOk(id: Uuid, w: Word, c: Cell, c': Cell)
    requires CourierOk(w, c) && SameWord(c, c') && CellInv(id, c')
    ensures CourierOk(w, c')
  {
    hide NormalizeAwb, Told, CellInv, CourierOk;
    forall k | k in c'.workers && c'.workers[k].Answered?
      ensures c.record.Unresolved(k)
    {
      AnsweredUnresolved(id, c', k);
    }
    SameIntentsOk(w, c, c');
  }

  lemma LookedAtLatest(id: Uuid, c: Cell)
    requires CellInv(id, c) && c.resolver.Looked?
    ensures IsLatest(c.record, c.resolver.k) && c.record.row.state == OutcomeUnknown
    ensures c.record.Unresolved(c.resolver.k)
  {
    hide IntentsInv, BuildSnapshot, BuildRequest, WorkersInv, SentInv, CancelInv, LedgerInv, CountersInv;
  }

  lemma SettledLasts(s: State, s': State, references: set<string>)
    requires AllSettled(s, references) && StateEvolves(s, s')
    ensures AllSettled(s', references)
  {
    hide CellEvolves;
    forall reference | reference in references
      ensures exists id, k :: SettledAttempt(s', id, k, reference)
    {
      var id, k :| SettledAttempt(s, id, k, reference);
      SettledAttemptLasts(s, s', id, k, reference);
    }
  }

  lemma SettledAttemptLasts(s: State, s': State, id: Uuid, k: nat, reference: string)
    requires SettledAttempt(s, id, k, reference) && StateEvolves(s, s')
    ensures SettledAttempt(s', id, k, reference)
  {
    assert CellEvolves(s.cells[id], s'.cells[id]);
  }

  lemma EffectOnWord(s: State, step: Step)
    ensures WordExtends(WordOf(s), WordOf(Effect(s, step)))
  {
    hide Effect, NewRequest;
    EffectOnCourier(s, step);
    EffectOnRequests(s, step);
  }

  lemma StillSilent(c: Cell, k: nat, reference: string)
    requires SilentOn(c, reference)
    ensures k !in c.memo ==> SilentOn(SendStep(c, k), reference)
  {
  }

  /** No other attempt of the shipment carries the reference of this one. */
  ghost predicate OwnReference(c: Cell, k: nat)
    requires k < |c.record.intents|
  {
    var reference := c.record.intents[k].reference;
    forall j: nat :: j < |c.record.intents| && c.record.intents[j].reference == reference ==> j == k
  }

  lemma AloneIsSilent(c: Cell, k: nat)
    requires k < |c.record.intents| && c.record.Unresolved(k) && OwnReference(c, k) && !c.resolver.Looked?
    requires k in c.workers && c.workers[k].Ready? && k !in c.memo
    ensures SilentOn(c, c.record.intents[k].reference)
  {
  }

  lemma ReferenceOfOne(s: State, id: Uuid, k: nat)
    requires CellsInv(s) && id in s.cells && k < |s.cells[id].record.intents|
    ensures OwnReference(s.cells[id], k)
  {
    hide CellInv;
    var intents := s.cells[id].record.intents;
    forall j: nat | j < |intents| && intents[j].reference == intents[k].reference
      ensures j == k
    {
      ReferencesDistinct(s, id, j, id, k);
    }
  }

  /** The subject of a first request holds no answer about it, before the request and after. */
  lemma SenderIsSilent(s: State, id: Uuid, k: nat)
    requires CellsInv(s) && id in s.cells && k in s.cells[id].workers && s.cells[id].workers[k].Ready?
    requires k !in s.cells[id].memo
    ensures SilentOn(s.cells[id], s.cells[id].workers[k].request.reference)
    ensures SilentOn(SendStep(s.cells[id], k), s.cells[id].workers[k].request.reference)
  {
    var c, reference := s.cells[id], s.cells[id].workers[k].request.reference;
    hide CellInv, SendStep, SilentOn, OwnReference;
    assert CellInv(id, c);
    AskerUnresolved(id, c, k);
    ReferenceOfOne(s, id, k);
    hide CellsInv;
    AloneIsSilent(c, k);
    StillSilent(c, k, reference);
  }

  lemma OthersAreSilent(s: State, id: Uuid, k: nat, other: Uuid)
    requires CellsInv(s) && id in s.cells && k < |s.cells[id].record.intents| && other in s.cells && other != id
    ensures SilentOn(s.cells[other], s.cells[id].record.intents[k].reference)
  {
    hide CellInv;
    forall j: nat | j < |s.cells[other].record.intents|
      ensures s.cells[other].record.intents[j].reference != s.cells[id].record.intents[k].reference
    {
      if s.cells[other].record.intents[j].reference == s.cells[id].record.intents[k].reference {
        ReferencesDistinct(s, other, j, id, k);
      }
    }
  }

  /** Nobody holds an answer about a reference that a step requests. */
  lemma NewlyRequestedSilent(s: State, step: Step, id: Uuid, reference: string)
    requires CellsInv(s) && id in s.cells && Subject(step).Some? && Subject(step).value in s.cells
    requires reference in NewRequest(s.cells[Subject(step).value], step)
    ensures SilentOn(s.cells[id], reference)
    ensures Subject(step) == Some(id) ==> SilentOn(NextCell(s, step, id), reference)
  {
    hide CellsInv, SilentOn, SendStep;
    var sender := Subject(step).value;
    NewRequestTraced(s, step, reference);
    SenderIsSilent(s, sender, step.k);
    if id != sender {
      OthersAreSilent(s, sender, step.k, id);
    }
  }

  lemma HonestStepKeeps(s: State, step: Step, base: set<string>)
    requires HonestInv(s, base) && Truthful(s, step) && FreshAwb(s, step)
    ensures HonestInv(Apply(s, step), base)
  {
    hide CellInv, CourierOk, Effect, NextCell, Truthful, FreshAwb, DistinctAwbs, AwbUnique, SingleCarrier;
    hide CourierExtends, ReadsOk, AllSettled, StateEvolves, WordOf;
    StepKeeps(s, step);
    SettledLasts(s, Apply(s, step), base);
    if ReadsOk(s, step) {
      var s' := Effect(s, step);
      EffectOnCourier(s, step);
      EffectOnCells(s, step);
      forall id | id in s'.cells
        ensures CourierOk(WordOf(s'), s'.cells[id])
      {
        CellStaysOk(s, step, id, base);
      }
    }
  }

  /** One shipment, the subject or another, after a step. */
  lemma CellStaysOk(s: State, step: Step, id: Uuid, base: set<string>)
    requires HonestInv(s, base) && Truthful(s, step) && ReadsOk(s, step) && id in Effect(s, step).cells
    ensures CourierOk(WordOf(Effect(s, step)), Effect(s, step).cells[id])
  {
    hide CellInv, CourierOk, Effect, NextCell, Truthful, DistinctAwbs, AwbUnique, SingleCarrier, WordExtends, ReadsOk,
         AllSettled, NewRequest, SilentOn;
    var s' := Effect(s, step);
    EffectOnCells(s, step);
    EffectOnWord(s, step);
    EffectOnRequests(s, step);
    if id !in s.cells {
      NewCellOk(WordOf(s'), step.shop, step.order, step.workingValues);
    } else {
      if Subject(step) == Some(id) {
        NextCellOk(s, step, id, base);
      }
      forall reference | reference in s'.requested && reference !in s.requested
        ensures SilentOn(s'.cells[id], reference)
      {
        NewlyRequestedSilent(s, step, id, reference);
      }
      OkExtends(WordOf(s), WordOf(s'), s'.cells[id]);
    }
  }

  lemma NewCellOk(w: Word, shop: Uuid, order: Uuid, workingValues: string)
    ensures CourierOk(w, NewCell(shop, order, workingValues))
  {
  }

  lemma {:induction false} HonestRunKeeps(s: State, steps: seq<Step>, base: set<string>)
    requires HonestInv(s, base) && HonestRun(s, steps)
    ensures HonestInv(Run(s, steps), base)
  {
    hide HonestInv, Apply, Truthful, FreshAwb;
    if steps != [] {
      HonestRunKeeps(s, steps[..|steps| - 1], base);
      HonestStepKeeps(Run(s, steps[..|steps| - 1]), steps[|steps| - 1], base);
    }
  }

  // ---- Every booking is some attempt's ------------------------------------------------------------------------

  /** The courier rules only on what a create was sent for, and creates carry references of attempts. */
  ghost predicate Traced(s: State) {
    && (forall reference :: reference in s.requested ==> exists id, k :: Attempt(s, id, k, reference))
    && s.courier.Keys <= s.requested
  }

  lemma NewRequestTraced(s: State, step: Step, reference: string)
    requires CellsInv(s) && Subject(step).Some? && Subject(step).value in s.cells
    requires reference in NewRequest(s.cells[Subject(step).value], step)
    ensures step.SendCreate? && Attempt(s, step.id, step.k, reference)
  {
    hide BuildSnapshot, IntentsInv, RowInv, SentInv, ResolverOk, CancelInv, LedgerInv, CountersInv;
    var c := s.cells[Subject(step).value];
    assert CellInv(Subject(step).value, c);
    assert WorkerOk(c.record, c.ledger, c.overageRecords, step.k, c.workers[step.k]);
  }

  lemma EffectOnRequests(s: State, step: Step)
    ensures var s' := Effect(s, step);
            && (forall reference :: reference in s'.requested ==>
                  reference in s.requested
                  || (Subject(step).Some? && Subject(step).value in s.cells
                      && reference in NewRequest(s.cells[Subject(step).value], step)))
            && s.requested <= s'.requested
            && s'.courier.Keys <= s.courier.Keys + s.requested
  {
    hide CellStep, NewRequest, NewlySealed, Seal;
  }

  lemma StepTraces(s: State, step: Step)
    requires Inv(s) && Traced(s)
    ensures Traced(Apply(s, step))
  {
    hide CellInv, Effect, NewRequest, IsBooked, CellEvolves, AwbUnique, SingleCarrier, ReadsOk;
    StepKeeps(s, step);
    EffectOnRequests(s, step);
    var s' := Apply(s, step);
    forall reference | reference in s'.requested
      ensures exists id, k :: Attempt(s', id, k, reference)
    {
      var id, k := AttemptBehind(s, step, reference);
      AttemptLasts(s, s', id, k, reference);
    }
  }

  lemma AttemptBehind(s: State, step: Step, reference: string) returns (id: Uuid, k: nat)
    requires Inv(s) && Traced(s) && reference in Apply(s, step).requested
    ensures Attempt(s, id, k, reference)
  {
    hide CellInv, Effect, NewRequest, Attempt, AwbUnique, SingleCarrier, ReadsOk;
    EffectOnRequests(s, step);
    if reference in s.requested {
      id, k :| Attempt(s, id, k, reference);
    } else {
      NewRequestTraced(s, step, reference);
      id, k := step.id, step.k;
    }
  }

  lemma AttemptLasts(s: State, s': State, id: Uuid, k: nat, reference: string)
    requires Attempt(s, id, k, reference) && StateEvolves(s, s')
    ensures Attempt(s', id, k, reference)
  {
    assert CellEvolves(s.cells[id], s'.cells[id]);
  }

  lemma {:induction false} RunTraces(s: State, steps: seq<Step>)
    requires Inv(s) && Traced(s)
    ensures Traced(Run(s, steps))
  {
    hide Inv, Traced, Apply;
    if steps != [] {
      var before := Run(s, steps[..|steps| - 1]);
      RunTraces(s, steps[..|steps| - 1]);
      RunKeeps(s, steps[..|steps| - 1]);
      StepTraces(before, steps[|steps| - 1]);
    }
  }

  // ---- Exactly once -------------------------------------------------------------------------------------------

  /** At most one attempt of a shipment is booked, and it is the latest. */
  ghost predicate BookedOnce(s: State) {
    forall id, k :: id in s.cells && 0 <= k < |s.cells[id].record.intents| ==>
      (IsBooked(s.courier, s.cells[id].record.intents[k].reference) ==> IsLatest(s.cells[id].record, k))
  }

  /** A shipment shown as booked is booked, under the AWB it shows; one shown as FAILED is not booked. */
  ghost predicate ShownTruly(s: State) {
    forall id :: id in s.cells ==>
      var row, intents := s.cells[id].record.row, s.cells[id].record.intents;
      && (row.awb.Some? ==>
            intents != [] && IsBooked(s.courier, intents[|intents| - 1].reference)
            && row.awb.value == NormalizeAwb(s.courier[intents[|intents| - 1].reference].awb))
      && (row.state == Failed ==> forall k :: 0 <= k < |intents| ==> !IsBooked(s.courier, intents[k].reference))
  }

  lemma SettledFailedBefore(id: Uuid, c: Cell, k: nat)
    requires CellInv(id, c) && k < |c.record.intents| && (!IsLatest(c.record, k) || c.record.row.state == Failed)
    ensures c.record.intents[k].outcome.SettledFailed()
  {
    hide IntentsInv, WorkersInv, ResolverOk, SentInv, CancelInv, LedgerInv, CountersInv;
  }

  lemma EarlierNotBooked(s: State, id: Uuid, k: nat, base: set<string>)
    requires HonestInv(s, base) && id in s.cells && k < |s.cells[id].record.intents|
    requires !IsLatest(s.cells[id].record, k) || s.cells[id].record.row.state == Failed
    ensures !IsBooked(s.courier, s.cells[id].record.intents[k].reference)
  {
    hide CellInv, NormalizeAwb, AwbUnique, SingleCarrier;
    SettledFailedBefore(id, s.cells[id], k);
    assert CourierOk(WordOf(s), s.cells[id]);
    assert Ruled(WordOf(s), s.cells[id].record.row.awb, s.cells[id].record.intents[k]);
  }

  /** A state at the end of a run with truthful, final answers and distinct AWBs. */
  ghost predicate HonestlyReachable(s: State) {
    exists outstanding, steps :: HonestRun(Initial(outstanding), steps) && s == Run(Initial(outstanding), steps)
  }

  lemma HonestlyReachableInv(s: State)
    requires HonestlyReachable(s)
    ensures HonestInv(s, {}) && Traced(s)
  {
    hide CellInv, CourierOk, Run, Traced, HonestRun;
    var outstanding, steps :| HonestRun(Initial(outstanding), steps) && s == Run(Initial(outstanding), steps);
    InitialTraced(outstanding);
    HonestRunKeeps(Initial(outstanding), steps, {});
    RunTraces(Initial(outstanding), steps);
  }

  /** Whatever crashes, redeliveries, back-pressure retries and interleavings occur, each local shipment gives
      rise to at most one courier shipment, and every courier shipment is some attempt's. */
  lemma ExactlyOnce(s: State)
    requires HonestlyReachable(s)
    ensures BookedOnce(s) && Traced(s)
  {
    hide HonestlyReachable, HonestInv, Traced;
    HonestlyReachableInv(s);
    forall id, k | id in s.cells && 0 <= k < |s.cells[id].record.intents| && !IsLatest(s.cells[id].record, k)
      ensures !IsBooked(s.courier, s.cells[id].record.intents[k].reference)
    {
      EarlierNotBooked(s, id, k, {});
    }
  }

  /** And the database tells the truth about it. */
  lemma DatabaseTellsTruth(s: State)
    requires HonestlyReachable(s)
    ensures ShownTruly(s)
  {
    hide HonestlyReachable, HonestInv, NormalizeAwb;
    HonestlyReachableInv(s);
    forall id, k | id in s.cells && 0 <= k < |s.cells[id].record.intents| && s.cells[id].record.row.state == Failed
      ensures !IsBooked(s.courier, s.cells[id].record.intents[k].reference)
    {
      EarlierNotBooked(s, id, k, {});
    }
    forall id | id in s.cells && s.cells[id].record.row.awb.Some?
      ensures var intents := s.cells[id].record.intents;
              && intents != [] && IsBooked(s.courier, intents[|intents| - 1].reference)
              && s.cells[id].record.row.awb.value == NormalizeAwb(s.courier[intents[|intents| - 1].reference].awb)
    {
      HolderIsBooked(s, id, {});
    }
  }

  lemma InitialTraced(outstanding: map<Uuid, nat>)
    ensures Traced(Initial(outstanding))
  {
  }
}
