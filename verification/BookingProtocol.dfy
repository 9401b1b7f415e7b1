/** The booking protocol as a transition system: workers, resolvers, cancellations, pickup events and a
    courier interleave over the shared rows. A transaction is one step; a courier call lies between two.
    `Apply` is total: a step that is not enabled changes nothing, so every sequence of steps is a run. */
module BookingProtocol {
  import opened Wrappers
  import opened BookingSnapshot
  import opened ShipmentRows
  import opened BookingTransactions

  // ---- Processes ----------------------------------------------------------------------------------------

  /** What createShipment or the transport policy gave the worker. */
  datatype AdapterReply =
    | ReplyCreated(awb: string)
    | ReplyCreatedWithoutAwb
    | ReplyDeclined            // the provider's body refuses the shipment
    | ReplyProviderError       // another status, or a DNS, TLS or connection failure
    | ReplyTimeout
    | ReplyAuthError           // 401 or 403 after the single resend
    | ReplyUnsupported
    | ReplyBackPressure        // open circuit, exhausted budget, 429
    | ReplyOther

  /** What the worker settles: confirm, fail or mark unknown. */
  datatype Answer = Created(awb: string) | Rejected | Ambiguous

  /** None: the error is rethrown and the queue redelivers the job. */
  function WorkerAnswer(reply: AdapterReply): Option<Answer> {
    match reply
    case ReplyCreated(awb) => Some(Created(awb))
    case ReplyCreatedWithoutAwb => Some(Ambiguous)
    case ReplyDeclined => Some(Rejected)
    case ReplyProviderError => Some(Rejected)
    case ReplyTimeout => Some(Ambiguous)
    case ReplyAuthError => Some(Rejected)
    case ReplyUnsupported => Some(Rejected)
    case ReplyBackPressure => None
    case ReplyOther => Some(Ambiguous)
  }

  /** The adapters remember the outcomes they return, not the errors they throw. */
  predicate Memoised(reply: AdapterReply) {
    reply.ReplyCreated? || reply.ReplyCreatedWithoutAwb? || reply.ReplyDeclined? || reply.ReplyProviderError?
        || reply.ReplyTimeout?
  }

  /** The call path refuses: the account is gone, disabled or without credentials, the circuit is open, the
      budget is spent. */
  predicate CallRefused(reply: AdapterReply) {
    reply.ReplyBackPressure? || reply.ReplyOther?
  }

  /** Replies that can come with no create having left the process: the call refused, or a token not had. */
  predicate BeforeSending(reply: AdapterReply) {
    CallRefused(reply) || reply.ReplyAuthError? || reply.ReplyProviderError? || reply.ReplyTimeout?
        || reply.ReplyUnsupported?
  }

  datatype WorkerPc =
    | Ready(request: CreateRequest)      // claimed, request built from the snapshot
    | Sent(request: CreateRequest)       // the create has left the process
    | Answered(answer: Answer)
    | AfterConfirm(test: bool)           // confirmed; the ledger debit is next
    | AfterDebit                         // debited; the overage call is next

  datatype ResolverPc =
    | Resting
    | SawUnknown
    | Loaded(k: nat)
    | Looked(k: nat, awb: Option<string>)
    | ResolverAfterConfirm(test: bool)
    | ResolverAfterDebit

  datatype CancelReply = CancelAccepted | CancelRefused | CancelAmbiguous

  datatype CancelPc =
    | Requested(previous: CustodyState, test: bool)
    | Replied(verdict: CancelReply, previous: CustodyState, test: bool)
    | AfterVoid(test: bool)              // VOID committed; the ledger reversal is next
    | AfterReversal                      // reversed; the overage reversal is next
    | Done(cancelled: bool)
  {
    predicate InFlight() {
      Requested? || Replied?
    }

    predicate Active() {
      InFlight() || AfterVoid? || AfterReversal?
    }
  }

  datatype Direction = Debit | Reversal

  /** awb_entitlement_ledger: append-only, one entry per shipment and direction. */
  function InsertOnce(ledger: seq<Direction>, d: Direction): seq<Direction> {
    if d in ledger then ledger else ledger + [d]
  }

  /** One shipment: its rows, the processes working on it, and what has happened to it so far. */
  datatype Cell = Cell(
    record: Record,
    workers: map<nat, WorkerPc>,         // by attempt; one worker per job
    memo: map<nat, Answer>,              // the adapter's createsByIntent
    resolver: ResolverPc,
    cancels: map<nat, CancelPc>,
    ledger: seq<Direction>,
    sent: seq<(nat, CreateRequest)>,     // every create that left the process
    confirms: nat,                       // commits of the CONFIRMED write
    reversals: nat,                      // calls of the ledger's reverse
    pickedUp: bool,
    overageRecords: nat,                 // calls of recordOverageForShipment
    overageReversals: nat)               // calls of reverseOverageForShipment

  // ---- State ----------------------------------------------------------------------------------------------

  /** The courier's word on a merchant reference it was asked about: an AWB, or a refusal that is final. */
  datatype Ruling = Booked(awb: string) | Barred

  datatype VersionKey = ServiceKey(id: string) | RateCardKey(id: string) | ZoneMapKey(id: string)

  datatype VersionRow = VersionRow(isSealed: bool, columns: VersionColumns)

  datatype State = State(
    cells: map<Uuid, Cell>,
    courier: map<string, Ruling>,
    requested: set<string>,              // references a create was sent for
    outstanding: map<Uuid, nat>,         // COD outstanding per order
    versions: map<VersionKey, VersionRow>)

  function NewCell(shop: Uuid, order: Uuid, workingValues: string): Cell {
    Cell(Record(Shipment(shop, order, None, Draft, NotApplicable, None, 0, false, workingValues, None), [], []),
         map[], map[], Resting, map[], [], [], 0, 0, false, 0, 0)
  }

  function Initial(outstanding: map<Uuid, nat>): State {
    State(map[], map[], {}, outstanding, map[])
  }

  predicate OtherCarrier(s: State, id: Uuid)
    requires id in s.cells
  {
    exists other :: other in s.cells && other != id
      && s.cells[other].record.row.order == s.cells[id].record.row.order && s.cells[other].record.row.Carrier()
  }

  predicate SameAwb(a: Shipment, b: Shipment, awb: string) {
    a.shop == b.shop && a.account.Some? && a.account == b.account && b.awb == Some(awb)
  }

  predicate Duplicate(s: State, id: Uuid, awb: string)
    requires id in s.cells
  {
    exists other :: other in s.cells && other != id
      && SameAwb(s.cells[id].record.row, s.cells[other].record.row, awb) && s.cells[other].record.row.state != Void
  }

  /** As Duplicate, but a holder that has become VOID still counts. */
  predicate DuplicateEver(s: State, id: Uuid, awb: string)
    requires id in s.cells
  {
    exists other :: other in s.cells && other != id && SameAwb(s.cells[id].record.row, s.cells[other].record.row, awb)
  }

  // ---- Steps ------------------------------------------------------------------------------------------------

  datatype Step =
    | InsertShipment(id: Uuid, shop: Uuid, order: Uuid, workingValues: string)
    | Route(id: Uuid, workingValues: string, manual: bool, seen: Reads)
    | QueueBooking(id: Uuid, input: BookingInput, seen: Reads)
    | ClaimJob(id: Uuid, k: nat, seen: Reads)
    | SendCreate(id: Uuid, k: nat)
    | CourierRules(reference: string, ruling: Ruling)
    | CreateAnswered(id: Uuid, k: nat, reply: AdapterReply)
    | SettleWorker(id: Uuid, k: nat, testMode: bool, seen: Reads)
    | DebitByWorker(id: Uuid, k: nat, subscribed: bool)
    | OverageByWorker(id: Uuid, k: nat)
    | CrashWorker(id: Uuid, k: nat)
    | ForgetMemo(id: Uuid, k: nat)
    | ResolverSees(id: Uuid)
    | ResolverLoads(id: Uuid, k: nat)
    | ResolverLooks(id: Uuid, awb: Option<string>)
    | SettleResolver(id: Uuid, testMode: bool, seen: Reads)
    | DebitByResolver(id: Uuid, subscribed: bool)
    | OverageByResolver(id: Uuid)
    | CrashResolver(id: Uuid)
    | RequestCancel(id: Uuid, call: nat)
    | CancelAnswered(id: Uuid, call: nat, verdict: CancelReply)
    | SettleCancel(id: Uuid, call: nat, seen: Reads)
    | ReverseLedger(id: Uuid, call: nat, subscribed: bool)
    | ReverseOverage(id: Uuid, call: nat)
    | CrashCancel(id: Uuid, call: nat)
    | SchedulePickup(id: Uuid)
    | ReversePickup(id: Uuid)
    | PickedUp(id: Uuid)
    | WriteVersion(key: VersionKey, columns: VersionColumns)
    | DeleteVersion(key: VersionKey)

  function References(input: BookingInput): set<VersionKey> {
    (if input.version.Some? then {ServiceKey(input.version.value.id)} else {})
    + (if input.rateCardVersionId.Some? then {RateCardKey(input.rateCardVersionId.value)} else {})
    + (if input.zoneMapId.Some? then {ZoneMapKey(input.zoneMapId.value)} else {})
  }

  function Seal(versions: map<VersionKey, VersionRow>, keys: set<VersionKey>): map<VersionKey, VersionRow> {
    map key | key in versions :: if key in keys then versions[key].(isSealed := true) else versions[key]
  }

  /** guard_sealed_version: a sealed row can neither be updated nor deleted. */
  predicate SealGuardRaises(versions: map<VersionKey, VersionRow>, key: VersionKey) {
    key in versions && versions[key].isSealed
  }

  function WithRecord(c: Cell, result: TxResult): Cell {
    if result.Committed? then c.(record := result.record) else c
  }

  function DropWorker(c: Cell, k: nat): Cell {
    c.(workers := c.workers - {k})
  }

  /** The worker's second transaction, and where it leaves the worker. */
  function SettleWorkerTx(c: Cell, k: nat, testMode: bool, seen: Reads): TxResult
    requires k in c.workers && c.workers[k].Answered? && k < |c.record.intents|
  {
    match c.workers[k].answer
    case Created(awb) => ConfirmTx(c.record, k, awb, IntentConfirmed, testMode, seen.duplicate, seen.write)
    case Rejected => SettleFailedTx(c.record, k, Submitted, IntentFailed, seen.write)
    case Ambiguous => MarkUnknownTx(c.record, k, seen.write)
  }

  function SettleResolverTx(c: Cell, testMode: bool, seen: Reads): TxResult
    requires c.resolver.Looked? && c.resolver.k < |c.record.intents|
  {
    match c.resolver.awb
    case Some(awb) => ConfirmTx(c.record, c.resolver.k, awb, ResolvedConfirmed, testMode, seen.duplicate, seen.write)
    case None => SettleFailedTx(c.record, c.resolver.k, OutcomeUnknown, ResolvedFailed, seen.write)
  }

  function WorkerSettled(c: Cell, k: nat, testMode: bool, seen: Reads): Cell
    requires k in c.workers && c.workers[k].Answered? && k < |c.record.intents|
  {
    var result := SettleWorkerTx(c, k, testMode, seen);
    var c' := WithRecord(c, result);
    if result.Committed? && result.record.row.state == Confirmed
    then c'.(workers := c'.workers[k := AfterConfirm(testMode)], confirms := c'.confirms + 1)
    else DropWorker(c', k)
  }

  function ResolverSettled(c: Cell, testMode: bool, seen: Reads): Cell
    requires c.resolver.Looked? && c.resolver.k < |c.record.intents|
  {
    var result := SettleResolverTx(c, testMode, seen);
    var c' := WithRecord(c, result);
    if result.Committed? && result.record.row.state == Confirmed
    then c'.(resolver := ResolverAfterConfirm(testMode), confirms := c'.confirms + 1)
    else c'.(resolver := Resting)
  }

  function CancelSettled(c: Cell, call: nat, seen: Reads): Cell
    requires call in c.cancels && c.cancels[call].Replied?
  {
    var pc := c.cancels[call];
    match pc.verdict
    case CancelAccepted =>
      var result := SettleCancelledTx(c.record, seen.write);
      if c.record.row.custody == InCustody then c.(cancels := c.cancels[call := Done(false)])
      else if result.Refused? then c.(cancels := c.cancels[call := Done(true)])
      else if result.Committed? then c.(record := result.record, cancels := c.cancels[call := AfterVoid(pc.test)])
      else c.(cancels := c.cancels - {call})
    case CancelRefused => WithRecord(c, SettleRejectedTx(c.record, pc.previous))
        .(cancels := c.cancels[call := Done(false)])
    case CancelAmbiguous => c.(cancels := c.cancels[call := Done(false)])
  }

  function ClaimStep(c: Cell, k: nat, seen: Reads): Cell {
    var result := ClaimTx(c.record, k, seen.write);
    if k in c.workers || !result.Committed? then c
    else if c.record.row.snapshot.None? then c.(record := result.record)   // the missing-snapshot throw
    else c.(record := result.record,
            workers := c.workers[k := Ready(BuildRequest(c.record.intents[k].reference, c.record.intents[k].digest,
                                                         c.record.row.snapshot.value))])
  }

  function SendStep(c: Cell, k: nat): Cell {
    if k !in c.workers || !c.workers[k].Ready? then c
    else if k in c.memo then c.(workers := c.workers[k := Answered(c.memo[k])])
    else c.(workers := c.workers[k := Sent(c.workers[k].request)], sent := c.sent + [(k, c.workers[k].request)])
  }

  /** Whether the worker of attempt k can be told this. Before its create has left, an adapter without a record
      of the intent can fail to get a token; with or without one, the call path can refuse the call. */
  predicate CanHear(c: Cell, k: nat, reply: AdapterReply) {
    && k in c.workers
    && match c.workers[k]
       case Sent(_) => true
       case Ready(_) => if k in c.memo then CallRefused(reply) else BeforeSending(reply)
       case _ => false
  }

  function AnswerStep(c: Cell, k: nat, reply: AdapterReply): Cell {
    if !CanHear(c, k, reply) then c
    else
      var answer := WorkerAnswer(reply);
      if answer.None? then DropWorker(c, k)
      else c.(workers := c.workers[k := Answered(answer.value)],
              memo := if Memoised(reply) then c.memo[k := answer.value] else c.memo)
  }

  function SettleWorkerStep(c: Cell, k: nat, testMode: bool, seen: Reads): Cell {
    if k !in c.workers || !c.workers[k].Answered? || k >= |c.record.intents| then c
       else WorkerSettled(c, k, testMode, seen)
  }

  function WorkerDebitStep(c: Cell, k: nat, subscribed: bool): Cell {
    if k !in c.workers || !c.workers[k].AfterConfirm? then c
    else if c.workers[k].test || !subscribed then DropWorker(c, k)
    else c.(ledger := InsertOnce(c.ledger, Debit), workers := c.workers[k := AfterDebit])
  }

  function WorkerOverageStep(c: Cell, k: nat): Cell {
    if k !in c.workers || !c.workers[k].AfterDebit? then c
    else DropWorker(c, k).(overageRecords := c.overageRecords + 1)
  }

  function ResolverLoadStep(c: Cell, k: nat): Cell {
    if c.resolver.SawUnknown? && k < |c.record.intents| && c.record.intents[k].outcome == Unknown
       && forall j :: k < j < |c.record.intents| ==> c.record.intents[j].outcome != Unknown
    then c.(resolver := Loaded(k)) else c
  }

  function SettleResolverStep(c: Cell, testMode: bool, seen: Reads): Cell {
    if !c.resolver.Looked? || c.resolver.k >= |c.record.intents| then c else ResolverSettled(c, testMode, seen)
  }

  function ResolverDebitStep(c: Cell, subscribed: bool): Cell {
    if !c.resolver.ResolverAfterConfirm? then c
    else if c.resolver.test || !subscribed then c.(resolver := Resting)
    else c.(ledger := InsertOnce(c.ledger, Debit), resolver := ResolverAfterDebit)
  }

  function ResolverOverageStep(c: Cell): Cell {
    if !c.resolver.ResolverAfterDebit? then c
    else c.(resolver := Resting, overageRecords := c.overageRecords + 1)
  }

  function RequestCancelStep(c: Cell, call: nat): Cell {
    var result := RequestCancelTx(c.record);
    if call in c.cancels || !result.Committed? then c
    else c.(record := result.record, cancels := c.cancels[call := Requested(c.record.row.custody, c.record.row.isTest)])
  }

  function CancelAnswerStep(c: Cell, call: nat, verdict: CancelReply): Cell {
    if call !in c.cancels || !c.cancels[call].Requested? then c
    else c.(cancels := c.cancels[call := Replied(verdict, c.cancels[call].previous, c.cancels[call].test)])
  }

  function SettleCancelStep(c: Cell, call: nat, seen: Reads): Cell {
    if call !in c.cancels || !c.cancels[call].Replied? then c else CancelSettled(c, call, seen)
  }

  function LedgerReversalStep(c: Cell, call: nat, subscribed: bool): Cell {
    if call !in c.cancels || !c.cancels[call].AfterVoid? then c
    else if c.cancels[call].test || !subscribed then c.(cancels := c.cancels[call := Done(true)])
    else c.(ledger := InsertOnce(c.ledger, Reversal), reversals := c.reversals + 1,
            cancels := c.cancels[call := if Reversal in c.ledger then Done(true) else AfterReversal])
  }

  function OverageReversalStep(c: Cell, call: nat): Cell {
    if call !in c.cancels || !c.cancels[call].AfterReversal? then c
    else c.(cancels := c.cancels[call := Done(true)], overageReversals := c.overageReversals + 1)
  }

  function CrashCancelStep(c: Cell, call: nat): Cell {
    if call in c.cancels && c.cancels[call].Active() then c.(cancels := c.cancels - {call}) else c
  }

  function PickedUpStep(c: Cell): Cell {
    var result := PickedUpTx(c.record);
    if result.Committed? then c.(record := result.record, pickedUp := true) else c
  }

  /** The step of one shipment's cell. */
  function CellStep(c: Cell, step: Step, outstanding: Option<nat>): Cell {
    match step
    case Route(id, workingValues, manual, seen) => WithRecord(c, RouteTx(c.record, workingValues, manual, seen.write))
    case QueueBooking(id, input, seen) => WithRecord(c, QueueTx(c.record, id, input, outstanding, seen))
    case ClaimJob(id, k, seen) => ClaimStep(c, k, seen)
    case SendCreate(id, k) => SendStep(c, k)
    case CreateAnswered(id, k, reply) => AnswerStep(c, k, reply)
    case SettleWorker(id, k, testMode, seen) => SettleWorkerStep(c, k, testMode, seen)
    case DebitByWorker(id, k, subscribed) => WorkerDebitStep(c, k, subscribed)
    case OverageByWorker(id, k) => WorkerOverageStep(c, k)
    case CrashWorker(id, k) => DropWorker(c, k)
    case ForgetMemo(id, k) => c.(memo := c.memo - {k})
    case ResolverSees(id) => if c.resolver.Resting? && c.record.row.state == OutcomeUnknown
        then c.(resolver := SawUnknown) else c
    case ResolverLoads(id, k) => ResolverLoadStep(c, k)
    case ResolverLooks(id, awb) => if c.resolver.Loaded? then c.(resolver := Looked(c.resolver.k, awb)) else c
    case SettleResolver(id, testMode, seen) => SettleResolverStep(c, testMode, seen)
    case DebitByResolver(id, subscribed) => ResolverDebitStep(c, subscribed)
    case OverageByResolver(id) => ResolverOverageStep(c)
    case CrashResolver(id) => c.(resolver := Resting)
    case RequestCancel(id, call) => RequestCancelStep(c, call)
    case CancelAnswered(id, call, verdict) => CancelAnswerStep(c, call, verdict)
    case SettleCancel(id, call, seen) => SettleCancelStep(c, call, seen)
    case ReverseLedger(id, call, subscribed) => LedgerReversalStep(c, call, subscribed)
    case ReverseOverage(id, call) => OverageReversalStep(c, call)
    case CrashCancel(id, call) => CrashCancelStep(c, call)
    case SchedulePickup(id) => WithRecord(c, SchedulePickupTx(c.record))
    case ReversePickup(id) => WithRecord(c, ReversePickupTx(c.record))
    case PickedUp(id) => PickedUpStep(c)
    case InsertShipment(_, _, _, _) => c
    case CourierRules(_, _) => c
    case WriteVersion(_, _) => c
    case DeleteVersion(_) => c
  }

  /** The shipment a step works on. */
  function Subject(step: Step): Option<Uuid> {
    if step.CourierRules? || step.WriteVersion? || step.DeleteVersion? then None else Some(step.id)
  }

  function Outstanding(s: State, order: Uuid): Option<nat> {
    if order in s.outstanding then Some(s.outstanding[order]) else None
  }

  /** The reference of the create a step sends to the courier. */
  function NewRequest(c: Cell, step: Step): set<string> {
    if step.SendCreate? && step.k in c.workers && c.workers[step.k].Ready? && step.k !in c.memo
    then {c.workers[step.k].request.reference} else {}
  }

  /** The versions a step seals: those the new booking attempt refers to. */
  function NewlySealed(c: Cell, step: Step, outstanding: Option<nat>): set<VersionKey> {
    if step.QueueBooking? && QueueTx(c.record, step.id, step.input, outstanding, step.seen).Committed?
    then References(step.input) else {}
  }

  function CellEffect(s: State, step: Step): State
    requires Subject(step).Some? && Subject(step).value in s.cells
  {
    var id := Subject(step).value;
    var c := s.cells[id];
    var outstanding := Outstanding(s, c.record.row.order);
    s.(cells := s.cells[id := CellStep(c, step, outstanding)],
       requested := s.requested + NewRequest(c, step),
       versions := Seal(s.versions, NewlySealed(c, step, outstanding)))
  }

  /** The new state, taking the step's recorded reads on trust. */
  function Effect(s: State, step: Step): State {
    if step.InsertShipment? then
      if step.id in s.cells then s
      else s.(cells := s.cells[step.id := NewCell(step.shop, step.order, step.workingValues)])
    else if step.CourierRules? then
      if step.reference in s.courier || step.reference !in s.requested then s
      else s.(courier := s.courier[step.reference := step.ruling])
    else if step.WriteVersion? then
      if SealGuardRaises(s.versions, step.key) then s
      else s.(versions := s.versions[step.key := VersionRow(false, step.columns)])
    else if step.DeleteVersion? then
      if SealGuardRaises(s.versions, step.key) then s else s.(versions := s.versions - {step.key})
    else if Subject(step).value in s.cells then CellEffect(s, step)
    else s
  }

  // ---- Reads --------------------------------------------------------------------------------------------------

  /** A negative answer about other shipments still holds when the transaction commits; a positive one
      held at some time, which for an AWB means that some shipment carries it, VOID or not. The locks
      make it so: see BookingLocking. */
  predicate ReadsHold(s: State, id: Uuid, awb: Option<string>, seen: Reads)
    requires id in s.cells
  {
    && (OtherCarrier(s, id) ==> seen.claim && seen.reentry && seen.write)
    && (awb.Some? && Duplicate(s, id, awb.value) ==> seen.duplicate)
    && (awb.Some? && seen.duplicate ==> DuplicateEver(s, id, awb.value))
  }

  /** The AWB a confirming step is about to store. */
  function ConfirmingAwb(c: Cell, step: Step): Option<string> {
    if step.SettleWorker? && step.k in c.workers && c.workers[step.k].Answered? && c.workers[step.k].answer.Created?
    then Some(NormalizeAwb(c.workers[step.k].answer.awb))
    else if step.SettleResolver? && c.resolver.Looked? && c.resolver.awb.Some?
    then Some(NormalizeAwb(c.resolver.awb.value))
    else None
  }

  predicate Transactional(step: Step) {
    step.Route? || step.QueueBooking? || step.ClaimJob? || step.SettleWorker? || step.SettleResolver?
        || step.SettleCancel?
  }

  predicate ReadsOk(s: State, step: Step) {
    Transactional(step) && step.id in s.cells ==>
          ReadsHold(s, step.id, ConfirmingAwb(s.cells[step.id], step), step.seen)
  }

  function Apply(s: State, step: Step): State {
    if ReadsOk(s, step) then Effect(s, step) else s
  }

  function Run(s: State, steps: seq<Step>): State {
    if steps == [] then s else Apply(Run(s, steps[..|steps| - 1]), steps[|steps| - 1])
  }

  ghost predicate Reachable(s: State) {
    exists outstanding, steps :: s == Run(Initial(outstanding), steps)
  }
}
