/** The booking services as they run: statements inside transactions over mutable tables, with triggers that
    raise and a rollback that restores. Each method is the atomic transaction of BookingTransactions. */
module BookingServices {
  import opened Wrappers
  import opened BookingSnapshot
  import opened ShipmentRows
  import opened BookingTransactions
  import opened BookingProtocol
  import CourierAdapter

  datatype QueueResult = QueuedAs(intent: nat) | QueueShipmentNotFound | QueueInvalidState(state: BookingState)
      | QueueRaised(guard: Guard)

  datatype ConfirmResult = ConfirmedAs(awb: string) | Quarantined | ConfirmInvalidState | ConfirmRaised(guard: Guard)

  datatype CancelResult =
    | CancelledResult
    | CancelNotFound
    | InvalidBookingState(state: BookingState)
    | InvalidCustodyState(custody: CustodyState)
    | PickupRace
    | CancelRejectedResult
    | CancelOutcomeUnknown
    | CancelRaised(guard: Guard)

  type Tables = map<Uuid, Record>

  predicate CarrierAmong(tables: Tables, id: Uuid, order: Uuid) {
    exists other :: other in tables && other != id && tables[other].row.order == order && tables[other].row.Carrier()
  }

  predicate AwbTaken(tables: Tables, id: Uuid, awb: string)
    requires id in tables
  {
    exists other :: other in tables && other != id && SameAwb(tables[id].row, tables[other].row, awb)
        && tables[other].row.state != Void
  }

  /** What serial transactions read. */
  function SerialReads(tables: Tables, id: Uuid, awb: Option<string>): Reads
    requires id in tables
  {
    var carrier := CarrierAmong(tables, id, tables[id].row.order);
    Reads(carrier, carrier, carrier, awb.Some? && AwbTaken(tables, id, awb.value))
  }

  /** The tables after a transaction: its rows if it committed, the old ones otherwise. */
  function After(tables: Tables, id: Uuid, tx: TxResult): Tables {
    if tx.Committed? then tables[id := tx.record] else tables
  }

  /** The tables after the worker's second transaction. */
  function Settled(tables: Tables, id: Uuid, k: nat, answer: Answer, testMode: bool): Tables
    requires id in tables && k < |tables[id].intents|
  {
    match answer
    case Created(awb) =>
      var seen := SerialReads(tables, id, Some(NormalizeAwb(awb)));
      After(tables, id, ConfirmTx(tables[id], k, awb, IntentConfirmed, testMode, seen.duplicate, seen.write))
    case Rejected => After(tables, id,
                           SettleFailedTx(tables[id], k, Submitted, IntentFailed, SerialReads(tables, id, None).write))
    case Ambiguous => After(tables, id, MarkUnknownTx(tables[id], k, SerialReads(tables, id, None).write))
  }

  /** What processBooking leaves of the tables when the courier's reply is `reply`: the claim, and the settlement
      the reply calls for. Back-pressure leaves the claimed row for the redelivered job. */
  function Processed(tables: Tables, id: Uuid, k: nat, reply: AdapterReply, testMode: bool): Tables
    requires id in tables && k < |tables[id].intents|
  {
    var claim := ClaimTx(tables[id], k, SerialReads(tables, id, None).write);
    var claimed := After(tables, id, claim);
    if !claim.Committed? || WorkerAnswer(reply).None? then claimed
       else Settled(claimed, id, k, WorkerAnswer(reply).value, testMode)
  }

  /** The tables after a claimed job: what the call path or the adapter answers, settled. */
  function JobEnd(tables: Tables, id: Uuid, k: nat, intentId: string, passage: CourierAdapter.Passage,
                  made: CourierAdapter.Made, env: CourierAdapter.Env, hasToken: bool, declined: bool,
                  testMode: bool): Tables
    requires id in tables && k < |tables[id].intents|
  {
    var refusal := CourierAdapter.RefusedBy(passage);
    var reply := if refusal.Some? then CourierAdapter.RefusalReply(refusal.value)
                 else CourierAdapter.PassedOn(passage, CourierAdapter.Create(made, intentId, env, hasToken).1,
                                              declined);
    Processed(tables, id, k, reply, testMode)
  }

  /** The shipment and booking_intent tables, grouped by shipment, and the version tables. */
  class Database {
    var tables: Tables
    var versions: map<VersionKey, VersionRow>

    constructor ()
      ensures tables == map[] && versions == map[]
    {
      tables, versions := map[], map[];
    }

    /** UPDATE of a shipment row, naming a column the collectible trigger watches or not. */
    method Update(id: Uuid, row: Shipment, watched: bool) returns (raised: Option<Guard>)
      requires id in tables && row.order == tables[id].row.order
      modifies this`tables
      ensures tables == if raised.None? then old(tables)[id := old(tables)[id].(row := row)] else old(tables)
      ensures (if raised.None? then Row(row) else Raised(raised.value))
              == if watched then UpdateGuarded(old(tables)[id].row, row, CarrierAmong(old(tables), id, row.order))
                 else UpdatePlain(old(tables)[id].row, row)
    {
      if watched && row.collectible > 0 && CarrierAmong(tables, id, row.order) {
        return Some(CollectibleGuard);
      }
      if RowGuardRaises(tables[id].row, row) {
        return Some(RowGuard);
      }
      tables := tables[id := tables[id].(row := row)];
      raised := None;
    }

    /** UPDATE booking_intent SET outcome. */
    method SetIntentOutcome(id: Uuid, k: nat, outcome: IntentOutcome)
      requires id in tables && k < |tables[id].intents|
      modifies this`tables
      ensures tables == old(tables)[id := SetOutcome(old(tables)[id], k, outcome)]
    {
      var intents := tables[id].intents;
      tables := tables[id := tables[id].(intents := intents[k := intents[k].(outcome := outcome)])];
    }

    /** INSERT INTO booking_intent. */
    method InsertIntent(id: Uuid, intent: Intent, attempt: Frozen)
      requires id in tables
      modifies this`tables
      ensures tables == old(tables)[id := old(tables)[id].(intents := old(tables)[id].intents + [intent],
                                                           frozen := old(tables)[id].frozen + [attempt])]
    {
      tables := tables[id := tables[id].(intents := tables[id].intents + [intent],
                                         frozen := tables[id].frozen + [attempt])];
    }

    /** UPDATE … SET is_sealed = true WHERE … AND is_sealed = false. */
    method SealVersion(key: VersionKey)
      modifies this`versions
      ensures versions == Seal(old(versions), {key})
    {
      if key in versions && !versions[key].isSealed {
        versions := versions[key := versions[key].(isSealed := true)];
      }
    }

    method SealReferences(input: BookingInput)
      modifies this`versions
      ensures versions == Seal(old(versions), References(input))
    {
      if input.version.Some? {
        SealVersion(ServiceKey(input.version.value.id));
      }
      if input.rateCardVersionId.Some? {
        SealVersion(RateCardKey(input.rateCardVersionId.value));
      }
      if input.zoneMapId.Some? {
        SealVersion(ZoneMapKey(input.zoneMapId.value));
      }
    }

    /** The last statements of queueBooking: back to DRAFT where needed, then DRAFT to QUEUED. */
    method EnterQueue(id: Uuid, queued: Shipment) returns (raised: Option<Guard>)
      requires id in tables && queued.order == tables[id].row.order
      modifies this`tables
      ensures raised.None? ==> tables == old(tables)[id := old(tables)[id].(row := queued)]
      ensures (if raised.None? then Row(queued) else Raised(raised.value))
              == Requeue(old(tables)[id].row, queued, CarrierAmong(old(tables), id, queued.order))
    {
      hide CarrierAmong, UpdateGuarded, UpdatePlain;
      ghost var before := tables;
      if tables[id].row.state != Draft {
        raised := Update(id, tables[id].row.(state := Draft), true);
        if raised.Some? {
          return;
        }
        SameCarriers(before, tables, id, queued.order);
      }
      raised := Update(id, queued, true);
    }

    /** queueBooking: INSERT of the intent, seals, the shipment's row; a raise undoes it all. */
    method QueueBooking(id: Uuid, input: BookingInput, outstanding: Option<nat>) returns (result: QueueResult)
      modifies this
      ensures id !in old(tables) ==> result == QueueShipmentNotFound && unchanged(this)
      ensures id in old(tables) ==>
                var tx := QueueTx(old(tables)[id], id, input, outstanding, SerialReads(old(tables), id, None));
                && tables == After(old(tables), id, tx)
                && versions == (if tx.Committed? then Seal(old(versions), References(input)) else old(versions))
                && result == match tx
                             case Committed(_) => QueuedAs(|old(tables)[id].intents|)
                             case Refused => QueueInvalidState(old(tables)[id].row.state)
                             case Aborted(guard) => QueueRaised(guard)
    {
      hide Seal, References, ClaimedCollectible, CarrierAmong, AwbTaken, BuildSnapshot, MerchantReference, Canonical;
      hide QueuedEntries, Requeue;
      if id !in tables {
        return QueueShipmentNotFound;
      }
      var row := tables[id].row;
      if !(row.state in {Draft, NeedsManualAssignment, Failed}) {
        return QueueInvalidState(row.state);
      }
      var savedTables, savedVersions := tables, versions;
      var collectible := ClaimedCollectible(input, outstanding, CarrierAmong(tables, id, row.order));
      QueueTxByStatements(tables[id], id, input, outstanding, SerialReads(tables, id, None));
      hide QueueTx;
      var attempt := |tables[id].intents| + 1;
      var reference := MerchantReference(row.shop, id, attempt);
      InsertIntent(id, Intent(reference, Canonical(QueuedEntries(reference, id, input, collectible)), InFlight),
                   Frozen(input, collectible));
      SealReferences(input);
      SameCarriers(savedTables, tables, id, row.order);
      var raised := EnterQueue(id, row.(state := Queued, account := Some(input.accountId), collectible := collectible,
                                        snapshot := Some(Frozen(input, collectible).Snapshot())));
      if raised.Some? {
        tables, versions := savedTables, savedVersions;
        return QueueRaised(raised.value);
      }
      result := QueuedAs(attempt - 1);
    }

    /** The worker's first transaction; true when the job may call the courier. */
    method ClaimJob(id: Uuid, k: nat) returns (claimed: bool, raised: Option<Guard>)
      modifies this
      ensures versions == old(versions)
      ensures id !in old(tables) ==> !claimed && raised == None && unchanged(this)
      ensures id in old(tables) ==>
                var tx := ClaimTx(old(tables)[id], k, SerialReads(old(tables), id, None).write);
                tables == After(old(tables), id, tx) && claimed == tx.Committed?
                    && raised == (if tx.Aborted? then Some(tx.guard) else None)
    {
      hide CarrierAmong, AwbTaken, BuildSnapshot, MerchantReference, Canonical, QueuedEntries, NormalizeAwb;
      hide UpdateGuarded, UpdatePlain;
      claimed, raised := false, None;
      if id !in tables || k >= |tables[id].intents| {
        return;
      }
      var row := tables[id].row;
      if !tables[id].intents[k].outcome.InFlight? || !(row.state in {Queued, Submitted}) {
        return;
      }
      if row.state == Queued {
        raised := Update(id, row.(state := Submitted), true);
      }
      claimed := raised.None?;
    }

    /** confirmBooking: state guard, duplicate check, then either the quarantine or the confirmation. */
    method ConfirmBooking(id: Uuid, k: nat, awbRaw: string, outcome: IntentOutcome,
                          testMode: bool) returns (result: ConfirmResult)
      requires (id in tables ==> k < |tables[id].intents|)
      modifies this
      ensures versions == old(versions)
      ensures id !in old(tables) ==> result == ConfirmInvalidState && unchanged(this)
      ensures id in old(tables) ==>
                var seen := SerialReads(old(tables), id, Some(NormalizeAwb(awbRaw)));
                var tx := ConfirmTx(old(tables)[id], k, awbRaw, outcome, testMode, seen.duplicate, seen.write);
                && tables == After(old(tables), id, tx)
                && result == match tx
                             case Committed(_) => if seen.duplicate then Quarantined
                                 else ConfirmedAs(NormalizeAwb(awbRaw))
                             case Refused => ConfirmInvalidState
                             case Aborted(guard) => ConfirmRaised(guard)
    {
      hide CarrierAmong, AwbTaken, NormalizeAwb, UpdateGuarded, UpdatePlain;
      if id !in tables || !(tables[id].row.state in {Submitted, OutcomeUnknown}) {
        return ConfirmInvalidState;
      }
      var row, awb := tables[id].row, NormalizeAwb(awbRaw);
      if AwbTaken(tables, id, awb) {
        var raised := Update(id, row.(state := Failed), true);
        if raised.Some? {
          return ConfirmRaised(raised.value);
        }
        SetIntentOutcome(id, k, IntentFailed);
        return Quarantined;
      }
      var raised := Update(id, row.(state := Confirmed, awb := Some(awb), custody := PickupPending,
                                    isTest := testMode), true);
      if raised.Some? {
        return ConfirmRaised(raised.value);
      }
      SetIntentOutcome(id, k, outcome);
      result := ConfirmedAs(awb);
    }

    /** settleFailed: the intent is settled only if the guarded UPDATE hit its row. */
    method SettleFailed(id: Uuid, k: nat, from: BookingState, outcome: IntentOutcome) returns (raised: Option<Guard>)
      requires (id in tables ==> k < |tables[id].intents|)
      modifies this
      ensures versions == old(versions)
      ensures id !in old(tables) ==> raised == None && unchanged(this)
      ensures id in old(tables) ==>
                var tx := SettleFailedTx(old(tables)[id], k, from, outcome, SerialReads(old(tables), id, None).write);
                tables == After(old(tables), id, tx) && raised == (if tx.Aborted? then Some(tx.guard) else None)
    {
      hide CarrierAmong, AwbTaken, BuildSnapshot, MerchantReference, Canonical, QueuedEntries, NormalizeAwb;
      hide UpdateGuarded, UpdatePlain;
      raised := None;
      if id in tables && tables[id].row.state == from {
        raised := Update(id, tables[id].row.(state := Failed), true);
        if raised.None? {
          SetIntentOutcome(id, k, outcome);
        }
      }
    }

    method MarkOutcomeUnknown(id: Uuid, k: nat) returns (raised: Option<Guard>)
      requires (id in tables ==> k < |tables[id].intents|)
      modifies this
      ensures versions == old(versions)
      ensures id !in old(tables) ==> raised == None && unchanged(this)
      ensures id in old(tables) ==>
                var tx := MarkUnknownTx(old(tables)[id], k, SerialReads(old(tables), id, None).write);
                tables == After(old(tables), id, tx) && raised == (if tx.Aborted? then Some(tx.guard) else None)
    {
      hide CarrierAmong, AwbTaken, BuildSnapshot, MerchantReference, Canonical, QueuedEntries, NormalizeAwb;
      hide UpdateGuarded, UpdatePlain;
      raised := None;
      if id in tables && tables[id].row.state == Submitted {
        raised := Update(id, tables[id].row.(state := OutcomeUnknown), true);
        if raised.None? {
          SetIntentOutcome(id, k, Unknown);
        }
      }
    }

    /** The worker's second transaction. */
    method SettleAnswer(id: Uuid, k: nat, answer: Answer, testMode: bool)
      requires id in tables && k < |tables[id].intents|
      modifies this
      ensures versions == old(versions) && tables == Settled(old(tables), id, k, answer, testMode)
    {
      hide CarrierAmong, AwbTaken, ConfirmTx, SettleFailedTx, MarkUnknownTx, NormalizeAwb;
      match answer {
        case Created(awb) => var _ := ConfirmBooking(id, k, awb, IntentConfirmed, testMode);
        case Rejected => var _ := SettleFailed(id, k, Submitted, IntentFailed);
        case Ambiguous => var _ := MarkOutcomeUnknown(id, k);
      }
    }

    /** processBooking from claim to settlement with nobody interleaving. Only a committed claim goes on; the call
        path may refuse it before the adapter is asked. The adapter is asked under the intent's id; an outcome it
        has recorded for that id is settled without a second create. */
    method ProcessBooking(id: Uuid, k: nat, intentId: string, passage: CourierAdapter.Passage,
                          adapter: CourierAdapter.Adapter, env: CourierAdapter.Env, declined: bool, testMode: bool)
      returns (claimed: bool)
      requires CourierAdapter.OneCreate(adapter.wire, adapter.createsByIntent)
      modifies this, adapter
      ensures versions == old(versions) && CourierAdapter.OneCreate(adapter.wire, adapter.createsByIntent)
      ensures claimed == (id in old(tables)
                          && ClaimTx(old(tables)[id], k, SerialReads(old(tables), id, None).write).Committed?)
      ensures !claimed ==> tables == old(tables)
      ensures claimed ==> k < |old(tables)[id].intents|
      ensures !claimed || CourierAdapter.RefusedBy(passage).Some? ==> unchanged(adapter)
      ensures claimed ==>
                var made := CourierAdapter.Made(old(adapter.wire), old(adapter.createsByIntent));
                tables == JobEnd(old(tables), id, k, intentId, passage, made, env, old(adapter.memoryToken), declined,
                                 testMode)
      ensures claimed && CourierAdapter.RefusedBy(passage).None? ==>
                var (made, outcome) :=
                  CourierAdapter.Create(CourierAdapter.Made(old(adapter.wire), old(adapter.createsByIntent)),
                                        intentId, env, old(adapter.memoryToken));
                adapter.wire == made.wire && adapter.createsByIntent == made.memo
    {
      hide CarrierAmong, AwbTaken, ConfirmTx, SettleFailedTx, MarkUnknownTx, NormalizeAwb, WorkerAnswer, Settled;
      hide CourierAdapter.OneCreate, CourierAdapter.Create, CourierAdapter.PassedOn, CourierAdapter.RefusedBy;
      var raised;
      claimed, raised := ClaimJob(id, k);
      if !claimed {
        return;
      }
      ClaimKeepsIntents(old(tables)[id], k, SerialReads(old(tables), id, None).write);
      hide ClaimTx;
      var refusal, reply := CourierAdapter.RefusedBy(passage), ReplyOther;
      if refusal.Some? {
        reply := CourierAdapter.RefusalReply(refusal.value);
      } else {
        var outcome := adapter.CreateShipment(intentId, env);
        reply := CourierAdapter.PassedOn(passage, outcome, declined);
      }
      var answer := WorkerAnswer(reply);
      if answer.Some? {
        SettleAnswer(id, k, answer.value, testMode);
      }
    }

    /** requestCancellation, first transaction: remembers the custody state it left. */
    method RequestCancellation(id: Uuid) returns (accepted: bool, previous: CustodyState, refusal: CancelResult)
      modifies this
      ensures versions == old(versions)
      ensures id !in old(tables) ==> !accepted && refusal == CancelNotFound && unchanged(this)
      ensures id in old(tables) ==>
                var tx := RequestCancelTx(old(tables)[id]);
                && tables == After(old(tables), id, tx) && accepted == tx.Committed?
                   && previous == old(tables)[id].row.custody
                && (old(tables)[id].row.state != Confirmed ==>
                    refusal == InvalidBookingState(old(tables)[id].row.state))
                && (old(tables)[id].row.state == Confirmed && tx.Refused? ==> refusal == InvalidCustodyState(previous))
    {
      accepted, previous, refusal := false, NotApplicable, CancelNotFound;
      if id in tables {
        var row := tables[id].row;
        previous := row.custody;
        if row.state != Confirmed {
          refusal := InvalidBookingState(row.state);
        } else if !(row.custody in {PickupPending, PickupScheduled}) {
          refusal := InvalidCustodyState(row.custody);
        } else {
          var raised := Update(id, row.(custody := CancelRequested), false);
          accepted := raised.None?;
        }
      }
    }

    /** The courier's verdict on the cancellation. `cancelled: true` is answered exactly when the shipment was
        voided here, or its custody had already left CANCEL_REQUESTED without a pickup. */
    method SettleCancellation(id: Uuid, verdict: CancelReply, previous: CustodyState) returns (result: CancelResult)
      requires id in tables
      modifies this
      ensures versions == old(versions)
      ensures verdict == CancelAmbiguous ==> result == CancelOutcomeUnknown && unchanged(this)
      ensures verdict == CancelAccepted ==>
                var tx := SettleCancelledTx(old(tables)[id], SerialReads(old(tables), id, None).write);
                && tables == After(old(tables), id, tx)
                && result == if old(tables)[id].row.custody == InCustody then PickupRace
                             else if tx.Aborted? then CancelRaised(tx.guard) else CancelledResult
      ensures verdict == CancelRefused ==>
                var tx := SettleRejectedTx(old(tables)[id], previous);
                tables == After(old(tables), id, tx) && result == if tx.Aborted? then CancelRaised(tx.guard)
                    else CancelRejectedResult
    {
      hide CarrierAmong, AwbTaken, BuildSnapshot, MerchantReference, Canonical, QueuedEntries, NormalizeAwb;
      hide UpdateGuarded, UpdatePlain;
      match verdict
      case CancelAmbiguous => result := CancelOutcomeUnknown;
      case CancelAccepted =>
        var row := tables[id].row;
        if row.custody == InCustody {
          result := PickupRace;
        } else if row.custody != CancelRequested {
          result := CancelledResult;
        } else {
          var raised := Update(id, row.(custody := Cancelled, state := Void, collectible := 0), true);
          result := if raised.Some? then CancelRaised(raised.value) else CancelledResult;
        }
      case CancelRefused =>
        var saved := tables;
        var raised: Option<Guard> := None;
        if tables[id].row.custody == CancelRequested {
          raised := Update(id, tables[id].row.(custody := CancelRejected), false);
        }
        if raised.None? && tables[id].row.custody == CancelRejected {
          raised := Update(id, tables[id].row.(custody := previous), false);
        }
        if raised.Some? {
          tables := saved;
          return CancelRaised(raised.value);
        }
        result := CancelRejectedResult;
    }
  }

  /** The read that quarantines a confirmation: another shipment of the same shop and courier account, not VOID,
      stores the AWB. The read that the collectible trigger makes: another shipment of the order is not VOID, has
      an AWB and collects. */
  lemma ReadsMean(tables: Tables, id: Uuid, awb: string)
    requires id in tables
    ensures var row := tables[id].row;
            && (SerialReads(tables, id, Some(awb)).duplicate <==>
                row.account.Some?
                && exists other ::
                     && other in tables && other != id && tables[other].row.state != Void
                     && tables[other].row.shop == row.shop && tables[other].row.account == row.account
                     && tables[other].row.awb == Some(awb))
            && (SerialReads(tables, id, Some(awb)).write <==>
                exists other ::
                  && other in tables && other != id && tables[other].row.state != Void
                  && tables[other].row.order == row.order && tables[other].row.awb.Some?
                  && tables[other].row.collectible > 0)
  {
  }

  function Requeue(row: Shipment, queued: Shipment, otherCarrier: bool): Written {
    var reentered := if row.state == Draft then Row(row) else UpdateGuarded(row, row.(state := Draft), otherCarrier);
    if reentered.Raised? then reentered else UpdateGuarded(reentered.row, queued, otherCarrier)
  }

  lemma ClaimKeepsIntents(r: Record, k: nat, otherCarrier: bool)
    ensures var result := ClaimTx(r, k, otherCarrier);
            result.Committed? ==> k < |r.intents| && result.record.intents == r.intents
  {
  }

  /** The statements in the order of the code. */
  lemma QueueTxByStatements(r: Record, id: Uuid, input: BookingInput, outstanding: Option<nat>, seen: Reads)
    requires r.row.state in {Draft, NeedsManualAssignment, Failed} && seen.claim == seen.reentry == seen.write
    ensures var attempt := Frozen(input, ClaimedCollectible(input, outstanding, seen.claim));
            var reference := MerchantReference(r.row.shop, id, |r.intents| + 1);
            var intent := Intent(reference, Canonical(QueuedEntries(reference, id, input, attempt.collectible)),
                                 InFlight);
            var queued := r.row.(state := Queued, account := Some(input.accountId), collectible := attempt.collectible,
                                 snapshot := Some(attempt.Snapshot()));
            QueueTx(r, id, input, outstanding, seen)
            == match Requeue(r.row, queued, seen.write)
               case Row(_) => Committed(Record(queued, r.intents + [intent], r.frozen + [attempt]))
               case Raised(guard) => Aborted(guard)
  {
    hide MerchantReference, Canonical, QueuedEntries, BuildSnapshot, ClaimedCollectible;
  }

  lemma SameCarriers(a: Tables, b: Tables, id: Uuid, order: Uuid)
    requires a.Keys == b.Keys && forall other :: other in a && other != id ==> a[other] == b[other]
    ensures CarrierAmong(a, id, order) == CarrierAmong(b, id, order)
  {
  }

  /** What a serial transaction reads from the tables is what the protocol's atomic step asks for, so each
      method is a step of the protocol. */
  lemma SerialReadsHold(s: State, tables: Tables, id: Uuid, awb: Option<string>)
    requires s.cells.Keys == tables.Keys && forall x :: x in tables ==> s.cells[x].record == tables[x]
    requires id in tables
    ensures ReadsHold(s, id, awb, SerialReads(tables, id, awb))
  {
    assert OtherCarrier(s, id) == CarrierAmong(tables, id, tables[id].row.order);
    if awb.Some? {
      assert Duplicate(s, id, awb.value) == AwbTaken(tables, id, awb.value);
    }
  }
}
