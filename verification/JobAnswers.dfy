/** What one delivery of a booking job comes to, from what the account, the transport policy, the token endpoint
    and the courier did to the rows that are left (BookingServices.Database.ProcessBooking). */
module JobAnswers {
  import opened Wrappers
  import opened BookingSnapshot
  import opened ShipmentRows
  import opened BookingTransactions
  import opened BookingProtocol
  import opened BookingServices
  import opened CourierAdapter
  import opened JobOutcomes

  /** The job is claimed, and the trigger lets the shipment's booking state be written. */
  predicate Claimable(tables: Tables, id: Uuid, k: nat) {
    && id in tables && k < |tables[id].intents| && tables[id].intents[k].outcome == InFlight
    && tables[id].row.state in {Queued, Submitted} && !tables[id].row.isTest
    && !(tables[id].row.collectible > 0 && CarrierAmong(tables, id, tables[id].row.order))
  }

  /** The attempt failed, its outcome is unknown, it waits claimed, or it is confirmed. */
  ghost predicate Fails(tables: Tables, after: Tables, id: Uuid, k: nat)
    requires id in tables && k < |tables[id].intents|
  {
    var r := tables[id];
    after == tables[id := Record(r.row.(state := BookingState.Failed),
                                 r.intents[k := r.intents[k].(outcome := IntentFailed)], r.frozen)]
  }

  ghost predicate LeftUnknown(tables: Tables, after: Tables, id: Uuid, k: nat)
    requires id in tables && k < |tables[id].intents|
  {
    var r := tables[id];
    after == tables[id := Record(r.row.(state := BookingState.OutcomeUnknown),
                                 r.intents[k := r.intents[k].(outcome := Unknown)], r.frozen)]
  }

  ghost predicate Waits(tables: Tables, after: Tables, id: Uuid, k: nat)
    requires id in tables && k < |tables[id].intents|
  {
    after == tables[id := tables[id].(row := tables[id].row.(state := Submitted))]
    && tables[id].intents[k].outcome == InFlight
  }

  /** Under an AWB that another shipment of the account holds, the attempt is quarantined as failed. */
  ghost predicate Confirms(tables: Tables, after: Tables, id: Uuid, k: nat, awb: string, testMode: bool)
    requires id in tables && k < |tables[id].intents|
  {
    var r := tables[id];
    if AwbTaken(tables, id, NormalizeAwb(awb)) then Fails(tables, after, id, k)
    else after == tables[id := Record(r.row.(state := BookingState.Confirmed, awb := Some(NormalizeAwb(awb)),
                                             custody := PickupPending, isTest := testMode),
                                      r.intents[k := r.intents[k].(outcome := IntentConfirmed)], r.frozen)]
  }

  // ---- From the reply to the rows ---------------------------------------------------------------------------------

  lemma SubmittedTables(tables: Tables, id: Uuid, k: nat)
    requires Claimable(tables, id, k)
    ensures var r := tables[id];
            var claimed := r.(row := r.row.(state := Submitted));
            && ClaimTx(r, k, SerialReads(tables, id, None).write) == Committed(claimed)
            && forall awb: Option<string> ::
                 SerialReads(tables[id := claimed], id, awb).duplicate
                 == (awb.Some? && AwbTaken(tables, id, awb.value))
    ensures var r := tables[id];
            CarrierAmong(tables[id := r.(row := r.row.(state := Submitted))], id, r.row.order)
            == CarrierAmong(tables, id, r.row.order)
  {
    hide SameAwb;
    var r := tables[id];
    var claimed := tables[id := r.(row := r.row.(state := Submitted))];
    SameCarriers(tables, claimed, id, r.row.order);
    forall awb
      ensures AwbTaken(claimed, id, awb) == AwbTaken(tables, id, awb)
    {
      SameTaken(tables, id, awb);
    }
  }

  lemma SameTaken(tables: Tables, id: Uuid, awb: string)
    requires id in tables
    ensures var r := tables[id];
            AwbTaken(tables[id := r.(row := r.row.(state := Submitted))], id, awb) == AwbTaken(tables, id, awb)
  {
    var claimed := tables[id := tables[id].(row := tables[id].row.(state := Submitted))];
    assert forall other :: other in tables && other != id ==>
             other in claimed && claimed[other] == tables[other]
             && SameAwb(claimed[id].row, claimed[other].row, awb) == SameAwb(tables[id].row, tables[other].row, awb);
  }

  lemma ReplyLeaves(tables: Tables, id: Uuid, k: nat, reply: AdapterReply, testMode: bool)
    requires Claimable(tables, id, k)
    ensures var after := Processed(tables, id, k, reply, testMode);
            && (reply.ReplyDeclined? || reply.ReplyProviderError? || reply.ReplyAuthError? || reply.ReplyUnsupported?
                ==> Fails(tables, after, id, k))
            && (reply.ReplyTimeout? || reply.ReplyCreatedWithoutAwb? || reply.ReplyOther? ==>
                  LeftUnknown(tables, after, id, k))
            && (reply.ReplyBackPressure? ==> Waits(tables, after, id, k))
            && (reply.ReplyCreated? ==> Confirms(tables, after, id, k, reply.awb, testMode))
  {
    hide ClaimTx, ConfirmTx, SettleFailedTx, MarkUnknownTx, CarrierAmong, AwbTaken, NormalizeAwb;
    SubmittedTables(tables, id, k);
    var r := tables[id].(row := tables[id].row.(state := Submitted));
    var claimed := tables[id := r];
    var carrier := CarrierAmong(claimed, id, r.row.order);
    FailsRow(r, k, Submitted, IntentFailed, carrier);
    UnknownRow(r, k, carrier);
    if reply.ReplyCreated? {
      ConfirmsRow(r, k, reply.awb, IntentConfirmed, testMode,
                  SerialReads(claimed, id, Some(NormalizeAwb(reply.awb))));
    }
  }

  // ---- What came of the call --------------------------------------------------------------------------------------

  /** Nothing stands between the claim and the adapter, and the result is noted. */
  predicate GetsThrough(p: Passage) {
    p.account == Some(Account(false, true)) && !p.circuitOpen && p.budgetLeft && p.buildable && p.noted
  }

  /** A missing or disabled account, missing credentials and an adapter that cannot be built leave the outcome
      unknown; an open circuit and a spent budget leave the job claimed; a result that could not be noted leaves
      the outcome unknown, whatever it was. */
  lemma RefusedJob(tables: Tables, id: Uuid, k: nat, intentId: string, p: Passage, made: Made, env: Env, hasToken: bool,
                   declined: bool, testMode: bool)
    requires Claimable(tables, id, k)
    ensures var after := JobEnd(tables, id, k, intentId, p, made, env, hasToken, declined, testMode);
            && (p.account.None? ==> LeftUnknown(tables, after, id, k))
            && (p.account.Some? && p.account.value.disabled ==> LeftUnknown(tables, after, id, k))
            && (p.account.Some? && !p.account.value.credentials ==> LeftUnknown(tables, after, id, k))
            && (p.account == Some(Account(false, true)) && p.circuitOpen ==> Waits(tables, after, id, k))
            && (p.account == Some(Account(false, true)) && !p.budgetLeft ==> Waits(tables, after, id, k))
            && (p.account == Some(Account(false, true)) && !p.circuitOpen && p.budgetLeft && !p.buildable ==>
                  LeftUnknown(tables, after, id, k))
            && (p.account == Some(Account(false, true)) && !p.circuitOpen && p.budgetLeft && !p.noted ==>
                  LeftUnknown(tables, after, id, k))
  {
    hide Processed, Create, Claimable, Fails, LeftUnknown, Waits, Confirms;
    ReplyLeaves(tables, id, k, ReplyOther, testMode);
    ReplyLeaves(tables, id, k, ReplyBackPressure, testMode);
  }

  /** What the response that settles the call leaves: the first, or after a 401 and a new token the second. */
  lemma AnsweredJob(tables: Tables, id: Uuid, k: nat, intentId: string, p: Passage, made: Made, env: Env,
                    hasToken: bool, declined: bool, testMode: bool)
    requires Claimable(tables, id, k) && GetsThrough(p) && intentId !in made.memo
    requires hasToken || env.token.Token?
    requires env.first.Answer? && env.first.status == 401 ==> env.refreshed.Token?
    ensures var after := JobEnd(tables, id, k, intentId, p, made, env, hasToken, declined, testMode);
            var last := if env.first.Answer? && env.first.status == 401 then env.second else env.first;
            && (last == NoAnswer(true) ==> LeftUnknown(tables, after, id, k))
            && (last == NoAnswer(false) ==> Fails(tables, after, id, k))
            && (last.Answer? ==>
                  && (last.status == 401 || last.status == 403 ==> Fails(tables, after, id, k))
                  && (last.status == 429 ==> Waits(tables, after, id, k))
                  && (last.status != 401 && last.status != 403 && last.status != 429 ==>
                        && (last.body.Unreadable? ==> LeftUnknown(tables, after, id, k))
                        && (!last.body.Unreadable? && !(200 <= last.status < 300) ==> Fails(tables, after, id, k))
                        && (last.body.Declined? && 200 <= last.status < 300 ==> Fails(tables, after, id, k))
                        && (last.body == Accepted(None) && 200 <= last.status < 300 ==>
                              LeftUnknown(tables, after, id, k))
                        && (last.body.Accepted? && last.body.awb.Some? && 200 <= last.status < 300 ==>
                              Confirms(tables, after, id, k, last.body.awb.value, testMode))))
  {
    hide Processed, Claimable, Fails, LeftUnknown, Waits, Confirms;
    ReplyLeaves(tables, id, k, PassedOn(p, Create(made, intentId, env, hasToken).1, declined), testMode);
  }

  /** Where no token could be had, at first or after a 401: a refused refresh and a provider error fail the
      attempt, a timeout and an unreadable answer leave it unknown, a rate limit leaves the job claimed. */
  lemma TokenlessJob(tables: Tables, id: Uuid, k: nat, intentId: string, p: Passage, made: Made, env: Env,
                     hasToken: bool, declined: bool, testMode: bool, error: AdapterError)
    requires Claimable(tables, id, k) && GetsThrough(p) && intentId !in made.memo
    requires (!hasToken && env.token == NoToken(error))
             || ((hasToken || env.token.Token?) && env.first.Answer? && env.first.status == 401
                 && env.refreshed == NoToken(error))
    ensures var after := JobEnd(tables, id, k, intentId, p, made, env, hasToken, declined, testMode);
            && (error == AuthError ==> Fails(tables, after, id, k))
            && (error == ProviderError ==> Fails(tables, after, id, k))
            && (error == TimeoutError ==> LeftUnknown(tables, after, id, k))
            && (error == BodyError ==> LeftUnknown(tables, after, id, k))
            && (error == RateLimitError ==> Waits(tables, after, id, k))
  {
    hide Processed, Claimable, Fails, LeftUnknown, Waits, Confirms;
    ReplyLeaves(tables, id, k, PassedOn(p, Create(made, intentId, env, hasToken).1, declined), testMode);
  }

  /** A redelivered job whose outcome is recorded settles that outcome. */
  lemma RememberedJob(tables: Tables, id: Uuid, k: nat, intentId: string, p: Passage, made: Made, env: Env,
                      hasToken: bool, declined: bool, testMode: bool)
    requires Claimable(tables, id, k) && GetsThrough(p) && intentId in made.memo
    ensures var after := JobEnd(tables, id, k, intentId, p, made, env, hasToken, declined, testMode);
            match made.memo[intentId]
            case Confirmed(Some(awb)) => Confirms(tables, after, id, k, awb, testMode)
            case Confirmed(None) => LeftUnknown(tables, after, id, k)
            case Failed => Fails(tables, after, id, k)
            case OutcomeUnknown => LeftUnknown(tables, after, id, k)
  {
    hide Processed, Claimable, Fails, LeftUnknown, Waits, Confirms;
    ReplyLeaves(tables, id, k, PassedOn(p, Create(made, intentId, env, hasToken).1, declined), testMode);
  }

  /** With the amount frozen and another carrier active, the trigger aborts the settlement: the job that was
      claimed before stays claimed, whatever the courier did. */
  lemma BlockedJob(tables: Tables, id: Uuid, k: nat, intentId: string, p: Passage, made: Made, env: Env, hasToken: bool,
                   declined: bool, testMode: bool)
    requires id in tables && k < |tables[id].intents| && tables[id].intents[k].outcome == InFlight
    requires tables[id].row.state == Submitted && !tables[id].row.isTest
    requires tables[id].row.collectible > 0 && CarrierAmong(tables, id, tables[id].row.order)
    ensures JobEnd(tables, id, k, intentId, p, made, env, hasToken, declined, testMode) == tables
  {
    hide RefusedBy, RefusalReply, PassedOn, Create, CarrierAmong, AwbTaken, NormalizeAwb;
    hide ConfirmTx, SettleFailedTx, MarkUnknownTx;
    var r := tables[id];
    assert tables[id := r] == tables;
    FailsRow(r, k, Submitted, IntentFailed, true);
    UnknownRow(r, k, true);
    forall awb: string, seen: Reads | seen.write
      ensures !ConfirmTx(r, k, awb, IntentConfirmed, testMode, seen.duplicate, seen.write).Committed?
    {
      ConfirmsRow(r, k, awb, IntentConfirmed, testMode, seen);
    }
  }
}
