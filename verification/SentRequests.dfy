/** What the courier is sent, field by field, from what the attempt froze when it was queued. */
module SentRequests {
  import opened Wrappers
  import opened Decimal
  import opened BookingSnapshot
  import opened ShipmentRows
  import opened BookingTransactions
  import opened RecordInvariant
  import opened BookingProtocol
  import opened BookingInvariant
  import opened BookingTheorems
  import Money

  lemma SentBuilt(s: State, id: Uuid, i: nat)
    requires Reachable(s) && id in s.cells && i < |s.cells[id].sent|
    ensures var c := s.cells[id];
            var k := c.sent[i].0;
            && k < |c.record.intents| == |c.record.frozen|
            && c.sent[i].1 == BuildRequest(c.record.intents[k].reference, c.record.intents[k].digest,
                                           BuildSnapshot(c.record.frozen[k].input, c.record.frozen[k].collectible))
            && IntentFrozen(id, c.record.row.shop, k, c.record.intents[k], c.record.frozen[k])
  {
    hide RowInv, WorkersInv, ResolverOk, CancelInv, LedgerInv, CountersInv, IntentFrozen, BuildRequest, BuildSnapshot;
    ReachableCell(s, id);
  }

  /** The recipient in the request is the one resolved when the booking was queued, "" where something is
      missing; a shipment without one is sent with empty fields. */
  ghost predicate NamesRecipient(request: CreateRequest, recipient: Option<Recipient>) {
    && (recipient.None? ==>
          && request.recipientName == "" && request.addressLines == [] && request.recipientCity == ""
          && request.recipientState == "" && request.recipientPincode == "" && request.recipientPhone == ""
          && request.recipientEmail == None && request.destinationPincode == "")
    && (recipient.Some? ==>
          var to := recipient.value;
          && request.recipientName == (if to.name.Some? then to.name.value else "")
          && request.addressLines == to.addressLines
          && request.recipientCity == (if to.city.Some? then to.city.value else "")
          && request.recipientState == (if to.state.Some? then to.state.value else "")
          && request.recipientPincode == (if to.pincode.Some? then to.pincode.value else "")
          && request.recipientPhone == (if to.phone.Some? then to.phone.value else "")
          && request.recipientEmail == to.email && request.destinationPincode == request.recipientPincode)
  }

  /** The parcel, with the defaults of what was not known. */
  ghost predicate DescribesParcel(request: CreateRequest, input: BookingInput, collectible: nat) {
    && request.serviceId == input.serviceId
    && request.originPincode == (if input.originPincode.Some? then input.originPincode.value else "")
    && request.deadWeightKg == (if input.deadWeightKg.Some? then input.deadWeightKg.value else "0.000")
    && request.declaredValue == (if input.declaredValue.Some? then input.declaredValue.value else "0.00")
    && request.size == (if input.dimensions.Some? then input.dimensions.value
                        else Dimensions("0.00", "0.00", "0.00"))
    && request.paymentMode == input.paymentMode && request.collectible == Money.PaiseToRupees(collectible)
    && request.pickupLocationId == (if input.pickupLocationId.Some? then input.pickupLocationId.value else "")
  }

  lemma BuiltFields(reference: string, digest: seq<Entry>, input: BookingInput, collectible: nat)
    ensures var request := BuildRequest(reference, digest, BuildSnapshot(input, collectible));
            && request.reference == reference && request.digest == digest
            && NamesRecipient(request, input.recipient) && DescribesParcel(request, input, collectible)
  {
  }

  lemma SortedStays(entries: seq<Entry>)
    requires SortedByKey(entries)
    ensures Canonical(entries) == entries
  {
    hide Canonical;
    SortedIsDistinct(entries);
    CanonicalSorts(entries);
    assert SameEntries(Canonical(entries), entries) by {
      forall x
        ensures x in Canonical(entries) <==> x in entries
      {
        assert x in Canonical(entries) <==> x in multiset(Canonical(entries));
        assert x in entries <==> x in multiset(entries);
      }
    }
    SortedUnique(Canonical(entries), entries);
  }

  lemma ReferenceText(shop: Uuid, shipment: Uuid, attempt: nat)
    ensures MerchantReference(shop, shipment, attempt + 1)
            == shop[..8] + "-" + shipment + if attempt == 0 then "" else "-" + Print(attempt + 1)
  {
    assert shop[..8] + "-" + shipment + "" == shop[..8] + "-" + shipment;
  }

  /** Every create of a reachable state says what its attempt froze, under the reference of that attempt; and
      its digest is the list of the thirteen hashed fields of this same request, in key order. */
  lemma SentIsFrozen(s: State, id: Uuid, i: nat)
    requires Reachable(s) && id in s.cells && i < |s.cells[id].sent|
    ensures s.cells[id].sent[i].0 < |s.cells[id].record.frozen|
    ensures var c := s.cells[id];
            var k, request := c.sent[i].0, c.sent[i].1;
            && NamesRecipient(request, c.record.frozen[k].input.recipient)
            && DescribesParcel(request, c.record.frozen[k].input, c.record.frozen[k].collectible)
    ensures var c := s.cells[id];
            var k, request := c.sent[i].0, c.sent[i].1;
            && request.reference == c.record.row.shop[..8] + "-" + id + (if k == 0 then "" else "-" + Print(k + 1))
            && request.digest == [Entry("collectible", request.collectible),
                                  Entry("courierAccountId", c.record.frozen[k].input.accountId),
                                  Entry("deadWeightKg", request.deadWeightKg),
                                  Entry("declaredValue", request.declaredValue),
                                  Entry("destinationPincode", request.destinationPincode),
                                  Entry("heightCm", request.size.heightCm),
                                  Entry("lengthCm", request.size.lengthCm),
                                  Entry("merchantReference", request.reference),
                                  Entry("originPincode", request.originPincode),
                                  Entry("paymentMode", match request.paymentMode
                                                       case Prepaid => "PREPAID"
                                                       case Cod => "COD"
                                                       case Unresolved => "UNRESOLVED"),
                                  Entry("serviceId", request.serviceId),
                                  Entry("shipmentId", id),
                                  Entry("widthCm", request.size.widthCm)]
  {
    SentBuilt(s, id, i);
    var c := s.cells[id];
    var k := c.sent[i].0;
    var intent, frozen := c.record.intents[k], c.record.frozen[k];
    hide Reachable, BuildRequest, BuildSnapshot, MerchantReference, Canonical, QueuedEntries;
    hide NamesRecipient, DescribesParcel;
    BuiltFields(intent.reference, intent.digest, frozen.input, frozen.collectible);
    ReferenceText(c.record.row.shop, id, k);
    SentDigestIsQueuedDigest(intent.reference, id, frozen.input, frozen.collectible, intent.digest);
    SentEntriesSorted(id, frozen.input.accountId, c.sent[i].1);
    SortedStays(SentEntries(id, frozen.input.accountId, c.sent[i].1));
  }

  /** The snapshot column of a shipment that has been queued holds, column by column, what its latest attempt froze;
      before that it is empty. */
  lemma SnapshotIsFrozen(s: State, id: Uuid)
    requires Reachable(s) && id in s.cells
    ensures |s.cells[id].record.frozen| == |s.cells[id].record.intents|
    ensures var r, n := s.cells[id].record, |s.cells[id].record.intents|;
            && (n == 0 ==> r.row.snapshot == None && r.row.account == None)
            && (n > 0 ==>
                  var input := r.frozen[n - 1].input;
                  && r.row.snapshot.Some? && r.row.account == Some(input.accountId)
                  && var snapshot := r.row.snapshot.value;
                     && snapshot.serviceId == input.serviceId && snapshot.accountId == input.accountId
                     && snapshot.version == input.version && snapshot.rateCardVersionId == input.rateCardVersionId
                     && snapshot.zoneMapId == input.zoneMapId && snapshot.recipient == input.recipient
                     && snapshot.pickupLocationId == input.pickupLocationId)
  {
    hide IntentsInv, WorkersInv, ResolverOk, SentInv, CancelInv, LedgerInv, CountersInv;
    ReachableCell(s, id);
  }
}
