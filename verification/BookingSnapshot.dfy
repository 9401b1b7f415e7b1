/** The pure half of a booking (src/modules/booking/snapshot.ts): the frozen snapshot, the merchant
    reference, the digest and the create request built from them. */
module BookingSnapshot {
  import opened Wrappers
  import opened Decimal
  import Money

  /** The canonical text of a PostgreSQL uuid. */
  type Uuid = s: string | |s| == 36 witness seq(36, _ => '0')

  // ---- AWB numbers ------------------------------------------------------------------------------

  predicate Stripped(c: char) {
    c == '-' || Money.IsSpace(c)
  }

  function Upper(c: char): char {
    if 'a' <= c <= 'z' then (c as int - 32) as char else c
  }

  /** Spaces and hyphens out, upper case. */
  function NormalizeAwb(raw: string): string {
    if raw == [] then []
    else (if Stripped(raw[0]) then [] else [Upper(raw[0])]) + NormalizeAwb(raw[1..])
  }

  /** Normalising is idempotent, so comparing normalised numbers compares equivalence classes. */
  lemma {:induction false} NormalizeIdempotent(raw: string)
    ensures NormalizeAwb(NormalizeAwb(raw)) == NormalizeAwb(raw)
  {
    if raw != [] {
      NormalizeIdempotent(raw[1..]);
      if !Stripped(raw[0]) {
        assert NormalizeAwb(raw)[1..] == NormalizeAwb(raw[1..]);
        assert !Stripped(Upper(raw[0])) && Upper(Upper(raw[0])) == Upper(raw[0]);
      } else {
        assert NormalizeAwb(raw) == NormalizeAwb(raw[1..]);
      }
    }
  }

  // ---- Merchant references ------------------------------------------------------------------------

  /** `{first 8 of the shop id}-{shipment id}`, with `-{attempt}` after the first attempt. */
  function MerchantReference(shop: Uuid, shipment: Uuid, attempt: int): string {
    var base := shop[..8] + "-" + shipment;
    if attempt <= 1 then base else base + "-" + Print(attempt)
  }

  lemma ReferenceParts(shop: Uuid, shipment: Uuid, attempt: int)
    ensures var r := MerchantReference(shop, shipment, attempt);
            |r| >= 45 && r[9..45] == shipment
            && r[45..] == if attempt <= 1 then "" else "-" + Print(attempt)
  {
    var base := shop[..8] + "-" + shipment;
    assert |base| == 45 && base[9..] == shipment;
    if attempt > 1 {
      assert base + "-" + Print(attempt) == base + ("-" + Print(attempt));
    }
  }

  /** The printed reference determines the shipment and the attempt. */
  lemma ReferenceInjective(shop1: Uuid, shipment1: Uuid, attempt1: int, shop2: Uuid, shipment2: Uuid, attempt2: int)
    requires attempt1 >= 1 && attempt2 >= 1
    requires MerchantReference(shop1, shipment1, attempt1) == MerchantReference(shop2, shipment2, attempt2)
    ensures shipment1 == shipment2 && attempt1 == attempt2
  {
    ReferenceParts(shop1, shipment1, attempt1);
    ReferenceParts(shop2, shipment2, attempt2);
    if attempt1 > 1 && attempt2 > 1 {
      assert ("-" + Print(attempt1))[1..] == Print(attempt1);
      assert ("-" + Print(attempt2))[1..] == Print(attempt2);
      PrintInjective(attempt1, attempt2);
    }
  }

  // ---- Digest ----------------------------------------------------------------------------------------

  datatype Entry = Entry(key: string, value: string)

  /** JavaScript's default string order: by code unit, a prefix first. */
  predicate StringLess(a: string, b: string) {
    b != [] && (a == [] || a[0] < b[0] || (a[0] == b[0] && StringLess(a[1..], b[1..])))
  }

  lemma {:induction false} StringLessTotal(a: string, b: string)
    ensures StringLess(a, b) || StringLess(b, a) || a == b
    ensures !(StringLess(a, b) && StringLess(b, a))
    ensures StringLess(a, b) ==> a != b
  {
    if a != [] && b != [] && a[0] == b[0] {
      StringLessTotal(a[1..], b[1..]);
      assert a == [a[0]] + a[1..] && b == [b[0]] + b[1..];
    }
  }

  lemma {:induction false} StringLessTransitive(a: string, b: string, c: string)
    requires StringLess(a, b) && StringLess(b, c)
    ensures StringLess(a, c)
  {
    if a != [] && a[0] == b[0] && b[0] == c[0] {
      StringLessTransitive(a[1..], b[1..], c[1..]);
    }
  }

  predicate SortedByKey(entries: seq<Entry>) {
    forall i, j :: 0 <= i < j < |entries| ==> StringLess(entries[i].key, entries[j].key)
  }

  function Insert(e: Entry, entries: seq<Entry>): seq<Entry> {
    if entries == [] || !StringLess(entries[0].key, e.key) then [e] + entries
    else [entries[0]] + Insert(e, entries[1..])
  }

  /** The entries in key order: what is serialised and hashed. */
  function Canonical(entries: seq<Entry>): seq<Entry> {
    if entries == [] then [] else Insert(entries[0], Canonical(entries[1..]))
  }

  ghost predicate DistinctKeys(entries: seq<Entry>) {
    forall i, j :: 0 <= i < j < |entries| ==> entries[i].key != entries[j].key
  }

  lemma SortedCons(x: Entry, rest: seq<Entry>)
    requires SortedByKey(rest)
    requires forall y :: y in rest ==> StringLess(x.key, y.key)
    ensures SortedByKey([x] + rest)
  {
    forall i, j | 0 <= i < j < |[x] + rest|
      ensures StringLess(([x] + rest)[i].key, ([x] + rest)[j].key)
    {
      assert rest[j - 1] in rest;
    }
  }

  lemma {:induction false} InsertSorts(e: Entry, entries: seq<Entry>)
    requires SortedByKey(entries)
    requires forall x :: x in entries ==> x.key != e.key
    ensures SortedByKey(Insert(e, entries))
    ensures multiset(Insert(e, entries)) == multiset{e} + multiset(entries)
  {
    if entries == [] {
    } else if StringLess(entries[0].key, e.key) {
      InsertSorts(e, entries[1..]);
      assert entries == [entries[0]] + entries[1..];
      var rest := Insert(e, entries[1..]);
      forall x | x in rest
        ensures StringLess(entries[0].key, x.key)
      {
        assert x in multiset(rest);
        assert x == e || x in entries[1..];
      }
      SortedCons(entries[0], rest);
    } else {
      StringLessTotal(entries[0].key, e.key);
      assert entries[0] in entries;
      forall x | x in entries
        ensures StringLess(e.key, x.key)
      {
        if x != entries[0] {
          StringLessTransitive(e.key, entries[0].key, x.key);
        }
      }
      SortedCons(e, entries);
    }
  }

  lemma {:induction false} CanonicalSorts(entries: seq<Entry>)
    requires DistinctKeys(entries)
    ensures SortedByKey(Canonical(entries))
    ensures multiset(Canonical(entries)) == multiset(entries)
  {
    if entries != [] {
      CanonicalSorts(entries[1..]);
      assert entries == [entries[0]] + entries[1..];
      forall x | x in Canonical(entries[1..])
        ensures x.key != entries[0].key
      {
        assert x in multiset(Canonical(entries[1..]));
        assert x in entries[1..];
      }
      InsertSorts(entries[0], Canonical(entries[1..]));
    }
  }

  /** The head of a sorted list is below everything the list holds. */
  lemma HeadIsLeast(a: seq<Entry>, x: Entry)
    requires SortedByKey(a) && x in a
    ensures x == a[0] || StringLess(a[0].key, x.key)
  {
  }

  ghost predicate SameEntries(a: seq<Entry>, b: seq<Entry>) {
    forall x :: x in a <==> x in b
  }

  lemma {:induction false} SortedUnique(a: seq<Entry>, b: seq<Entry>)
    requires SortedByKey(a) && SortedByKey(b) && SameEntries(a, b)
    ensures a == b
  {
    if a != [] {
      assert a[0] in b;
    }
    if b != [] {
      assert b[0] in a;
      HeadIsLeast(a, b[0]);
      HeadIsLeast(b, a[0]);
      StringLessTotal(a[0].key, b[0].key);
      TailEntries(a);
      TailEntries(b);
      SortedUnique(a[1..], b[1..]);
      assert a == [a[0]] + a[1..] && b == [b[0]] + b[1..];
    }
  }

  lemma TailEntries(a: seq<Entry>)
    requires SortedByKey(a) && a != []
    ensures forall x :: x in a[1..] <==> x in a && x != a[0]
  {
    assert a == [a[0]] + a[1..];
    forall x | x in a[1..]
      ensures x != a[0]
    {
      StringLessTotal(a[0].key, x.key);
    }
  }

  /** The digest does not depend on the order in which the object's keys were written. */
  lemma CanonicalOrderFree(a: seq<Entry>, b: seq<Entry>)
    requires DistinctKeys(a) && DistinctKeys(b) && SameEntries(a, b)
    ensures Canonical(a) == Canonical(b)
  {
    CanonicalSorts(a);
    CanonicalSorts(b);
    forall x
      ensures x in Canonical(a) <==> x in Canonical(b)
    {
      assert x in a <==> x in multiset(a);
      assert x in b <==> x in multiset(b);
      assert x in Canonical(a) <==> x in multiset(Canonical(a));
      assert x in Canonical(b) <==> x in multiset(Canonical(b));
    }
    SortedUnique(Canonical(a), Canonical(b));
  }

  // ---- Snapshot and create request ------------------------------------------------------------------

  datatype PaymentMode = Prepaid | Cod | Unresolved

  function ModeText(m: PaymentMode): string {
    match m
    case Prepaid => "PREPAID"
    case Cod => "COD"
    case Unresolved => "UNRESOLVED"
  }

  datatype Dimensions = Dimensions(lengthCm: string, widthCm: string, heightCm: string)

  datatype Recipient = Recipient(
    name: Option<string>, addressLines: seq<string>, city: Option<string>, state: Option<string>,
    pincode: Option<string>, phone: Option<string>, email: Option<string>)

  /** The columns of service_version that pricing reads. */
  datatype VersionColumns = VersionColumns(divisor: Option<string>, minBillableKg: Option<string>,
                                           incrementKg: Option<string>)

  datatype ServiceVersion = ServiceVersion(id: string, columns: VersionColumns)

  /** What queueBooking has resolved when it freezes a booking attempt. */
  datatype BookingInput = BookingInput(
    serviceId: string, accountId: string, version: Option<ServiceVersion>,
    rateCardVersionId: Option<string>, zoneMapId: Option<string>,
    recipient: Option<Recipient>, originPincode: Option<string>, deadWeightKg: Option<string>,
    dimensions: Option<Dimensions>, paymentMode: PaymentMode, declaredValue: Option<string>,
    pickupLocationId: Option<string>)
  {
    function Destination(): Option<string> {
      if recipient.Some? then recipient.value.pincode else None
    }

    function Size(): Dimensions {
      dimensions.GetOr(Dimensions("0.00", "0.00", "0.00"))
    }
  }

  datatype FormulaInputs = FormulaInputs(
    originPincode: string, destinationPincode: string, deadWeightKg: string, size: Dimensions,
    paymentMode: PaymentMode, collectible: string, declaredValue: string)

  datatype Snapshot = Snapshot(
    serviceId: string, accountId: string, version: Option<ServiceVersion>,
    rateCardVersionId: Option<string>, zoneMapId: Option<string>,
    recipient: Option<Recipient>, formulaInputs: FormulaInputs, pickupLocationId: Option<string>)

  function BuildSnapshot(input: BookingInput, collectible: nat): Snapshot {
    Snapshot(input.serviceId, input.accountId, input.version, input.rateCardVersionId, input.zoneMapId, input.recipient,
             FormulaInputs(input.originPincode.GetOr(""), input.Destination().GetOr(""),
                           input.deadWeightKg.GetOr("0.000"), input.Size(), input.paymentMode,
                           Money.PaiseToRupees(collectible), input.declaredValue.GetOr("0.00")),
             input.pickupLocationId)
  }

  /** The object queueBooking hashes, keys in the order they are written there. */
  function QueuedEntries(reference: string, shipment: Uuid, input: BookingInput, collectible: nat): seq<Entry> {
    [Entry("merchantReference", reference),
     Entry("shipmentId", shipment),
     Entry("serviceId", input.serviceId),
     Entry("courierAccountId", input.accountId),
     Entry("originPincode", input.originPincode.GetOr("")),
     Entry("destinationPincode", input.Destination().GetOr("")),
     Entry("deadWeightKg", input.deadWeightKg.GetOr("0.000")),
     Entry("lengthCm", input.Size().lengthCm),
     Entry("widthCm", input.Size().widthCm),
     Entry("heightCm", input.Size().heightCm),
     Entry("paymentMode", ModeText(input.paymentMode)),
     Entry("collectible", Money.PaiseToRupees(collectible)),
     Entry("declaredValue", input.declaredValue.GetOr("0.00"))]
  }

  datatype CreateRequest = CreateRequest(
    reference: string, digest: seq<Entry>, serviceId: string, originPincode: string, destinationPincode: string,
    deadWeightKg: string, size: Dimensions, paymentMode: PaymentMode, collectible: string, declaredValue: string,
    recipientName: string, addressLines: seq<string>, recipientCity: string, recipientState: string,
    recipientPincode: string, recipientPhone: string, recipientEmail: Option<string>, pickupLocationId: string)

  /** The worker's create request: the intent's reference and digest, everything else from the snapshot. */
  function BuildRequest(reference: string, digest: seq<Entry>, snapshot: Snapshot): CreateRequest {
    var f := snapshot.formulaInputs;
    var r := snapshot.recipient.GetOr(Recipient(None, [], None, None, None, None, None));
    CreateRequest(reference, digest, snapshot.serviceId, f.originPincode, f.destinationPincode, f.deadWeightKg, f.size,
                  f.paymentMode, f.collectible, f.declaredValue,
                  r.name.GetOr(""), r.addressLines, r.city.GetOr(""), r.state.GetOr(""), r.pincode.GetOr(""),
                  r.phone.GetOr(""), r.email, snapshot.pickupLocationId.GetOr(""))
  }

  /** The same thirteen fields read back from a request that was sent, in key order. */
  function SentEntries(shipment: Uuid, accountId: string, request: CreateRequest): seq<Entry> {
    [Entry("collectible", request.collectible),
     Entry("courierAccountId", accountId),
     Entry("deadWeightKg", request.deadWeightKg),
     Entry("declaredValue", request.declaredValue),
     Entry("destinationPincode", request.destinationPincode),
     Entry("heightCm", request.size.heightCm),
     Entry("lengthCm", request.size.lengthCm),
     Entry("merchantReference", request.reference),
     Entry("originPincode", request.originPincode),
     Entry("paymentMode", ModeText(request.paymentMode)),
     Entry("serviceId", request.serviceId),
     Entry("shipmentId", shipment),
     Entry("widthCm", request.size.widthCm)]
  }

  lemma {:induction false} LessAtFirstDifference(a: string, b: string, i: nat)
    requires i < |a| && i < |b| && a[..i] == b[..i] && a[i] < b[i]
    ensures StringLess(a, b)
  {
    if i > 0 {
      assert a[0] == a[..i][0] == b[..i][0] == b[0];
      assert a[1..][..i - 1] == a[..i][1..] == b[..i][1..] == b[1..][..i - 1];
      LessAtFirstDifference(a[1..], b[1..], i - 1);
    }
  }

  const KEYS := ["collectible", "courierAccountId", "deadWeightKg", "declaredValue", "destinationPincode", "heightCm",
                 "lengthCm", "merchantReference", "originPincode", "paymentMode", "serviceId", "shipmentId",
                 "widthCm"]

  lemma KeysSorted(i: nat)
    requires 0 < i < |KEYS|
    ensures StringLess(KEYS[i - 1], KEYS[i])
  {
    LessAtFirstDifference(KEYS[i - 1], KEYS[i], if i == 11 then 1 else if i == 1 || i == 3 || i == 4 then 2 else 0);
  }

  lemma SentEntriesSorted(shipment: Uuid, accountId: string, request: CreateRequest)
    ensures SortedByKey(SentEntries(shipment, accountId, request))
  {
    var e := SentEntries(shipment, accountId, request);
    assert |e| == |KEYS|;
    forall i | 0 < i < |e|
      ensures StringLess(e[i - 1].key, e[i].key)
    {
      assert e[i - 1].key == KEYS[i - 1] && e[i].key == KEYS[i];
      KeysSorted(i);
    }
    SortedByNeighbours(e);
  }

  lemma {:induction false} SortedByNeighbours(e: seq<Entry>)
    requires forall i :: 0 < i < |e| ==> StringLess(e[i - 1].key, e[i].key)
    ensures SortedByKey(e)
    decreases |e|
  {
    if |e| > 1 {
      var front, last := e[..|e| - 1], e[|e| - 1];
      SortedByNeighbours(front);
      forall i | 0 <= i < |front|
        ensures StringLess(e[i].key, last.key)
      {
        if i < |front| - 1 {
          StringLessTransitive(front[i].key, front[|front| - 1].key, last.key);
        }
      }
    }
  }

  /** Where the i-th field written by queueBooking stands in key order. */
  const KEY_POSITIONS := [7, 11, 10, 1, 8, 4, 2, 6, 12, 5, 9, 0, 3]
  const FIELD_POSITIONS := [11, 3, 6, 12, 5, 9, 7, 0, 4, 10, 2, 1, 8]

  /** Recomputing the digest over what was sent gives the digest stored when the booking was queued:
      the two code paths fill the same thirteen fields, absent values included. */
  lemma SentDigestIsQueuedDigest(reference: string, shipment: Uuid, input: BookingInput, collectible: nat,
                                 digest: seq<Entry>)
    ensures var request := BuildRequest(reference, digest, BuildSnapshot(input, collectible));
            Canonical(SentEntries(shipment, input.accountId, request))
                == Canonical(QueuedEntries(reference, shipment, input, collectible))
  {
    var request := BuildRequest(reference, digest, BuildSnapshot(input, collectible));
    var sent := SentEntries(shipment, input.accountId, request);
    var queued := QueuedEntries(reference, shipment, input, collectible);
    assert |queued| == 13 && |sent| == 13;
    SentEntriesSorted(shipment, input.accountId, request);
    FieldsAgree(reference, shipment, input, collectible, digest);
    hide QueuedEntries, SentEntries, Canonical, BuildRequest, BuildSnapshot;
    SortedIsDistinct(sent);
    PositionsPermute();
    assert forall k :: 0 <= k < 13 ==> sent[k] == queued[FIELD_POSITIONS[k]];
    CanonicalOrderFree(sent, queued);
  }

  lemma FieldsAgree(reference: string, shipment: Uuid, input: BookingInput, collectible: nat, digest: seq<Entry>)
    ensures var sent := SentEntries(shipment, input.accountId,
                                    BuildRequest(reference, digest, BuildSnapshot(input, collectible)));
            forall i :: 0 <= i < 13 ==> QueuedEntries(reference, shipment, input, collectible)[i]
                                        == sent[KEY_POSITIONS[i]]
  {
    hide ModeText, Money.PaiseToRupees;
  }

  lemma PositionsPermute()
    ensures forall i :: 0 <= i < 13 ==> 0 <= KEY_POSITIONS[i] < 13
    ensures forall i, j :: 0 <= i < j < 13 ==> KEY_POSITIONS[i] != KEY_POSITIONS[j]
    ensures forall k :: 0 <= k < 13 ==> 0 <= FIELD_POSITIONS[k] < 13 && KEY_POSITIONS[FIELD_POSITIONS[k]] == k
  {
  }

  lemma SortedIsDistinct(e: seq<Entry>)
    requires SortedByKey(e)
    ensures DistinctKeys(e)
  {
    forall i, j | 0 <= i < j < |e|
      ensures e[i].key != e[j].key
    {
      StringLessTotal(e[i].key, e[j].key);
    }
  }
}
