/** Bulk booking (src/modules/booking-ops/bulk-booking.service.ts): a batch whose worker may crash and be
    redelivered at any order, and the counter in Redis that admits at most two batches per shop. */
module BulkBooking {
  import opened Wrappers

  const MAX_ORDERS := 1000
  const MAX_CONCURRENT := 2

  datatype BatchState = BatchQueued | Running | Succeeded | Partial | BatchFailed | BatchCancelled
  {
    predicate Terminal() {
      Succeeded? || Partial? || BatchFailed? || BatchCancelled?
    }
  }

  datatype OrderResult = OrderResult(order: string, queued: bool)

  /** The booking_batch row. */
  datatype BatchRow = BatchRow(state: BatchState, total: nat, processed: nat, succeeded: nat, failed: nat,
                               results: seq<OrderResult>)

  /** What happens when the worker takes up its next order: a structured result that is then recorded, or a
      crash before it is; after the last order, a crash before the batch is closed. */
  datatype Event = Result(queued: bool) | Crash

  // ---- Creation -----------------------------------------------------------------------------------------------

  /** `[...new Set(ids)]`, then the empty ids out. */
  function Distinct(ids: seq<string>): (r: seq<string>)
    ensures forall x :: x in r <==> x in ids && x != ""
    ensures forall i, j :: 0 <= i < j < |r| ==> r[i] != r[j]
  {
    if ids == [] then []
    else
      var front, last := Distinct(ids[..|ids| - 1]), ids[|ids| - 1];
      assert forall x :: x in ids <==> x in ids[..|ids| - 1] || x == last;
      if last == "" || last in front then front else front + [last]
  }

  function NewBatch(ids: seq<string>): Option<BatchRow> {
    var orderIds := Distinct(ids);
    if |orderIds| == 0 || |orderIds| > MAX_ORDERS then None else Some(BatchRow(BatchQueued, |orderIds|, 0, 0, 0, []))
  }

  /** The ids stand in the order in which they first occur. */
  lemma {:induction false} DistinctInOrder(ids: seq<string>, i: nat, j: nat)
    requires i < j < |Distinct(ids)|
    ensures exists p :: 0 <= p < |ids| && ids[p] == Distinct(ids)[i]
                        && forall q :: 0 <= q < |ids| && ids[q] == Distinct(ids)[j] ==> p < q
  {
    var n := |ids| - 1;
    var front := Distinct(ids[..n]);
    if j < |front| {
      DistinctInOrder(ids[..n], i, j);
      var p :| 0 <= p < n && ids[..n][p] == front[i]
               && forall q :: 0 <= q < n && ids[..n][q] == front[j] ==> p < q;
      assert forall q :: 0 <= q < n ==> ids[..n][q] == ids[q];
    } else {
      assert front[i] in ids[..n];
      var p :| 0 <= p < n && ids[..n][p] == front[i];
      forall q | 0 <= q < n
        ensures ids[q] != ids[n]
      {
        assert ids[..n][q] == ids[q] && ids[q] in ids[..n];
      }
    }
  }

  lemma {:induction false} DistinctCounts(r: seq<string>)
    requires forall i, j :: 0 <= i < j < |r| ==> r[i] != r[j]
    ensures |r| == |set x | x in r|
  {
    if r == [] {
      assert (set x | x in r) == {};
    } else {
      var front, last := r[..|r| - 1], r[|r| - 1];
      DistinctCounts(front);
      assert r == front + [last];
      assert (set x | x in r) == (set x | x in front) + {last};
      assert last !in front;
    }
  }

  /** A batch is created if and only if it has between one and a thousand different non-empty ids, and starts
      with nothing recorded. */
  lemma AdmittedExactly(ids: seq<string>)
    ensures var n := |set x | x in ids && x != ""|;
            && (NewBatch(ids).Some? <==> 1 <= n <= 1000)
            && (NewBatch(ids).Some? ==> NewBatch(ids).value == BatchRow(BatchQueued, n, 0, 0, 0, []))
  {
    DistinctCounts(Distinct(ids));
    assert (set x | x in Distinct(ids)) == set x | x in ids && x != "";
  }

  // ---- Processing ---------------------------------------------------------------------------------------------

  function Record(row: BatchRow, order: string, queued: bool): BatchRow {
    row.(processed := row.processed + 1,
         succeeded := if queued then row.succeeded + 1 else row.succeeded,
         failed := if queued then row.failed else row.failed + 1,
         results := row.results + [OrderResult(order, queued)])
  }

  /** What one delivery of the job leaves behind, given what happens at each order it takes up. */
  function Deliver(row: BatchRow, orderIds: seq<string>, events: seq<Event>): BatchRow
    decreases |events|
  {
    if row.state.Terminal() then row
    else
      var running := row.(state := Running);
      if |row.results| >= |orderIds| then
        if events != [] && events[0].Crash? then running
           else running.(state := if row.failed == 0 then Succeeded else Partial)
      else if events == [] || events[0].Crash? then running
      else Deliver(Record(running, orderIds[|row.results|], events[0].queued), orderIds, events[1..])
  }

  function Redeliver(row: BatchRow, orderIds: seq<string>, deliveries: seq<seq<Event>>): BatchRow {
    if deliveries == [] then row
    else Deliver(Redeliver(row, orderIds, deliveries[..|deliveries| - 1]), orderIds, deliveries[|deliveries| - 1])
  }

  function QueuedAmong(results: seq<OrderResult>): nat {
    if results == [] then 0 else QueuedAmong(results[..|results| - 1]) + if results[|results| - 1].queued then 1 else 0
  }

  ghost predicate DistinctOrders(orderIds: seq<string>) {
    forall i, j :: 0 <= i < j < |orderIds| ==> orderIds[i] != orderIds[j]
  }

  ghost predicate IsPrefix(results: seq<OrderResult>, orderIds: seq<string>)
    requires |results| <= |orderIds|
  {
    forall i :: 0 <= i < |results| ==> results[i].order == orderIds[i]
  }

  /** The recorded orders are a duplicate-free prefix of the batch, the counters count them, and a terminal
      batch covers every order. */
  ghost predicate BatchInv(row: BatchRow, orderIds: seq<string>) {
    && row.total == |orderIds| && |row.results| <= |orderIds|
    && DistinctOrders(orderIds) && IsPrefix(row.results, orderIds)
    && row.processed == |row.results| == row.succeeded + row.failed && row.succeeded == QueuedAmong(row.results)
    && (row.state == BatchQueued ==> row.results == [])
    && (row.state == Succeeded <==> row.state.Terminal() && row.failed == 0)
    && (row.state.Terminal() ==> row.processed == row.total && row.state in {Succeeded, Partial})
  }

  lemma RecordKeeps(row: BatchRow, orderIds: seq<string>, queued: bool)
    requires BatchInv(row, orderIds) && row.state == Running && |row.results| < |orderIds|
    ensures BatchInv(Record(row, orderIds[|row.results|], queued), orderIds)
  {
    var results' := Record(row, orderIds[|row.results|], queued).results;
    assert results'[..|results'| - 1] == row.results;
  }

  /** One delivery keeps the invariant, loses no result, and never reopens a terminal batch. */
  lemma {:induction false} DeliverKeeps(row: BatchRow, orderIds: seq<string>, events: seq<Event>)
    requires BatchInv(row, orderIds)
    ensures BatchInv(Deliver(row, orderIds, events), orderIds)
    ensures row.results <= Deliver(row, orderIds, events).results
    ensures row.state.Terminal() ==> Deliver(row, orderIds, events) == row
    decreases |events|
  {
    hide QueuedAmong, DistinctOrders, IsPrefix;
    if !row.state.Terminal() && |row.results| < |orderIds| && events != [] && events[0].Result? {
      var running := row.(state := Running);
      RecordKeeps(running, orderIds, events[0].queued);
      DeliverKeeps(Record(running, orderIds[|row.results|], events[0].queued), orderIds, events[1..]);
    }
  }

  /** For every pattern of crashes and redeliveries of a new batch. */
  lemma {:induction false} Resumption(ids: seq<string>, deliveries: seq<seq<Event>>)
    requires NewBatch(ids).Some?
    ensures BatchInv(Redeliver(NewBatch(ids).value, Distinct(ids), deliveries), Distinct(ids))
  {
    if deliveries != [] {
      Resumption(ids, deliveries[..|deliveries| - 1]);
      DeliverKeeps(Redeliver(NewBatch(ids).value, Distinct(ids), deliveries[..|deliveries| - 1]), Distinct(ids),
                   deliveries[|deliveries| - 1]);
    }
  }

  /** A delivery that meets no crash finishes the batch: SUCCEEDED if and only if every order was queued. */
  lemma {:induction false} CleanDeliveryFinishes(row: BatchRow, orderIds: seq<string>, events: seq<Event>)
    requires BatchInv(row, orderIds) && |events| >= |orderIds| - |row.results| && forall e :: e in events ==> e.Result?
    ensures var row' := Deliver(row, orderIds, events);
            && row'.state.Terminal()
            && (row'.state == Succeeded <==> forall i :: 0 <= i < |row'.results| ==> row'.results[i].queued)
    decreases |events|
  {
    hide DistinctOrders, IsPrefix;
    DeliverKeeps(row, orderIds, events);
    AllQueued(Deliver(row, orderIds, events).results);
    assert events != [] ==> events[0] in events;
    if !row.state.Terminal() && |row.results| < |orderIds| {
      var running := row.(state := Running);
      RecordKeeps(running, orderIds, events[0].queued);
      CleanDeliveryFinishes(Record(running, orderIds[|row.results|], events[0].queued), orderIds, events[1..]);
    }
  }

  // ---- What a delivery records ------------------------------------------------------------------------------------

  /** The first n events are results, and then the batch is covered, the events end, or the worker crashes. */
  ghost predicate GoesOnFor(n: nat, row: BatchRow, orderIds: seq<string>, events: seq<Event>) {
    && |row.results| + n <= |orderIds| && n <= |events|
    && (forall i :: 0 <= i < n ==> events[i].Result?)
    && (|row.results| + n == |orderIds| || n == |events| || events[n].Crash?)
  }

  ghost function QueuedEvents(events: seq<Event>, n: nat): set<nat>
    requires n <= |events|
  {
    set i: nat | i < n && events[i] == Result(true)
  }

  lemma QueuedEventsFirst(events: seq<Event>, n: nat)
    requires 0 < n <= |events|
    ensures |QueuedEvents(events, n)|
            == (if events[0] == Result(true) then 1 else 0) + |QueuedEvents(events[1..], n - 1)|
  {
    Shifted(events, n);
    assert QueuedEvents(events, n)
           == (if events[0] == Result(true) then {0} else {}) + LaterEvents(events, n);
  }

  /** Those after the first event. */
  ghost function LaterEvents(events: seq<Event>, n: nat): set<nat>
    requires n <= |events|
  {
    set i: nat | i < n && i > 0 && events[i] == Result(true)
  }

  lemma LaterSnoc(events: seq<Event>, n: nat)
    requires 1 < n <= |events|
    ensures |LaterEvents(events, n)|
            == |LaterEvents(events, n - 1)| + if events[n - 1] == Result(true) then 1 else 0
  {
    var queued := events[n - 1] == Result(true);
    assert LaterEvents(events, n) == LaterEvents(events, n - 1) + if queued then {n - 1} else {};
  }

  lemma QueuedSnoc(events: seq<Event>, n: nat)
    requires 0 < n <= |events|
    ensures |QueuedEvents(events, n)|
            == |QueuedEvents(events, n - 1)| + if events[n - 1] == Result(true) then 1 else 0
  {
    var queued := events[n - 1] == Result(true);
    assert QueuedEvents(events, n) == QueuedEvents(events, n - 1) + if queued then {n - 1} else {};
  }

  lemma {:induction false} Shifted(events: seq<Event>, n: nat)
    requires 0 < n <= |events|
    ensures |LaterEvents(events, n)| == |QueuedEvents(events[1..], n - 1)|
  {
    if n > 1 {
      Shifted(events, n - 1);
      LaterSnoc(events, n);
      QueuedSnoc(events[1..], n - 1);
      assert events[1..][n - 2] == events[n - 1];
      hide LaterEvents, QueuedEvents;
    } else {
      assert LaterEvents(events, n) == {} && QueuedEvents(events[1..], 0) == {};
    }
  }

  /** A delivery appends, for each order it gets through, that order and whether processing it queued it, and
      counts the two kinds; it closes the batch exactly when it gets through the last order and does not crash
      there, as SUCCEEDED exactly when nothing has failed. */
  lemma {:induction false} DeliveryRecords(row: BatchRow, orderIds: seq<string>, events: seq<Event>, n: nat)
    requires BatchInv(row, orderIds) && !row.state.Terminal() && GoesOnFor(n, row, orderIds, events)
    ensures var row', m := Deliver(row, orderIds, events), |row.results|;
            && |row'.results| == m + n && row.results <= row'.results
            && (forall j :: m <= j < m + n ==> row'.results[j].order == orderIds[j]
                                               && events[j - m] == Result(row'.results[j].queued))
            && row'.succeeded == row.succeeded + |QueuedEvents(events, n)|
            && row'.failed == row.failed + n - |QueuedEvents(events, n)|
            && row'.processed == row.processed + n && row'.total == row.total
            && row'.state == (if m + n < |orderIds| || (n < |events| && events[n].Crash?) then Running
                              else if row'.failed == 0 then Succeeded else Partial)
    decreases n
  {
    hide BatchInv, QueuedEvents, QueuedAmong;
    if n == 0 {
      NothingQueued(events);
      Stops(row, orderIds, events);
    } else {
      InvLengths(row, orderIds);
      var next := Record(row.(state := Running), orderIds[|row.results|], events[0].queued);
      TakesUp(row, orderIds, events[0].queued);
      assert GoesOnFor(n - 1, next, orderIds, events[1..]) by {
        assert forall i :: 0 <= i < n - 1 ==> events[1..][i] == events[i + 1];
      }
      DeliveryRecords(next, orderIds, events[1..], n - 1);
      QueuedEventsFirst(events, n);
      var row', m := Deliver(row, orderIds, events), |row.results|;
      assert row' == Deliver(next, orderIds, events[1..]);
      assert next.results == row.results + [OrderResult(orderIds[m], events[0].queued)];
      hide Deliver, Record, GoesOnFor;
      forall j | m <= j < m + n
        ensures row'.results[j].order == orderIds[j] && events[j - m] == Result(row'.results[j].queued)
      {
        if j == m {
          assert row'.results[m] == next.results[m];
        } else {
          assert events[1..][j - (m + 1)] == events[j - m];
        }
      }
    }
  }

  lemma NothingQueued(events: seq<Event>)
    ensures QueuedEvents(events, 0) == {}
  {
  }

  lemma InvLengths(row: BatchRow, orderIds: seq<string>)
    requires BatchInv(row, orderIds)
    ensures |row.results| <= |orderIds|
  {
  }

  lemma Stops(row: BatchRow, orderIds: seq<string>, events: seq<Event>)
    requires !row.state.Terminal() && GoesOnFor(0, row, orderIds, events)
    ensures Deliver(row, orderIds, events)
            == row.(state := if |row.results| < |orderIds| || (events != [] && events[0].Crash?) then Running
                             else if row.failed == 0 then Succeeded else Partial)
  {
  }

  lemma TakesUp(row: BatchRow, orderIds: seq<string>, queued: bool)
    requires BatchInv(row, orderIds) && !row.state.Terminal() && |row.results| < |orderIds|
    ensures BatchInv(Record(row.(state := Running), orderIds[|row.results|], queued), orderIds)
  {
    hide QueuedAmong, DistinctOrders, IsPrefix;
    RecordKeeps(row.(state := Running), orderIds, queued);
  }

  /** So the one delivery of a new batch that meets no crash ends SUCCEEDED if and only if processing queued
      every order, and PARTIAL otherwise. */
  lemma FirstDeliverySucceedsExactly(ids: seq<string>, events: seq<Event>)
    requires NewBatch(ids).Some? && |events| >= |Distinct(ids)| && forall e :: e in events ==> e.Result?
    ensures var row', total := Deliver(NewBatch(ids).value, Distinct(ids), events), |Distinct(ids)|;
            && (row'.state == Succeeded <==> forall i :: 0 <= i < total ==> events[i] == Result(true))
            && (row'.state == Partial <==> exists i :: 0 <= i < total && events[i] == Result(false))
            && row'.succeeded + row'.failed == total
  {
    hide QueuedAmong, Distinct, DistinctOrders, IsPrefix, QueuedEvents, Deliver;
    var row, orderIds := NewBatch(ids).value, Distinct(ids);
    NewBatchInv(ids);
    assert forall i :: 0 <= i < |events| ==> events[i] in events;
    DeliveryRecords(row, orderIds, events, |orderIds|);
    AllAreQueued(events, |orderIds|);
    assert forall i :: 0 <= i < |orderIds| ==> events[i] == Result(true) || events[i] == Result(false);
  }

  lemma NewBatchInv(ids: seq<string>)
    requires NewBatch(ids).Some?
    ensures BatchInv(NewBatch(ids).value, Distinct(ids))
  {
  }

  lemma {:induction false} AllAreQueued(events: seq<Event>, n: nat)
    requires n <= |events|
    ensures |QueuedEvents(events, n)| <= n
    ensures |QueuedEvents(events, n)| == n <==> forall i :: 0 <= i < n ==> events[i] == Result(true)
  {
    if n > 0 {
      AllAreQueued(events, n - 1);
      QueuedSnoc(events, n);
    } else {
      NothingQueued(events);
    }
  }

  lemma {:induction false} AllQueued(results: seq<OrderResult>)
    ensures QueuedAmong(results) <= |results|
    ensures QueuedAmong(results) == |results| <==> forall i :: 0 <= i < |results| ==> results[i].queued
  {
    if results != [] {
      AllQueued(results[..|results| - 1]);
    }
  }

  function OrdersOf(results: seq<OrderResult>): set<string> {
    set r | r in results :: r.order
  }

  /** The row in the database and the worker that updates it order by order. */
  class BatchWorker {
    var row: BatchRow

    constructor (row: BatchRow)
      ensures this.row == row
    {
      this.row := row;
    }

    /** processBatch: skip what is recorded, process and persist the rest one by one, then close the batch. */
    method ProcessBatch(orderIds: seq<string>, events: seq<Event>)
      requires BatchInv(row, orderIds)
      modifies this
      ensures row == Deliver(old(row), orderIds, events)
      ensures BatchInv(row, orderIds)
    {
      hide QueuedAmong, IsPrefix, DistinctOrders;
      DeliverKeeps(row, orderIds, events);
      if row.state.Terminal() {
        return;
      }
      ghost var start := row;
      if row.state == BatchQueued {
        row := row.(state := Running);
      }
      assert BatchInv(row, orderIds);
      var results, processed, succeeded, failed := row.results, row.processed, row.succeeded, row.failed;
      var done := OrdersOf(results);
      DoneIsPrefix(results, orderIds);
      var i, next := 0, 0;
      while i < |orderIds|
        invariant 0 <= i <= |orderIds| && 0 <= next <= |events|
        invariant row == BatchRow(Running, start.total, processed, succeeded, failed, results)
        invariant BatchInv(row, orderIds)
        invariant if i < |start.results| then results == start.results && next == 0 else |results| == i
        invariant Deliver(row, orderIds, events[next..]) == Deliver(start, orderIds, events)
      {
        if orderIds[i] !in done {
          if next == |events| || events[next].Crash? {
            return;
          }
          var queued := events[next].queued;
          RecordKeeps(row, orderIds, queued);
          assert events[next..][1..] == events[next + 1..];
          results := results + [OrderResult(orderIds[i], queued)];
          processed := processed + 1;
          if queued {
            succeeded := succeeded + 1;
          } else {
            failed := failed + 1;
          }
          row := row.(processed := processed, succeeded := succeeded, failed := failed, results := results);
          next := next + 1;
        }
        i := i + 1;
      }
      if next < |events| && events[next].Crash? {
        return;
      }
      row := row.(state := if failed == 0 then Succeeded else Partial);
    }
  }

  /** The recorded orders are the first ones, so the loop takes up exactly those after them. */
  lemma DoneIsPrefix(results: seq<OrderResult>, orderIds: seq<string>)
    requires |results| <= |orderIds| && IsPrefix(results, orderIds) && DistinctOrders(orderIds)
    ensures forall k :: 0 <= k < |orderIds| ==> (orderIds[k] in OrdersOf(results) <==> k < |results|)
  {
    var done := OrdersOf(results);
    forall k | 0 <= k < |orderIds|
      ensures orderIds[k] in done <==> k < |results|
    {
      if k < |results| {
        assert results[k] in results;
      }
    }
  }

  // ---- Admission ----------------------------------------------------------------------------------------------

  /** A batch that has taken a number, was admitted, or has released its slot at least once. */
  datatype SlotPc = Took(n: int) | Admitted | Freed

  /** The shop's counter, its batches, and the releases between their DECR and their check of what it gave.
      `surplus` counts the releases of batches that had released before; `wiped` and `expired` are what the
      resets to 0 and the expiry of the key took off the counter. */
  datatype Slots = Slots(counter: int, batches: map<nat, SlotPc>, releases: map<nat, int>, surplus: nat, wiped: nat,
                         expired: nat)

  /** `Release`: a delivery that found the batch not yet terminal leaves through its finally, or the creation of
      the batch failed after it was admitted. */
  datatype SlotStep =
    | Incr(batch: nat)
    | Decide(batch: nat)
    | Release(batch: nat, release: nat)
    | Floor(release: nat)
    | Expire

  const NO_SLOTS := Slots(0, map[], map[], 0, 0, 0)

  function Above(counter: int): nat {
    if counter > 0 then counter else 0
  }

  /** Each Redis command is atomic; between two of them others run. */
  function SlotNext(s: Slots, step: SlotStep): Slots {
    match step
    case Incr(b) =>
      if b in s.batches then s else s.(counter := s.counter + 1, batches := s.batches[b := Took(s.counter + 1)])
    case Decide(b) =>
      if b !in s.batches || !s.batches[b].Took? then s
      else if s.batches[b].n > MAX_CONCURRENT then s.(counter := s.counter - 1, batches := s.batches - {b})
      else s.(batches := s.batches[b := Admitted])
    case Release(b, r) =>
      if b !in s.batches || s.batches[b].Took? || r in s.releases then s
      else s.(counter := s.counter - 1, batches := s.batches[b := Freed], releases := s.releases[r := s.counter - 1],
              surplus := if s.batches[b].Freed? then s.surplus + 1 else s.surplus)
    case Floor(r) =>
      if r !in s.releases then s
      else if s.releases[r] < 0 then s.(counter := 0, wiped := s.wiped + Above(s.counter), releases := s.releases - {r})
      else s.(releases := s.releases - {r})
    case Expire =>
      s.(counter := 0, expired := s.expired + Above(s.counter))
  }

  function SlotRun(s: Slots, steps: seq<SlotStep>): Slots {
    if steps == [] then s else SlotNext(SlotRun(s, steps[..|steps| - 1]), steps[|steps| - 1])
  }

  ghost predicate SlotReachable(s: Slots) {
    exists steps :: s == SlotRun(NO_SLOTS, steps)
  }

  /** Batches that hold a number or a slot, and those among them that may run. */
  function Counted(batches: map<nat, SlotPc>): set<nat> {
    set b | b in batches && !batches[b].Freed?
  }

  function MayRun(batches: map<nat, SlotPc>): set<nat> {
    set b | b in batches && (batches[b].Admitted? || (batches[b].Took? && batches[b].n <= MAX_CONCURRENT))
  }

  /** The admitted batches that have not released. */
  function Holders(batches: map<nat, SlotPc>): set<nat> {
    set b | b in batches && batches[b].Admitted?
  }

  /** How far the counter may fall short of the batches it should count. */
  function Lost(s: Slots): nat {
    s.surplus + s.wiped + s.expired
  }

  ghost predicate SlotsInv(s: Slots) {
    && |Counted(s.batches)| <= s.counter + Lost(s) && |MayRun(s.batches)| <= MAX_CONCURRENT + Lost(s)
    && (s.surplus == 0 && s.expired == 0 ==>
          s.counter == |Counted(s.batches)| && s.wiped == 0 && forall r :: r in s.releases ==> s.releases[r] >= 0)
  }

  lemma SubsetCard(a: set<nat>, b: set<nat>)
    requires a <= b
    ensures |a| <= |b|
  {
    assert b == a + (b - a);
  }

  lemma IncrKeeps(s: Slots, b: nat)
    requires SlotsInv(s) && b !in s.batches
    ensures SlotsInv(SlotNext(s, Incr(b)))
  {
    var s' := SlotNext(s, Incr(b));
    assert Counted(s'.batches) == Counted(s.batches) + {b};
    if s.counter + 1 <= MAX_CONCURRENT {
      SubsetCard(MayRun(s'.batches), Counted(s'.batches));
    } else {
      assert MayRun(s'.batches) == MayRun(s.batches);
    }
  }

  lemma DecideKeeps(s: Slots, b: nat)
    requires SlotsInv(s) && b in s.batches && s.batches[b].Took?
    ensures SlotsInv(SlotNext(s, Decide(b)))
  {
    var s' := SlotNext(s, Decide(b));
    assert b in Counted(s.batches) && MayRun(s'.batches) == MayRun(s.batches);
    assert Counted(s'.batches) == if s.batches[b].n > MAX_CONCURRENT then Counted(s.batches) - {b}
           else Counted(s.batches);
  }

  lemma ReleaseKeeps(s: Slots, b: nat, r: nat)
    requires SlotsInv(s) && b in s.batches && !s.batches[b].Took? && r !in s.releases
    ensures SlotsInv(SlotNext(s, Release(b, r)))
  {
    var s' := SlotNext(s, Release(b, r));
    if s.batches[b].Admitted? {
      assert b in Counted(s.batches) && Counted(s'.batches) == Counted(s.batches) - {b};
      SubsetCard(MayRun(s'.batches), MayRun(s.batches));
    } else {
      assert s'.batches == s.batches;
    }
  }

  lemma SlotNextKeeps(s: Slots, step: SlotStep)
    requires SlotsInv(s)
    ensures SlotsInv(SlotNext(s, step))
  {
    if step.Incr? && step.batch !in s.batches {
      IncrKeeps(s, step.batch);
    } else if step.Decide? && step.batch in s.batches && s.batches[step.batch].Took? {
      DecideKeeps(s, step.batch);
    } else if step.Release? && step.batch in s.batches && !s.batches[step.batch].Took? && step.release !in s.releases {
      ReleaseKeeps(s, step.batch, step.release);
    }
    hide Counted, MayRun;
  }

  lemma {:induction false} SlotRunKeeps(steps: seq<SlotStep>)
    ensures SlotsInv(SlotRun(NO_SLOTS, steps))
  {
    hide SlotsInv, SlotNext;
    if steps == [] {
      EmptySlots();
    } else {
      SlotRunKeeps(steps[..|steps| - 1]);
      SlotNextKeeps(SlotRun(NO_SLOTS, steps[..|steps| - 1]), steps[|steps| - 1]);
    }
  }

  lemma EmptySlots()
    ensures SlotsInv(NO_SLOTS)
  {
    assert Counted(NO_SLOTS.batches) == {} && MayRun(NO_SLOTS.batches) == {};
  }

  /** Over every interleaving of admissions, refusals, releases, redeliveries and expiries: the admitted batches
      that have not released exceed two by at most the surplus releases and what resets and expiries took off
      the counter. Where no batch is released twice and the key does not expire, they are at most two, the
      counter counts exactly the batches that hold a number or a slot, and the reset never happens. */
  lemma AdmittedBound(s: Slots)
    requires SlotReachable(s)
    ensures |Holders(s.batches)| <= MAX_CONCURRENT + s.surplus + s.wiped + s.expired
    ensures s.surplus == 0 && s.expired == 0 ==>
              && |Holders(s.batches)| <= MAX_CONCURRENT
              && s.wiped == 0 && s.counter == |Counted(s.batches)| >= 0
  {
    hide SlotNext;
    var steps :| s == SlotRun(NO_SLOTS, steps);
    SlotRunKeeps(steps);
    SubsetCard(Holders(s.batches), MayRun(s.batches));
  }

  // ---- The bound is reached -----------------------------------------------------------------------------------

  lemma SlotStepReaches(s: Slots, step: SlotStep)
    requires SlotReachable(s)
    ensures SlotReachable(SlotNext(s, step))
  {
    hide SlotNext;
    var steps :| s == SlotRun(NO_SLOTS, steps);
    assert (steps + [step])[..|steps|] == steps;
    assert SlotRun(NO_SLOTS, steps + [step]) == SlotNext(s, step);
  }

  /** A new batch is admitted. */
  lemma Admits(s: Slots, b: nat)
    requires SlotReachable(s) && b !in s.batches && s.counter + 1 <= MAX_CONCURRENT
    ensures SlotReachable(s.(counter := s.counter + 1, batches := s.batches[b := Admitted]))
  {
    hide SlotReachable;
    SlotStepReaches(s, Incr(b));
    var took := SlotNext(s, Incr(b));
    SlotStepReaches(took, Decide(b));
    assert took.batches[b := Admitted] == s.batches[b := Admitted];
  }

  /** Batch `b` releases, finds nothing to reset, and is done. */
  lemma Releases(s: Slots, b: nat)
    requires SlotReachable(s) && b in s.batches && !s.batches[b].Took? && s.counter >= 1 && s.releases == map[]
    ensures SlotReachable(s.(counter := s.counter - 1, batches := s.batches[b := Freed],
                             surplus := if s.batches[b].Freed? then s.surplus + 1 else s.surplus))
  {
    hide SlotReachable;
    SlotStepReaches(s, Release(b, 0));
    var released := SlotNext(s, Release(b, 0));
    SlotStepReaches(released, Floor(0));
    assert released.releases - {0} == map[];
  }

  function From(low: nat, high: nat): (r: set<nat>)
    requires low <= high
    ensures |r| == high - low && forall b :: b in r <==> low <= b < high
    decreases high
  {
    if low == high then {} else From(low, high - 1) + {high - 1}
  }

  /** Batch 0 has released, and 2 + k others run. */
  function CrowdBatches(k: nat): (r: map<nat, SlotPc>)
    ensures forall b: nat :: b in r <==> b < 3 + k
    ensures forall b :: b in r ==> r[b] == if b == 0 then Freed else Admitted
  {
    if k == 0 then map[0 := Freed, 1 := Admitted, 2 := Admitted] else CrowdBatches(k - 1)[2 + k := Admitted]
  }

  /** Batch 0 has released `k` times too often, and each time another batch was let in. */
  function Crowd(k: nat): Slots {
    Slots(MAX_CONCURRENT, CrowdBatches(k), map[], k, 0, 0)
  }

  lemma FirstCrowd()
    ensures SlotReachable(Crowd(0))
  {
    hide SlotReachable;
    assert SlotReachable(NO_SLOTS) by { Nothing(); }
    Admits(NO_SLOTS, 0);
    var one := Slots(1, map[0 := Admitted], map[], 0, 0, 0);
    Admits(one, 1);
    var two := Slots(2, map[0 := Admitted, 1 := Admitted], map[], 0, 0, 0);
    assert two == one.(counter := 2, batches := one.batches[1 := Admitted]);
    Releases(two, 0);
    var freed := Slots(1, map[0 := Freed, 1 := Admitted], map[], 0, 0, 0);
    assert freed.batches == two.batches[0 := Freed];
    Admits(freed, 2);
    assert CrowdBatches(0) == freed.batches[2 := Admitted];
  }

  lemma {:induction false} CrowdReachable(k: nat)
    ensures SlotReachable(Crowd(k))
  {
    hide SlotReachable;
    if k == 0 {
      FirstCrowd();
    } else {
      CrowdReachable(k - 1);
      Releases(Crowd(k - 1), 0);
      var freed := Crowd(k - 1).(counter := 1, surplus := k);
      assert freed.batches == Crowd(k - 1).batches[0 := Freed];
      Admits(freed, 2 + k);
    }
  }

  lemma Nothing()
    ensures SlotReachable(NO_SLOTS)
  {
    assert SlotRun(NO_SLOTS, []) == NO_SLOTS;
  }

  /** Every surplus release can let one more batch in: with `k` of them 2 + k run at once. With one, three do. */
  lemma SurplusLetsIn(k: nat)
    ensures exists s :: SlotReachable(s) && s.surplus == k && s.wiped == 0 && s.expired == 0
                        && |Holders(s.batches)| == MAX_CONCURRENT + k
  {
    CrowdReachable(k);
    assert Holders(Crowd(k).batches) == From(1, 3 + k);
  }

  /** DECR and the reset to 0 are two commands. Admissions that come in between are forgotten by the reset, so
      a single surplus release can let five batches run at once. */
  lemma ResetLetsInMore()
    ensures exists s :: SlotReachable(s) && s.surplus == 1 && s.wiped == 2 && s.expired == 0
                        && |Holders(s.batches)| == 5
  {
    hide SlotReachable, Holders;
    var full := BelowZero();
    SlotStepReaches(full, Floor(0));
    var reset := Slots(0, full.batches, map[], 1, 2, 0);
    assert SlotNext(full, Floor(0)) == reset;
    Admits(reset, 4);
    var four := reset.(counter := 1, batches := reset.batches[4 := Admitted]);
    Admits(four, 5);
    var five := four.(counter := 2, batches := four.batches[5 := Admitted]);
    assert Holders(five.batches) == From(1, 6) by { HoldersOfFive(five.batches); }
  }

  lemma HoldersOfFive(batches: map<nat, SlotPc>)
    requires batches == map[0 := Freed, 1 := Admitted, 2 := Admitted, 3 := Admitted, 4 := Admitted, 5 := Admitted]
    ensures Holders(batches) == From(1, 6)
  {
  }

  /** Batch 0 has released twice, the second time below zero; three batches are admitted before it resets. */
  lemma BelowZero() returns (s: Slots)
    ensures SlotReachable(s)
    ensures s == Slots(2, map[0 := Freed, 1 := Admitted, 2 := Admitted, 3 := Admitted], map[0 := -1], 1, 0, 0)
  {
    hide SlotReachable;
    assert SlotReachable(NO_SLOTS) by { Nothing(); }
    Admits(NO_SLOTS, 0);
    var one := Slots(1, map[0 := Admitted], map[], 0, 0, 0);
    Releases(one, 0);
    var freed := Slots(0, map[0 := Freed], map[], 0, 0, 0);
    assert freed.batches == one.batches[0 := Freed];
    SlotStepReaches(freed, Release(0, 0));
    var below := Slots(-1, map[0 := Freed], map[0 := -1], 1, 0, 0);
    assert SlotNext(freed, Release(0, 0)) == below;
    Admits(below, 1);
    var first := below.(counter := 0, batches := below.batches[1 := Admitted]);
    Admits(first, 2);
    var second := first.(counter := 1, batches := first.batches[2 := Admitted]);
    Admits(second, 3);
    s := second.(counter := 2, batches := second.batches[3 := Admitted]);
  }

  /** The key expires under two running batches, and two more are let in: the bound counts both. */
  lemma ExpiryLetsInMore()
    ensures exists s ::
              && SlotReachable(s) && s.surplus == 0 && s.wiped == 0 && s.expired == 2
              && |Holders(s.batches)| == MAX_CONCURRENT + 2
  {
    hide SlotReachable, Holders;
    assert SlotReachable(NO_SLOTS) by { Nothing(); }
    Admits(NO_SLOTS, 1);
    var one := Slots(1, map[1 := Admitted], map[], 0, 0, 0);
    Admits(one, 2);
    var two := one.(counter := 2, batches := one.batches[2 := Admitted]);
    SlotStepReaches(two, Expire);
    var expired := two.(counter := 0, expired := 2);
    assert SlotNext(two, Expire) == expired;
    Admits(expired, 3);
    var three := expired.(counter := 1, batches := expired.batches[3 := Admitted]);
    Admits(three, 4);
    var four := three.(counter := 2, batches := three.batches[4 := Admitted]);
    assert Holders(four.batches) == From(1, 5) by { HoldersOfFour(four.batches); }
  }

  lemma HoldersOfFour(batches: map<nat, SlotPc>)
    requires batches == map[1 := Admitted, 2 := Admitted, 3 := Admitted, 4 := Admitted]
    ensures Holders(batches) == From(1, 5)
  {
  }
}
