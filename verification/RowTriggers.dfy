/** What the triggers on `shipment` guarantee against every writer, the modelled services or not: over any
    sequence of UPDATEs that they let through, and what exactly they refuse. */
module RowTriggers {
  import opened Wrappers
  import opened BookingSnapshot
  import opened ShipmentRows

  /** Each row follows from the one before by an UPDATE that guard_shipment_row lets through. */
  ghost predicate Passes(rows: seq<Shipment>) {
    forall i {:trigger rows[i + 1]} :: 0 <= i < |rows| - 1 ==> UpdatePlain(rows[i], rows[i + 1]) == Row(rows[i + 1])
  }

  /** The row guard refuses an UPDATE if and only if it changes the snapshot outside DRAFT to QUEUED, turns
      is_test off, turns it on outside a confirmation, or changes working values in a row that is then not in
      draft. The collectible guard comes first, and refuses exactly a positive amount beside another carrier. */
  lemma RefusesExactly(before: Shipment, after: Shipment, otherCarrier: bool)
    ensures UpdatePlain(before, after) == Raised(RowGuard) <==>
            || (before.snapshot != after.snapshot && (before.state != Draft || after.state != Queued))
            || (before.isTest && !after.isTest)
            || (!before.isTest && after.isTest && after.state != Confirmed)
            || (before.workingValues != after.workingValues && after.state !in {Draft, NeedsManualAssignment})
    ensures UpdatePlain(before, after) in {Row(after), Raised(RowGuard)}
    ensures UpdateGuarded(before, after, otherCarrier)
            == if after.collectible > 0 && otherCarrier then Raised(CollectibleGuard) else UpdatePlain(before, after)
  {
  }

  lemma PassesFront(rows: seq<Shipment>)
    requires Passes(rows) && |rows| > 1
    ensures Passes(rows[..|rows| - 1])
    ensures UpdatePlain(rows[|rows| - 2], rows[|rows| - 1]) == Row(rows[|rows| - 1])
  {
    hide UpdatePlain;
    var i := |rows| - 2;
    assert rows[i + 1] == rows[|rows| - 1];
  }

  /** Whoever writes: a test shipment stays one, and only a confirmation makes one; the snapshot of a row differs
      from an earlier one only if a booking was queued from DRAFT in between; working values only if the row was
      in draft in between. */
  lemma {:induction false} AnyWriter(rows: seq<Shipment>)
    requires Passes(rows) && rows != []
    ensures var first, last := rows[0], rows[|rows| - 1];
            && (first.isTest ==> last.isTest)
            && (!first.isTest && last.isTest ==>
                  exists i :: 0 < i < |rows| && rows[i].state == Confirmed && rows[i].isTest && !rows[i - 1].isTest)
            && (first.snapshot != last.snapshot ==>
                  exists i :: 0 < i < |rows| && rows[i - 1].state == Draft && rows[i].state == Queued)
            && (first.workingValues != last.workingValues ==>
                  exists i :: 0 < i < |rows| && rows[i].state in {Draft, NeedsManualAssignment})
  {
    if |rows| > 1 {
      PassesFront(rows);
      var front := rows[..|rows| - 1];
      AnyWriter(front);
      assert forall i :: 0 <= i < |front| ==> front[i] == rows[i];
      RefusesExactly(rows[|rows| - 2], rows[|rows| - 1], false);
      hide UpdatePlain;
    }
  }
}
