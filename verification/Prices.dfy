/** The unit-price history of one tenant: which price a month is billed at, and when prices may change. */
module Prices {
  import opened Basics

  /** A date as month number and day of the month. */
  datatype Date = Date(month: int, day: int) {
    predicate Before(other: Date) {
      month < other.month || (month == other.month && day < other.day)
    }
  }

  datatype PriceRow = PriceRow(key: string, price: int, start: Date)

  datatype PriceError = UnknownItem | NotFirstOfMonth | NotFuture

  const ITEM_KEYS: seq<string> := [
    "base_fee", "data_points", "retained_data_points", "retired_data_points",
    "retired_device_count", "device_count", "provisionable_devices", "alert_events",
    "export_base_fee", "export_retained_size_mb",
    "realtime_access_fee"
  ]

  function FirstDay(month: int): Date { Date(month, 1) }

  // ----- Reading the price of a month ----------------------------------------------------------------

  ghost predicate Applies(row: PriceRow, key: string, target: Date) {
    row.key == key && !target.Before(row.start)
  }

  /** The row in force for an item: none that applies starts later. */
  ghost predicate InForce(rows: seq<PriceRow>, key: string, target: Date, row: PriceRow) {
    && row in rows && Applies(row, key, target)
    && forall other :: other in rows && Applies(other, key, target) ==> !row.start.Before(other.start)
  }

  /** The table's UNIQUE constraint. */
  ghost predicate UniqueStarts(rows: seq<PriceRow>) {
    forall i, j :: 0 <= i < j < |rows| && rows[i].key == rows[j].key ==> rows[i].start != rows[j].start
  }

  /** What the database promises of the ordered query: the applicable rows, one item after the other, latest start first. */
  ghost predicate QueryAnswer(rows: seq<PriceRow>, target: Date, ordered: seq<PriceRow>) {
    && (forall r :: r in ordered <==> r in rows && !target.Before(r.start))
    && (forall i, j :: 0 <= i < j < |ordered| && ordered[i].key == ordered[j].key
                       ==> !ordered[i].start.Before(ordered[j].start))
  }

  method GetEffectiveUnitPrices(ghost rows: seq<PriceRow>, month: int, ordered: seq<PriceRow>)
    returns (result: map<string, int>)
    requires QueryAnswer(rows, FirstDay(month), ordered)
    ensures forall k :: k in result ==> exists r :: InForce(rows, k, FirstDay(month), r) && result[k] == r.price
    ensures forall r :: r in rows && Applies(r, r.key, FirstDay(month)) ==> r.key in result
  {
    result := map[];
    for i := 0 to |ordered|
      invariant forall k :: k in result ==>
                  exists j :: 0 <= j < i && ordered[j].key == k && result[k] == ordered[j].price
                              && forall h :: 0 <= h < j ==> ordered[h].key != k
      invariant forall j :: 0 <= j < i ==> ordered[j].key in result
    {
      if ordered[i].key !in result {
        result := result[ordered[i].key := ordered[i].price];
      }
    }
    forall k | k in result
      ensures exists r :: InForce(rows, k, FirstDay(month), r) && result[k] == r.price
    {
      var j :| 0 <= j < |ordered| && ordered[j].key == k && result[k] == ordered[j].price
               && forall h :: 0 <= h < j ==> ordered[h].key != k;
      FirstIsInForce(rows, FirstDay(month), ordered, j);
    }
  }

  lemma FirstIsInForce(rows: seq<PriceRow>, target: Date, ordered: seq<PriceRow>, j: nat)
    requires QueryAnswer(rows, target, ordered) && j < |ordered|
    requires forall h :: 0 <= h < j ==> ordered[h].key != ordered[j].key
    ensures InForce(rows, ordered[j].key, target, ordered[j])
  {
    assert ordered[j] in ordered;
    forall other | other in rows && Applies(other, ordered[j].key, target)
      ensures !ordered[j].start.Before(other.start)
    {
      assert other in ordered;
      var i :| 0 <= i < |ordered| && ordered[i] == other;
    }
  }

  /** With unique starts there is one row in force at most, so "the price of a month" is well defined. */
  lemma InForceIsUnique(rows: seq<PriceRow>, key: string, target: Date, a: PriceRow, b: PriceRow)
    requires UniqueStarts(rows) && InForce(rows, key, target, a) && InForce(rows, key, target, b)
    ensures a == b
  {
    var i :| 0 <= i < |rows| && rows[i] == a;
    var j :| 0 <= j < |rows| && rows[j] == b;
    assert a.start == b.start;
  }

  // ----- Changing prices -----------------------------------------------------------------------------

  datatype PriceChange = PriceChange(key: string, price: int, start: Date, today: Date)

  function Refusal(c: PriceChange): Option<PriceError> {
    if c.key !in ITEM_KEYS then Some(UnknownItem)
    else if c.start.day != 1 then Some(NotFirstOfMonth)
    else if !FirstDay(c.today.month).Before(c.start) then Some(NotFuture)
    else None
  }

  function Find(rows: seq<PriceRow>, key: string, start: Date): (i: nat)
    ensures i <= |rows|
    ensures i < |rows| ==> rows[i].key == key && rows[i].start == start
    ensures forall j :: 0 <= j < i ==> rows[j].key != key || rows[j].start != start
  {
    if rows == [] || (rows[0].key == key && rows[0].start == start) then 0
    else 1 + Find(rows[1..], key, start)
  }

  /** The table after a price change: refused, an existing row overwritten, or a row added. */
  function AfterChange(rows: seq<PriceRow>, c: PriceChange): seq<PriceRow> {
    if Refusal(c).Some? then rows
    else
      var i := Find(rows, c.key, c.start);
      if i < |rows| then rows[i := rows[i].(price := c.price)]
      else rows + [PriceRow(c.key, c.price, c.start)]
  }

  class PriceBook {
    var rows: seq<PriceRow>

    constructor ()
      ensures rows == []
    {
      rows := [];
    }

    method SetUnitPrice(key: string, price: int, start: Date, today: Date) returns (refusal: Option<PriceError>)
      requires UniqueStarts(rows)
      modifies this
      ensures UniqueStarts(rows)
      ensures rows == AfterChange(old(rows), PriceChange(key, price, start, today))
      ensures refusal.None? <==> key in ITEM_KEYS && start.day == 1 && today.month < start.month
      ensures refusal.Some? ==> rows == old(rows)
      ensures refusal.None? ==> PriceRow(key, price, start) in rows
    {
      if key !in ITEM_KEYS { return Some(UnknownItem); }
      if start.day != 1 { return Some(NotFirstOfMonth); }
      if !FirstDay(today.month).Before(start) { return Some(NotFuture); }
      var i := 0;
      while i < |rows| && !(rows[i].key == key && rows[i].start == start)
        invariant 0 <= i <= |rows| && rows == old(rows)
        invariant forall j :: 0 <= j < i ==> rows[j].key != key || rows[j].start != start
      {
        i := i + 1;
      }
      if i < |rows| {
        rows := rows[i := rows[i].(price := price)];
        assert rows[i] == PriceRow(key, price, start);
      } else {
        rows := rows + [PriceRow(key, price, start)];
        assert rows[|rows| - 1] == PriceRow(key, price, start);
      }
      refusal := None;
    }
  }

  /** A change made today reaches no month up to and including the current one: the rows in force there stay the same rows. */
  lemma ChangeSparesThePast(rows: seq<PriceRow>, c: PriceChange, month: int, key: string, r: PriceRow)
    requires month <= c.today.month
    ensures InForce(rows, key, FirstDay(month), r) <==> InForce(AfterChange(rows, c), key, FirstDay(month), r)
  {
    var rows' := AfterChange(rows, c);
    forall x | Applies(x, key, FirstDay(month))
      ensures x in rows <==> x in rows'
    {
      if Refusal(c).None? {
        var i := Find(rows, c.key, c.start);
        if x in rows {
          var j :| 0 <= j < |rows| && rows[j] == x;
          assert rows'[j] == x;
        }
        if x in rows' {
          var j :| 0 <= j < |rows'| && rows'[j] == x;
          assert j < |rows| && rows[j] == x;
        }
      }
    }
  }

  function AfterChanges(rows: seq<PriceRow>, changes: seq<PriceChange>): seq<PriceRow>
    decreases |changes|
  {
    if changes == [] then rows else AfterChanges(AfterChange(rows, changes[0]), changes[1..])
  }

  /** Price history is never rewritten: once a month has begun, no sequence of later changes alters what it is billed at. */
  lemma {:induction false} PastPricesAreFrozen(rows: seq<PriceRow>, changes: seq<PriceChange>, month: int, key: string, r: PriceRow)
    requires forall i :: 0 <= i < |changes| ==> month <= changes[i].today.month
    ensures InForce(rows, key, FirstDay(month), r) <==> InForce(AfterChanges(rows, changes), key, FirstDay(month), r)
    decreases |changes|
  {
    if changes == [] {
    } else {
      ChangeSparesThePast(rows, changes[0], month, key, r);
      PastPricesAreFrozen(AfterChange(rows, changes[0]), changes[1..], month, key, r);
    }
  }

  /**
   An accepted change does take effect: from the month it names on, until another row of the item starts,
   the new price is the one in force. The rows of every other item are left alone.
   */
  lemma ChangeTakesEffect(rows: seq<PriceRow>, c: PriceChange, month: int)
    requires UniqueStarts(rows) && Refusal(c).None? && c.start.month <= month
    requires forall r :: r in rows && Applies(r, c.key, FirstDay(month)) ==> !c.start.Before(r.start)
    ensures InForce(AfterChange(rows, c), c.key, FirstDay(month), PriceRow(c.key, c.price, c.start))
    ensures forall r: PriceRow :: r.key != c.key ==> (r in rows <==> r in AfterChange(rows, c))
  {
    var rows' := AfterChange(rows, c);
    var i := Find(rows, c.key, c.start);
    var mine := PriceRow(c.key, c.price, c.start);
    assert rows'[i] == mine;
    forall r | r in rows' && Applies(r, c.key, FirstDay(month))
      ensures !mine.start.Before(r.start)
    {
      var j :| 0 <= j < |rows'| && rows'[j] == r;
      if j != i { assert rows[j] == r; }
    }
    forall r: PriceRow | r.key != c.key
      ensures r in rows <==> r in rows'
    {
      if r in rows { var j :| 0 <= j < |rows| && rows[j] == r; assert rows'[j] == r; }
      if r in rows' { var j :| 0 <= j < |rows'| && rows'[j] == r; assert rows[j] == r; }
    }
  }
}
