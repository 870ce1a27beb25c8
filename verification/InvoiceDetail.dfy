/** The lines of a month on its invoice page: each item once, with its totals over the month's rows, in the items' order. */
module InvoiceDetail {
  import opened Basics
  import opened Billing
  import opened Ledger
  import LedgerMoney
  import Prices

  /** The unit price of the latest line about an item. */
  function PriceIn(lines: seq<Line>, key: string): Option<int> {
    if lines == [] then None
    else
      var last := lines[|lines| - 1];
      if last.key == key then Some(last.unitPrice) else PriceIn(lines[..|lines| - 1], key)
  }

  function ItemPrice(rows: Rows, m: int, key: string): Option<int> {
    if rows == [] then None
    else
      var r := rows[|rows| - 1];
      if r.month == m && PriceIn(r.lines, key).Some? then PriceIn(r.lines, key) else ItemPrice(rows[..|rows| - 1], m, key)
  }

  /** The latest line of the item in the latest row of the month that has one. */
  ghost predicate LatestLine(rows: Rows, m: int, key: string, i: int, k: int) {
    && 0 <= i < |rows| && rows[i].month == m && 0 <= k < |rows[i].lines| && rows[i].lines[k].key == key
    && (forall l :: k < l < |rows[i].lines| ==> rows[i].lines[l].key != key)
    && (forall j, l :: i < j < |rows| && rows[j].month == m && 0 <= l < |rows[j].lines| ==> rows[j].lines[l].key != key)
  }

  lemma {:induction false} PriceInSays(lines: seq<Line>, key: string) returns (k: int)
    ensures PriceIn(lines, key).None? ==> k == -1
    ensures PriceIn(lines, key).Some? ==> 0 <= k < |lines| && lines[k].key == key && PriceIn(lines, key) == Some(lines[k].unitPrice)
    ensures forall l :: k < l < |lines| ==> lines[l].key != key
  {
    if lines == [] {
      k := -1;
    } else if lines[|lines| - 1].key == key {
      k := |lines| - 1;
    } else {
      k := PriceInSays(lines[..|lines| - 1], key);
    }
  }

  /** The unit price shown is that line's, and none is when no row of the month has a line of the item. */
  lemma {:induction false} PriceIsTheLatest(rows: Rows, m: int, key: string) returns (i: int, k: int)
    ensures ItemPrice(rows, m, key).Some? ==> LatestLine(rows, m, key, i, k) && ItemPrice(rows, m, key) == Some(rows[i].lines[k].unitPrice)
    ensures ItemPrice(rows, m, key).None? ==> forall j, l :: 0 <= j < |rows| && rows[j].month == m && 0 <= l < |rows[j].lines| ==> rows[j].lines[l].key != key
  {
    hide PriceIn;
    i, k := -1, -1;
    if rows != [] {
      var n := |rows| - 1;
      k := PriceInSays(rows[n].lines, key);
      if rows[n].month == m && PriceIn(rows[n].lines, key).Some? {
        i := n;
      } else {
        i, k := PriceIsTheLatest(rows[..n], m, key);
        if ItemPrice(rows, m, key).Some? { assert rows[..n][i] == rows[i]; }
      }
    }
  }

  /** What the page says of an item: its totals over the month's rows and its latest unit price; nothing when no row has it. */
  function Entry(rows: Rows, m: int, key: string): (found: Option<Line>)
    ensures found.Some? ==> found.value.key == key
  {
    match ItemPrice(rows, m, key)
    case None => None
    case Some(price) => Some(Line(key, ItemQuantity(rows, m, key), price, ItemAmount(rows, m, key)))
  }

  function Find(items: map<string, Line>, key: string): Option<Line> {
    if key in items then Some(items[key]) else None
  }

  /** One more line of the item the entry is about. */
  function Plus(found: Option<Line>, line: Line): Line {
    match found
    case None => line
    case Some(sum) => Line(line.key, sum.quantity + line.quantity, line.unitPrice, sum.amount + line.amount)
  }

  function Taken(found: Option<Line>, lines: seq<Line>, key: string): Option<Line> {
    if lines == [] then found
    else
      var before, last := Taken(found, lines[..|lines| - 1], key), lines[|lines| - 1];
      if last.key == key then Some(Plus(before, last)) else before
  }

  lemma {:induction false} TakenSums(found: Option<Line>, lines: seq<Line>, key: string)
    ensures PriceIn(lines, key).None? ==> QuantityIn(lines, key) == 0 && AmountIn(lines, key) == 0
    ensures Taken(found, lines, key)
         == match PriceIn(lines, key)
            case None => found
            case Some(price) => Some(Plus(found, Line(key, QuantityIn(lines, key), price, AmountIn(lines, key))))
  {
    if lines != [] { TakenSums(found, lines[..|lines| - 1], key); }
  }

  lemma {:induction false} NoPriceNoTotal(rows: Rows, m: int, key: string)
    requires ItemPrice(rows, m, key).None?
    ensures ItemQuantity(rows, m, key) == 0 && ItemAmount(rows, m, key) == 0
  {
    if rows != [] {
      TakenSums(None, rows[|rows| - 1].lines, key);
      NoPriceNoTotal(rows[..|rows| - 1], m, key);
    }
  }

  /** A row's lines join the entries of its month. */
  lemma EntryTakes(rows: Rows, i: nat, m: int, key: string)
    requires i < |rows|
    ensures Entry(rows[..i + 1], m, key)
         == if rows[i].month == m then Taken(Entry(rows[..i], m, key), rows[i].lines, key) else Entry(rows[..i], m, key)
  {
    assert rows[..i + 1][..i] == rows[..i];
    TakenSums(Entry(rows[..i], m, key), rows[i].lines, key);
    if ItemPrice(rows[..i], m, key).None? { NoPriceNoTotal(rows[..i], m, key); }
  }

  /** Accumulating one row's lines. */
  method AddLines(items: map<string, Line>, lines: seq<Line>) returns (sum: map<string, Line>)
    ensures forall key :: Find(sum, key) == Taken(Find(items, key), lines, key)
  {
    sum := items;
    for i := 0 to |lines|
      invariant forall key :: Find(sum, key) == Taken(Find(items, key), lines[..i], key)
    {
      assert lines[..i + 1][..i] == lines[..i];
      sum := sum[lines[i].key := Plus(Find(sum, lines[i].key), lines[i])];
    }
    assert lines[..|lines|] == lines;
  }

  /** Where an item stands among the eleven; any other key comes after them. */
  function Rank(key: string): (k: nat)
    ensures k <= |Prices.ITEM_KEYS| && (k < |Prices.ITEM_KEYS| <==> key in Prices.ITEM_KEYS)
    ensures k < |Prices.ITEM_KEYS| ==> Prices.ITEM_KEYS[k] == key
  {
    RankFrom(key, 0)
  }

  function RankFrom(key: string, from: nat): (k: nat)
    requires from <= |Prices.ITEM_KEYS| && forall j :: 0 <= j < from ==> Prices.ITEM_KEYS[j] != key
    ensures k <= |Prices.ITEM_KEYS| && (k < |Prices.ITEM_KEYS| <==> key in Prices.ITEM_KEYS)
    ensures k < |Prices.ITEM_KEYS| ==> Prices.ITEM_KEYS[k] == key
    decreases |Prices.ITEM_KEYS| - from
  {
    if from == |Prices.ITEM_KEYS| || Prices.ITEM_KEYS[from] == key then from else RankFrom(key, from + 1)
  }

  lemma RankOfKey(k: nat)
    requires k < |Prices.ITEM_KEYS|
    ensures Rank(Prices.ITEM_KEYS[k]) == k
  {
    var r := Rank(Prices.ITEM_KEYS[k]);
    if r < k { LedgerMoney.KeysDiffer(r, k); } else if k < r { LedgerMoney.KeysDiffer(k, r); }
  }

  /** No item twice, and in the order of the eleven. */
  ghost predicate Ordered(lines: seq<Line>) {
    forall i, j :: 0 <= i < j < |lines| ==> lines[i].key != lines[j].key && Rank(lines[i].key) <= Rank(lines[j].key)
  }

  /** The entries of the eleven items, in their order. */
  method KnownInOrder(items: map<string, Line>) returns (lines: seq<Line>)
    requires forall key :: key in items ==> items[key].key == key
    ensures Ordered(lines)
    ensures forall line :: line in lines <==> Find(items, line.key) == Some(line) && Rank(line.key) < |Prices.ITEM_KEYS|
  {
    hide Rank;
    lines := [];
    for k := 0 to |Prices.ITEM_KEYS|
      invariant Ordered(lines)
      invariant forall line :: line in lines <==> Find(items, line.key) == Some(line) && Rank(line.key) < k
    {
      RankOfKey(k);
      var key := Prices.ITEM_KEYS[k];
      if key in items { lines := lines + [items[key]]; }
    }
  }

  /** The entries as the page lists them. */
  method InOrder(items: map<string, Line>) returns (lines: seq<Line>)
    requires forall key :: key in items ==> items[key].key == key
    ensures Ordered(lines)
    ensures forall line :: line in lines <==> Find(items, line.key) == Some(line)
  {
    hide Rank;
    lines := KnownInOrder(items);
    var others := set key | key in items && key !in Prices.ITEM_KEYS;
    while others != {}
      invariant Ordered(lines)
      invariant forall key :: key in others ==> key in items && Rank(key) == |Prices.ITEM_KEYS|
      invariant forall line :: line in lines <==> Find(items, line.key) == Some(line) && line.key !in others
      decreases |others|
    {
      var key :| key in others;
      lines := lines + [items[key]];
      others := others - {key};
    }
  }
}
