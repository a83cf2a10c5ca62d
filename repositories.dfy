/** The persistence store behind the services (src/inventory/services.py, lines 6-146),
    modelled on maps and sequences instead of SQLite tables. */
module Repositories {
  import opened Models

  /** Every product record sits under its own barcode, the table's primary key. */
  ghost predicate Keyed(products: map<string, ProductRecord>) {
    forall b :: b in products ==> products[b].barcode == b
  }

  /** Every history entry is filed under the barcode it names. */
  ghost predicate HistoryKeyed(history: map<string, seq<PriceEntry>>) {
    forall b, k :: b in history && 0 <= k < |history[b]| ==> history[b][k].barcode == b
  }

  /** The entries stored for `barcode`, oldest first (insertion order). */
  function StoredHistory(history: map<string, seq<PriceEntry>>, barcode: string): seq<PriceEntry> {
    if barcode in history then history[barcode] else []
  }

  /** The history after inserting one more row. */
  function Appended(history: map<string, seq<PriceEntry>>, e: PriceEntry): map<string, seq<PriceEntry>> {
    history[e.barcode := StoredHistory(history, e.barcode) + [e]]
  }

  /** The entries in the opposite order: the newest row first. */
  function NewestFirst(entries: seq<PriceEntry>): (r: seq<PriceEntry>)
    ensures |r| == |entries|
    ensures forall k :: 0 <= k < |r| ==> r[k] == entries[|entries| - 1 - k]
    decreases |entries|
  {
    if entries == [] then []
    else [entries[|entries| - 1]] + NewestFirst(entries[..|entries| - 1])
  }

  /** When rows were inserted with a clock that never runs backwards, reading them newest
      first gives them in descending timestamp order, as the history query promises. */
  lemma NewestFirstDescending(entries: seq<PriceEntry>)
    requires forall j, k :: 0 <= j < k < |entries| ==> entries[j].timestamp <= entries[k].timestamp
    ensures forall j, k :: 0 <= j < k < |entries| ==> NewestFirst(entries)[j].timestamp >= NewestFirst(entries)[k].timestamp
  {
  }

  predicate StartsWith(s: string, prefix: string) {
    |prefix| <= |s| && s[..|prefix|] == prefix
  }

  /** `fragment` occurs somewhere in `s` (case-sensitive, no wildcards). */
  predicate Contains(s: string, fragment: string)
    decreases |s|
  {
    StartsWith(s, fragment) || (s != [] && Contains(s[1..], fragment))
  }

  /** Products and their price history, keyed by barcode. */
  class InventoryRepository {
    var products: map<string, ProductRecord>
    var history: map<string, seq<PriceEntry>>

    ghost predicate Valid()
      reads this
    {
      Keyed(products) && HistoryKeyed(history)
    }

    /** Opens a store holding the given rows. */
    constructor (products: map<string, ProductRecord>, history: map<string, seq<PriceEntry>>)
      requires Keyed(products) && HistoryKeyed(history)
      ensures Valid() && this.products == products && this.history == history
    {
      this.products := products;
      this.history := history;
    }

    /** Upsert: the record under `p.barcode` becomes `p`; nothing else changes. */
    method SaveProduct(p: ProductRecord)
      requires Valid()
      modifies this
      ensures Valid()
      ensures products == old(products)[p.barcode := p] && history == old(history)
    {
      products := products[p.barcode := p];
    }

    /** Inserts one history row; rows are never replaced or removed. */
    method SavePriceHistory(e: PriceEntry)
      requires Valid()
      modifies this
      ensures Valid()
      ensures history == Appended(old(history), e) && products == old(products)
    {
      history := Appended(history, e);
    }

    /** The history of `barcode`: exactly its stored entries, the newest one first. */
    function PriceHistory(barcode: string): (h: seq<PriceEntry>)
      reads this
      ensures |h| == |StoredHistory(history, barcode)|
      ensures forall k :: 0 <= k < |h| ==> h[k] == StoredHistory(history, barcode)[|h| - 1 - k]
      ensures HistoryKeyed(history) ==> forall k :: 0 <= k < |h| ==> h[k].barcode == barcode
    {
      NewestFirst(StoredHistory(history, barcode))
    }

    /** A fresh product object built from the stored row, with its history attached,
        or null when no row has that barcode. */
    method GetProductByBarcode(barcode: string) returns (p: Product?)
      ensures p != null <==> barcode in products
      ensures p != null ==> fresh(p) && p.Record() == products[barcode] && p.priceHistory == PriceHistory(barcode)
    {
      if barcode in products {
        p := new Product(products[barcode], PriceHistory(barcode));
      } else {
        p := null;
      }
    }

    /** A fresh product object, with its history attached, for every stored row that
        `matches` accepts, each barcode once, in no particular order: one SELECT. */
    method ProductsWhere(matches: ProductRecord -> bool) returns (ps: seq<Product>)
      requires Valid()
      ensures forall k :: 0 <= k < |ps| ==>
        && fresh(ps[k]) && ps[k].barcode in products && matches(products[ps[k].barcode])
        && ps[k].Record() == products[ps[k].barcode] && ps[k].priceHistory == PriceHistory(ps[k].barcode)
      ensures forall b :: b in products && matches(products[b]) ==> exists k :: 0 <= k < |ps| && ps[k].barcode == b
      ensures forall j, k :: 0 <= j < k < |ps| ==> ps[j].barcode != ps[k].barcode
    {
      ps := [];
      ghost var taken: seq<string> := [];
      var remaining := products.Keys;
      while remaining != {}
        invariant remaining <= products.Keys
        invariant |taken| == |ps|
        invariant forall k :: 0 <= k < |ps| ==>
          && fresh(ps[k]) && ps[k].barcode == taken[k] && taken[k] in products && taken[k] !in remaining
          && matches(products[taken[k]]) && ps[k].Record() == products[taken[k]] && ps[k].priceHistory == PriceHistory(taken[k])
        invariant forall b :: b in products && b !in remaining && matches(products[b]) ==> b in taken
        invariant forall j, k :: 0 <= j < k < |ps| ==> taken[j] != taken[k]
        decreases remaining
      {
        var b :| b in remaining;
        if matches(products[b]) {
          var p := new Product(products[b], PriceHistory(b));
          ps, taken := ps + [p], taken + [b];
        }
        remaining := remaining - {b};
      }
      forall b | b in products && matches(products[b]) ensures exists k :: 0 <= k < |ps| && ps[k].barcode == b {
        var k :| 0 <= k < |taken| && taken[k] == b;
        assert ps[k].barcode == b;
      }
    }

    /** `get_all_products`: every stored product. */
    method GetAllProducts() returns (ps: seq<Product>)
      requires Valid()
      ensures forall k :: 0 <= k < |ps| ==>
        && fresh(ps[k]) && ps[k].barcode in products
        && ps[k].Record() == products[ps[k].barcode] && ps[k].priceHistory == PriceHistory(ps[k].barcode)
      ensures forall b :: b in products ==> exists k :: 0 <= k < |ps| && ps[k].barcode == b
      ensures forall j, k :: 0 <= j < k < |ps| ==> ps[j].barcode != ps[k].barcode
    {
      ps := ProductsWhere((_: ProductRecord) => true);
    }

    /** `get_products_by_name`: the stored products whose name contains `fragment`. */
    method GetProductsByName(fragment: string) returns (ps: seq<Product>)
      requires Valid()
      ensures forall k :: 0 <= k < |ps| ==>
        && fresh(ps[k]) && ps[k].barcode in products && Contains(ps[k].name, fragment)
        && ps[k].Record() == products[ps[k].barcode] && ps[k].priceHistory == PriceHistory(ps[k].barcode)
      ensures forall b :: b in products && Contains(products[b].name, fragment) ==>
        exists k :: 0 <= k < |ps| && ps[k].barcode == b
      ensures forall j, k :: 0 <= j < k < |ps| ==> ps[j].barcode != ps[k].barcode
    {
      ps := ProductsWhere((r: ProductRecord) => Contains(r.name, fragment));
    }
  }

  /** One persisted line of a sale (a row of the sale_items table). */
  datatype SaleLine = SaleLine(barcode: string, quantity: int, unitPrice: real)

  /** One persisted sale: the header row and its lines. */
  datatype SaleRecord = SaleRecord(id: int, clientId: string, timestamp: int, lines: seq<SaleLine>)

  /** One row of the sales summary. */
  datatype SummaryRow = SummaryRow(
    saleId: int, clientId: string, timestamp: int,
    barcode: string, quantity: int, unitPrice: real, total: real)

  function LineOf(item: SaleItem): SaleLine {
    SaleLine(item.product.barcode, item.quantity, item.unitPrice)
  }

  /** The lines `save_sale` writes for the items, in order. */
  function LinesOf(items: seq<SaleItem>): (lines: seq<SaleLine>)
    ensures |lines| == |items|
    ensures forall k :: 0 <= k < |items| ==> lines[k] == LineOf(items[k])
    decreases |items|
  {
    if items == [] then [] else LinesOf(items[..|items| - 1]) + [LineOf(items[|items| - 1])]
  }

  function RowOf(s: SaleRecord, line: SaleLine): SummaryRow {
    SummaryRow(s.id, s.clientId, s.timestamp, line.barcode, line.quantity, line.unitPrice,
               line.quantity as real * line.unitPrice)
  }

  /** The summary rows of `lines`, all belonging to the sale `s`. */
  function Rows(s: SaleRecord, lines: seq<SaleLine>): (rows: seq<SummaryRow>)
    ensures |rows| == |lines|
    ensures forall k :: 0 <= k < |lines| ==> rows[k] == RowOf(s, lines[k])
    decreases |lines|
  {
    if lines == [] then [] else Rows(s, lines[..|lines| - 1]) + [RowOf(s, lines[|lines| - 1])]
  }

  /** One row per line of every sale whose timestamp lies in [start, end], sales in the
      order they were saved. Every row carries its line total. */
  function Summary(sales: seq<SaleRecord>, start: int, end: int): seq<SummaryRow>
    decreases |sales|
  {
    if sales == [] then []
    else
      var last := sales[|sales| - 1];
      Summary(sales[..|sales| - 1], start, end) + (if start <= last.timestamp <= end then Rows(last, last.lines) else [])
  }

  /** Every summary row belongs to a sale whose timestamp lies in [start, end], and carries
      its line total. */
  lemma {:induction false} SummaryInRange(sales: seq<SaleRecord>, start: int, end: int)
    ensures forall k :: 0 <= k < |Summary(sales, start, end)| ==>
      && start <= Summary(sales, start, end)[k].timestamp <= end
      && Summary(sales, start, end)[k].total == Summary(sales, start, end)[k].quantity as real * Summary(sales, start, end)[k].unitPrice
    decreases |sales|
  {
    if sales != [] {
      SummaryInRange(sales[..|sales| - 1], start, end);
    }
  }

  /** When sales were saved with a clock that never runs backwards, the summary comes out
      in ascending timestamp order, as its query asks. */
  lemma {:induction false} SummaryAscending(sales: seq<SaleRecord>, start: int, end: int)
    requires forall j, k :: 0 <= j < k < |sales| ==> sales[j].timestamp <= sales[k].timestamp
    ensures forall j, k :: 0 <= j < k < |Summary(sales, start, end)| ==>
      Summary(sales, start, end)[j].timestamp <= Summary(sales, start, end)[k].timestamp
    ensures sales != [] ==> forall k :: 0 <= k < |Summary(sales, start, end)| ==>
      Summary(sales, start, end)[k].timestamp <= sales[|sales| - 1].timestamp
    decreases |sales|
  {
    if sales != [] {
      var n := |sales| - 1;
      var init := sales[..n];
      SummaryAscending(init, start, end);
      SummaryBoundedBy(init, start, end, sales[n].timestamp);
    }
  }

  /** Every summary row of sales no later than `t` is no later than `t`. */
  lemma {:induction false} SummaryBoundedBy(sales: seq<SaleRecord>, start: int, end: int, t: int)
    requires forall k :: 0 <= k < |sales| ==> sales[k].timestamp <= t
    ensures forall k :: 0 <= k < |Summary(sales, start, end)| ==> Summary(sales, start, end)[k].timestamp <= t
    decreases |sales|
  {
    if sales != [] {
      SummaryBoundedBy(sales[..|sales| - 1], start, end, t);
    }
  }

  function SumRowTotals(rows: seq<SummaryRow>): real
    decreases |rows|
  {
    if rows == [] then 0.0 else SumRowTotals(rows[..|rows| - 1]) + rows[|rows| - 1].total
  }

  /** The rows of a saved sale add up to the sale's total. */
  lemma {:induction false} RowsTotalIsSaleTotal(s: SaleRecord, items: seq<SaleItem>)
    ensures |Rows(s, LinesOf(items))| == |items|
    ensures SumRowTotals(Rows(s, LinesOf(items))) == SumTotals(items)
    decreases |items|
  {
    if items != [] {
      var n := |items| - 1;
      RowsTotalIsSaleTotal(s, items[..n]);
      assert LinesOf(items)[..n] == LinesOf(items[..n]);
      assert Rows(s, LinesOf(items))[..n] == Rows(s, LinesOf(items[..n]));
    }
  }

  /** The summary after saving one more sale: the earlier rows, then that sale's rows when
      its timestamp lies in [start, end]. */
  lemma SummaryAppend(sales: seq<SaleRecord>, rec: SaleRecord, start: int, end: int)
    ensures Summary(sales + [rec], start, end) ==
      Summary(sales, start, end) + (if start <= rec.timestamp <= end then Rows(rec, rec.lines) else [])
  {
    assert (sales + [rec])[..|sales|] == sales;
  }

  /** Saving a sale within the range puts the summary row of its line k right after the
      rows already there, at offset k. */
  lemma SavedSaleRow(sales: seq<SaleRecord>, id: int, clientId: string, timestamp: int,
                     items: seq<SaleItem>, start: int, end: int, k: int)
    requires start <= timestamp <= end
    requires 0 <= k < |items|
    ensures var rec := SaleRecord(id, clientId, timestamp, LinesOf(items));
      && |Summary(sales + [rec], start, end)| == |Summary(sales, start, end)| + |items|
      && Summary(sales + [rec], start, end)[|Summary(sales, start, end)| + k] == RowOf(rec, LineOf(items[k]))
  {
    var rec := SaleRecord(id, clientId, timestamp, LinesOf(items));
    SummaryAppend(sales, rec, start, end);
    var before := Summary(sales, start, end);
    var rows := Rows(rec, rec.lines);
    var after := Summary(sales + [rec], start, end);
    assert after == before + rows;
    assert |rows| == |items|;
    assert rec.lines[k] == LineOf(items[k]);
    assert after[|before| + k] == rows[k] == RowOf(rec, LineOf(items[k]));
  }

  /** Saving one more sale keeps the rows already in the summary, and adds none when the
      sale's timestamp lies outside [start, end]. */
  lemma SavedSaleKeepsRows(sales: seq<SaleRecord>, rec: SaleRecord, start: int, end: int)
    ensures Summary(sales, start, end) <= Summary(sales + [rec], start, end)
    ensures !(start <= rec.timestamp <= end) ==> Summary(sales + [rec], start, end) == Summary(sales, start, end)
  {
    SummaryAppend(sales, rec, start, end);
  }

  /** The rows a saved sale within the range adds come to the sale's total. */
  lemma SavedSaleTotal(sales: seq<SaleRecord>, id: int, clientId: string, timestamp: int,
                       items: seq<SaleItem>, start: int, end: int)
    requires start <= timestamp <= end
    ensures var rec := SaleRecord(id, clientId, timestamp, LinesOf(items));
      && |Summary(sales + [rec], start, end)| == |Summary(sales, start, end)| + |items|
      && SumRowTotals(Summary(sales + [rec], start, end)[|Summary(sales, start, end)|..]) == SumTotals(items)
  {
    var rec := SaleRecord(id, clientId, timestamp, LinesOf(items));
    SummaryAppend(sales, rec, start, end);
    RowsTotalIsSaleTotal(rec, items);
    var before := Summary(sales, start, end);
    assert (before + Rows(rec, LinesOf(items)))[|before|..] == Rows(rec, LinesOf(items));
  }

  /** Saving a sale within the range adds, after the rows already there, one row per line
      with the sale's id and the line's barcode, quantity and unit price. */
  lemma SavedSaleRows(sales: seq<SaleRecord>, id: int, clientId: string, timestamp: int,
                      items: seq<SaleItem>, start: int, end: int)
    requires start <= timestamp <= end
    ensures var before := Summary(sales, start, end);
      var after := Summary(sales + [SaleRecord(id, clientId, timestamp, LinesOf(items))], start, end);
      forall k :: 0 <= k < |items| ==>
        && after[|before| + k].saleId == id
        && after[|before| + k].barcode == items[k].product.barcode
        && after[|before| + k].quantity == items[k].quantity
        && after[|before| + k].unitPrice == items[k].unitPrice
  {
    var rec := SaleRecord(id, clientId, timestamp, LinesOf(items));
    forall k | 0 <= k < |items|
      ensures Summary(sales + [rec], start, end)[|Summary(sales, start, end)| + k] == RowOf(rec, LineOf(items[k]))
    {
      SavedSaleRow(sales, id, clientId, timestamp, items, start, end, k);
    }
  }

  /** Saving one more sale with a timestamp in [start, end] adds, after the rows already
      there, one row per line carrying the sale's id, and these rows add up to the sale's
      total; a timestamp outside the range adds nothing. */
  lemma SavedSaleInSummary(sales: seq<SaleRecord>, id: int, clientId: string, timestamp: int,
                           items: seq<SaleItem>, start: int, end: int)
    ensures var before := Summary(sales, start, end);
      var after := Summary(sales + [SaleRecord(id, clientId, timestamp, LinesOf(items))], start, end);
      && before <= after
      && (start <= timestamp <= end ==>
            && |after| == |before| + |items|
            && SumRowTotals(after[|before|..]) == SumTotals(items)
            && forall k :: 0 <= k < |items| ==>
                 && after[|before| + k].saleId == id
                 && after[|before| + k].barcode == items[k].product.barcode
                 && after[|before| + k].quantity == items[k].quantity
                 && after[|before| + k].unitPrice == items[k].unitPrice)
      && (!(start <= timestamp <= end) ==> after == before)
  {
    var rec := SaleRecord(id, clientId, timestamp, LinesOf(items));
    SavedSaleKeepsRows(sales, rec, start, end);
    if start <= timestamp <= end {
      SavedSaleTotal(sales, id, clientId, timestamp, items, start, end);
      SavedSaleRows(sales, id, clientId, timestamp, items, start, end);
    }
  }

  /** Finalised sales with an AUTOINCREMENT id counter. */
  class SaleRepository {
    var sales: seq<SaleRecord>
    var lastId: int

    /** Ids are positive, strictly increasing in saving order, and never above the counter. */
    ghost predicate Valid()
      reads this
    {
      && lastId >= 0
      && (forall k :: 0 <= k < |sales| ==> 1 <= sales[k].id <= lastId)
      && (forall j, k :: 0 <= j < k < |sales| ==> sales[j].id < sales[k].id)
    }

    /** Opens a store holding the given sales, with the id counter at `lastId` (0 for a new
        database). */
    constructor (sales: seq<SaleRecord>, lastId: int)
      requires lastId >= 0
      requires forall k :: 0 <= k < |sales| ==> 1 <= sales[k].id <= lastId
      requires forall j, k :: 0 <= j < k < |sales| ==> sales[j].id < sales[k].id
      ensures Valid() && this.sales == sales && this.lastId == lastId
    {
      this.sales, this.lastId := sales, lastId;
    }

    /** Persists the header and one line per item under a new id, and returns that id. */
    method SaveSale(sale: Sale, timestamp: int) returns (id: int)
      requires Valid()
      modifies this
      ensures Valid()
      ensures id == old(lastId) + 1 && lastId == id
      ensures forall k :: 0 <= k < |old(sales)| ==> old(sales)[k].id < id
      ensures sales == old(sales) + [SaleRecord(id, sale.clientId, timestamp, LinesOf(sale.items))]
    {
      lastId := lastId + 1;
      id := lastId;
      var lines: seq<SaleLine> := [];
      var i := 0;
      while i < |sale.items|
        invariant 0 <= i <= |sale.items|
        invariant lines == LinesOf(sale.items[..i])
      {
        assert sale.items[..i + 1][..i] == sale.items[..i];
        var item := sale.items[i];
        lines := lines + [SaleLine(item.product.barcode, item.quantity, item.unitPrice)];
        i := i + 1;
      }
      assert sale.items[..i] == sale.items;
      sales := sales + [SaleRecord(id, sale.clientId, timestamp, lines)];
    }

    /** The summary rows for [start, end]. */
    function GetSalesSummary(start: int, end: int): (rows: seq<SummaryRow>)
      reads this
      ensures forall k :: 0 <= k < |rows| ==>
        && start <= rows[k].timestamp <= end
        && rows[k].total == rows[k].quantity as real * rows[k].unitPrice
    {
      SummaryInRange(sales, start, end);
      Summary(sales, start, end)
    }
  }
}
