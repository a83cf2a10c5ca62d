/** What the sale service does to the stored product rows and to the open sale, as pure
    transitions (src/inventory/services.py, lines 208-235), and what they restore. */
module SaleTransitions {
  import opened Models
  import opened Repositories

  /** The stored product rows and the lines of the open sale. */
  datatype SaleState = SaleState(stock: map<string, ProductRecord>, items: seq<SaleItem>)

  /** `add_item` while a sale is open: the stored row loses `quantity` units and the sale
      gains a line holding that row as it now is and the locked unit price. */
  function AddItemStep(s: SaleState, barcode: string, quantity: int, unitPrice: real): (r: Result<SaleState>)
    ensures barcode !in s.stock ==> r == Failure(NotFound)
    ensures barcode in s.stock && quantity > s.stock[barcode].quantity ==> r == Failure(InsufficientStock)
    ensures r.Failure? ==> barcode !in s.stock || quantity > s.stock[barcode].quantity
    ensures r.Success? ==>
      var p := s.stock[barcode];
      && r.value.stock.Keys == s.stock.Keys
      && r.value.stock[barcode] == p.(quantity := p.quantity - quantity)
      && r.value.stock[barcode].quantity >= 0
      && (forall b :: b in s.stock && b != barcode ==> r.value.stock[b] == s.stock[b])
      && r.value.items == s.items + [SaleItem(r.value.stock[barcode], quantity, unitPrice)]
    ensures r.Success? ==> SumTotals(r.value.items) == SumTotals(s.items) + quantity as real * unitPrice
  {
    if barcode !in s.stock then Failure(NotFound)
    else if quantity > s.stock[barcode].quantity then Failure(InsufficientStock)
    else
      var snapshot := s.stock[barcode].(quantity := s.stock[barcode].quantity - quantity);
      var items := s.items + [SaleItem(snapshot, quantity, unitPrice)];
      assert items[..|items| - 1] == s.items;
      Success(SaleState(s.stock[barcode := snapshot], items))
  }

  /** A line after its stock was put back: the product it holds (shared with the store's
      write) carries the line's units again. */
  function Returned(item: SaleItem): (r: SaleItem)
    ensures r.quantity == item.quantity && r.unitPrice == item.unitPrice
    ensures r.product == item.product.(quantity := item.product.quantity + item.quantity)
  {
    item.(product := item.product.(quantity := item.product.quantity + item.quantity))
  }

  /** The write that puts a line's stock back: the line's product with its quantity added,
      stored over whatever the row holds now. */
  function RestoreItem(stock: map<string, ProductRecord>, item: SaleItem): (r: map<string, ProductRecord>)
    ensures r.Keys == stock.Keys + {item.product.barcode}
    ensures r[item.product.barcode] == Returned(item).product
    ensures forall b :: b in stock && b != item.product.barcode ==> r[b] == stock[b]
  {
    stock[item.product.barcode := Returned(item).product]
  }

  /** `cancel_sale`'s writes: `RestoreItem` for every line, first to last. */
  function RestoreAll(stock: map<string, ProductRecord>, items: seq<SaleItem>): (r: map<string, ProductRecord>)
    ensures stock.Keys <= r.Keys
    ensures items != [] ==>
      var last := items[|items| - 1];
      last.product.barcode in r && r[last.product.barcode] == Returned(last).product
    decreases |items|
  {
    if items == [] then stock else RestoreItem(RestoreAll(stock, items[..|items| - 1]), items[|items| - 1])
  }

  /** `cancel_sale`'s writes leave a row that no line names as it was. */
  lemma {:induction false} RestoreAllUntouched(stock: map<string, ProductRecord>, items: seq<SaleItem>, b: string)
    requires b in stock
    requires forall k :: 0 <= k < |items| ==> items[k].product.barcode != b
    ensures RestoreAll(stock, items)[b] == stock[b]
    decreases |items|
  {
    if items != [] {
      RestoreAllUntouched(stock, items[..|items| - 1], b);
    }
  }

  /** After `cancel_sale`'s writes, a product's row is the snapshot, plus units, of the last
      line naming it: earlier lines' writes are overwritten. */
  lemma {:induction false} RestoreAllLastWriteWins(stock: map<string, ProductRecord>, items: seq<SaleItem>, k: int)
    requires 0 <= k < |items|
    requires forall j :: k < j < |items| ==> items[j].product.barcode != items[k].product.barcode
    ensures items[k].product.barcode in RestoreAll(stock, items)
    ensures RestoreAll(stock, items)[items[k].product.barcode] == Returned(items[k]).product
    decreases |items|
  {
    var n := |items| - 1;
    if k < n {
      var init := items[..n];
      assert forall j :: k < j < n ==> init[j] == items[j];
      RestoreAllLastWriteWins(stock, init, k);
    }
  }

  /** `remove_item(index)` while a sale is open, with the list indexing of the source: an
      index from -n to n - 1 picks a line and restores its stock, but only an index from 0 to
      n - 1 also removes the line (a negative one leaves the line in the sale, its product
      now carrying the returned units); any other index fails before anything is written. */
  function RemoveItemStep(s: SaleState, index: int): (r: Result<SaleState>)
    ensures r.Failure? <==> !(-|s.items| <= index < |s.items|)
    ensures r.Failure? ==> r.error == IndexOutOfRange
    ensures r.Success? ==>
      var item := s.items[if index < 0 then |s.items| + index else index];
      && r.value.stock == RestoreItem(s.stock, item)
    ensures r.Success? && index >= 0 ==>
      && r.value.items == s.items[..index] + s.items[index + 1..]
      && SumTotals(r.value.items) == SumTotals(s.items) - s.items[index].Total()
    ensures r.Success? && index < 0 ==>
      && |r.value.items| == |s.items|
      && r.value.items == s.items[|s.items| + index := Returned(s.items[|s.items| + index])]
  {
    var n := |s.items|;
    if index < -n || index >= n then Failure(IndexOutOfRange)
    else if index >= 0 then
      SumTotalsRemove(s.items, index);
      Success(SaleState(RestoreItem(s.stock, s.items[index]), s.items[..index] + s.items[index + 1..]))
    else
      var item := s.items[n + index];
      Success(SaleState(RestoreItem(s.stock, item), s.items[n + index := Returned(item)]))
  }

  /** An `add_item` call, as the arguments it was given. */
  datatype Request = Request(barcode: string, quantity: int, unitPrice: real)

  /** A sale started on `stock` to which the requests were added one by one with nothing
      else writing to the store in between. */
  function Replay(stock: map<string, ProductRecord>, requests: seq<Request>): Result<SaleState>
    decreases |requests|
  {
    if requests == [] then Success(SaleState(stock, []))
    else
      var last := requests[|requests| - 1];
      match Replay(stock, requests[..|requests| - 1])
      case Failure(e) => Failure(e)
      case Success(s) => AddItemStep(s, last.barcode, last.quantity, last.unitPrice)
  }

  /** No two lines of the sale are for the same product. */
  ghost predicate DistinctBarcodes(items: seq<SaleItem>) {
    forall j, k :: 0 <= j < k < |items| ==> items[j].product.barcode != items[k].product.barcode
  }

  /** The units of `barcode` the lines hold. */
  function Reserved(items: seq<SaleItem>, barcode: string): int
    decreases |items|
  {
    if items == [] then 0
    else
      var last := items[|items| - 1];
      Reserved(items[..|items| - 1], barcode) + (if last.product.barcode == barcode then last.quantity else 0)
  }

  /** A line added and then removed again leaves the store and the sale as they were. */
  lemma AddThenRemoveRestores(s: SaleState, barcode: string, quantity: int, unitPrice: real)
    requires Keyed(s.stock)
    requires AddItemStep(s, barcode, quantity, unitPrice).Success?
    ensures RemoveItemStep(AddItemStep(s, barcode, quantity, unitPrice).value, |s.items|) == Success(s)
  {
    var t := AddItemStep(s, barcode, quantity, unitPrice).value;
    var n := |s.items|;
    assert t.items[..n] + t.items[n + 1..] == s.items;
    assert t.stock[barcode := s.stock[barcode]] == s.stock;
  }

  /** What a replayed sale did: one line per request, for the request's barcode and units,
      and the store still keyed by barcode with the same barcodes. */
  lemma {:induction false} ReplayShape(stock: map<string, ProductRecord>, requests: seq<Request>)
    requires Keyed(stock)
    requires Replay(stock, requests).Success?
    ensures var s := Replay(stock, requests).value;
      && |s.items| == |requests|
      && s.stock.Keys == stock.Keys
      && Keyed(s.stock)
      && (forall k :: 0 <= k < |requests| ==>
            && s.items[k].product.barcode == requests[k].barcode
            && requests[k].barcode in stock
            && s.items[k].quantity == requests[k].quantity)
    decreases |requests|
  {
    if requests != [] {
      var n := |requests| - 1;
      ReplayShape(stock, requests[..n]);
      var t := Replay(stock, requests[..n]).value;
      var s := Replay(stock, requests).value;
      var last := requests[n];
      assert requests[..n] == requests[..|requests| - 1];
      assert s == AddItemStep(t, last.barcode, last.quantity, last.unitPrice).value;
      assert s.stock == t.stock[last.barcode := s.stock[last.barcode]];
      assert s.items[..n] == t.items;
      forall k | 0 <= k < n
        ensures s.items[k].product.barcode == requests[k].barcode && requests[k].barcode in stock
        ensures s.items[k].quantity == requests[k].quantity
      {
        assert requests[..n][k] == requests[k];
        assert s.items[k] == t.items[k];
      }
    }
  }

  /** Every row of a replayed sale is short by exactly the units its lines hold. */
  lemma {:induction false} ReplayReserves(stock: map<string, ProductRecord>, requests: seq<Request>)
    requires Keyed(stock)
    requires Replay(stock, requests).Success?
    ensures var s := Replay(stock, requests).value;
      forall b :: b in stock ==> b in s.stock && s.stock[b] == stock[b].(quantity := stock[b].quantity - Reserved(s.items, b))
    decreases |requests|
  {
    ReplayShape(stock, requests);
    if requests != [] {
      var n := |requests| - 1;
      ReplayReserves(stock, requests[..n]);
      ReplayShape(stock, requests[..n]);
      var t := Replay(stock, requests[..n]).value;
      var s := Replay(stock, requests).value;
      var last := requests[n];
      assert requests[..n] == requests[..|requests| - 1];
      assert s == AddItemStep(t, last.barcode, last.quantity, last.unitPrice).value;
      assert s.items[..n] == t.items;
      forall b | b in stock
        ensures s.stock[b] == stock[b].(quantity := stock[b].quantity - Reserved(s.items, b))
      {
        assert Reserved(s.items, b) == Reserved(t.items, b) + (if last.barcode == b then last.quantity else 0);
      }
    }
  }

  /** Before line k was added, no earlier line of the same barcode: its snapshot then
      holds the pre-sale row less its own units. */
  lemma {:induction false} ReplaySnapshot(stock: map<string, ProductRecord>, requests: seq<Request>, k: int)
    requires Keyed(stock)
    requires Replay(stock, requests).Success?
    requires 0 <= k < |requests|
    requires forall j :: 0 <= j < k ==> requests[j].barcode != requests[k].barcode
    ensures var s := Replay(stock, requests).value;
      var b := requests[k].barcode;
      k < |s.items| && b in stock && s.items[k].product == stock[b].(quantity := stock[b].quantity - requests[k].quantity)
    decreases |requests|
  {
    var n := |requests| - 1;
    var init := requests[..n];
    assert init == requests[..|requests| - 1];
    var t := Replay(stock, init).value;
    var s := Replay(stock, requests).value;
    ReplayShape(stock, requests);
    if k < n {
      assert init[k] == requests[k];
      assert forall j :: 0 <= j < k ==> init[j] == requests[j];
      ReplaySnapshot(stock, init, k);
      assert s.items[k] == t.items[k] by {
        assert s == AddItemStep(t, requests[n].barcode, requests[n].quantity, requests[n].unitPrice).value;
      }
    } else {
      SnapshotOfFirstLine(stock, init, requests[n]);
      assert s == AddItemStep(t, requests[n].barcode, requests[n].quantity, requests[n].unitPrice).value;
    }
  }

  /** A line for a barcode no earlier line names holds the pre-sale row less its units. */
  lemma SnapshotOfFirstLine(stock: map<string, ProductRecord>, init: seq<Request>, last: Request)
    requires Keyed(stock)
    requires Replay(stock, init).Success?
    requires forall j :: 0 <= j < |init| ==> init[j].barcode != last.barcode
    ensures var t := Replay(stock, init).value;
      var b := last.barcode;
      b in stock ==> b in t.stock && t.stock[b] == stock[b]
  {
  }

  lemma {:induction false} ReservedNone(items: seq<SaleItem>, b: string)
    requires forall j :: 0 <= j < |items| ==> items[j].product.barcode != b
    ensures Reserved(items, b) == 0
    decreases |items|
  {
    if items != [] {
      ReservedNone(items[..|items| - 1], b);
    }
  }

  /** Restoring lines that never name `b` leaves `b`'s row as it is, whatever it holds. */
  lemma {:induction false} RestoreAllFrame(stock: map<string, ProductRecord>, items: seq<SaleItem>, b: string, v: ProductRecord)
    requires forall k :: 0 <= k < |items| ==> items[k].product.barcode != b
    ensures RestoreAll(stock[b := v], items) == RestoreAll(stock, items)[b := v]
    decreases |items|
  {
    if items != [] {
      var n := |items| - 1;
      RestoreAllFrame(stock, items[..n], b, v);
      var c := items[n].product.barcode;
      var w := items[n].product.(quantity := items[n].product.quantity + items[n].quantity);
      assert RestoreAll(stock, items[..n])[b := v][c := w] == RestoreAll(stock, items[..n])[c := w][b := v];
    }
  }

  /** Remove-by-index restores the row exactly as it was before the sale, when its line is
      the only one for that product and nothing else wrote to the store during the sale. */
  lemma RemoveRestoresPreSaleRow(stock: map<string, ProductRecord>, requests: seq<Request>, i: int)
    requires Keyed(stock)
    requires Replay(stock, requests).Success?
    requires 0 <= i < |requests|
    requires forall j :: 0 <= j < |requests| && j != i ==> requests[j].barcode != requests[i].barcode
    ensures var s := Replay(stock, requests).value;
      var r := RemoveItemStep(s, i);
      && r.Success?
      && requests[i].barcode in stock
      && r.value.stock == s.stock[requests[i].barcode := stock[requests[i].barcode]]
      && r.value.items == s.items[..i] + s.items[i + 1..]
  {
    ReplayShape(stock, requests);
    ReplaySnapshot(stock, requests, i);
    var s := Replay(stock, requests).value;
    var b := requests[i].barcode;
    assert RemoveItemStep(s, i).value.stock == RestoreItem(s.stock, s.items[i]);
    assert Returned(s.items[i]).product == stock[b];
  }

  /** `cancel_sale` puts every row back as it was before the sale, when no two lines are
      for the same product and nothing else wrote to the store during the sale. */
  lemma {:induction false} CancelRestoresStock(stock: map<string, ProductRecord>, requests: seq<Request>)
    requires Keyed(stock)
    requires Replay(stock, requests).Success?
    requires DistinctBarcodes(Replay(stock, requests).value.items)
    ensures RestoreAll(Replay(stock, requests).value.stock, Replay(stock, requests).value.items) == stock
    decreases |requests|
  {
    if requests != [] {
      var n := |requests| - 1;
      var t := Replay(stock, requests[..n]).value;
      var s := Replay(stock, requests).value;
      var b := requests[n].barcode;
      ReplayShape(stock, requests[..n]);
      ReplayReserves(stock, requests[..n]);
      assert requests[..n] == requests[..|requests| - 1];
      assert s == AddItemStep(t, b, requests[n].quantity, requests[n].unitPrice).value;
      assert s.items[..n] == t.items;
      assert DistinctBarcodes(t.items) by {
        forall j, k | 0 <= j < k < n ensures t.items[j].product.barcode != t.items[k].product.barcode {
          assert t.items[j] == s.items[j] && t.items[k] == s.items[k];
        }
      }
      forall k | 0 <= k < n ensures t.items[k].product.barcode != b {
        assert s.items[k] == t.items[k];
      }
      CancelRestoresStock(stock, requests[..n]);
      ReservedNone(t.items, b);
      RestoreLastLine(t, b, requests[n].quantity, requests[n].unitPrice, stock);
    }
  }

  /** The inductive step of `CancelRestoresStock`: restoring a line for a product no earlier
      line names undoes its `add_item`. */
  lemma RestoreLastLine(t: SaleState, b: string, quantity: int, unitPrice: real, stock: map<string, ProductRecord>)
    requires Keyed(t.stock)
    requires AddItemStep(t, b, quantity, unitPrice).Success?
    requires forall k :: 0 <= k < |t.items| ==> t.items[k].product.barcode != b
    requires RestoreAll(t.stock, t.items) == stock
    requires b in stock && t.stock[b] == stock[b]
    ensures var s := AddItemStep(t, b, quantity, unitPrice).value;
      RestoreAll(s.stock, s.items) == stock
  {
    var s := AddItemStep(t, b, quantity, unitPrice).value;
    var n := |t.items|;
    var snapshot := s.stock[b];
    assert s.items[..n] == t.items;
    RestoreAllFrame(t.stock, t.items, b, snapshot);
    assert RestoreAll(s.stock, s.items) == RestoreItem(stock[b := snapshot], s.items[n]);
    assert stock[b := t.stock[b]] == stock;
  }

  /** A concrete case of the source's `cancel_sale`: ten units in stock, two lines of three
      and two units of the same product, and cancelling leaves seven units, not ten: each line
      writes back its own snapshot, the second overwriting the first. */
  lemma CancelLosesStockWithRepeatedBarcode()
    ensures
      var p := ProductRecord("7", "Cola", None, 1.0, 1.5, 1.2, 10);
      var s := Replay(map["7" := p], [Request("7", 3, 1.5), Request("7", 2, 1.5)]);
      && s.Success?
      && s.value.stock["7"].quantity == 5
      && "7" in RestoreAll(s.value.stock, s.value.items)
      && RestoreAll(s.value.stock, s.value.items)["7"].quantity == 7
  {
  }

  /** A concrete case of the source's `remove_item`: ten units in stock, two lines of three
      and two units of the same product, and removing the first line stores ten units while
      the two units of the second line are still in the sale. */
  lemma RemoveRestoresStaleSnapshot()
    ensures
      var p := ProductRecord("7", "Cola", None, 1.0, 1.5, 1.2, 10);
      var s := Replay(map["7" := p], [Request("7", 3, 1.5), Request("7", 2, 1.5)]);
      && s.Success?
      && var r := RemoveItemStep(s.value, 0);
      && r.Success?
      && "7" in r.value.stock
      && r.value.stock["7"].quantity == 10
      && |r.value.items| == 1
      && r.value.items[0].product.barcode == "7"
      && r.value.items[0].quantity == 2
  {
  }

  /** A concrete case of the same overwrite: a sale takes three of ten units, the retail
      price is then edited from 1.5 to 2.0, and cancelling writes the line's snapshot back,
      price 1.5 included, while restoring by delta keeps the edited price. */
  lemma CancelRevertsEditDuringSale()
    ensures
      var p := ProductRecord("7", "Cola", None, 1.0, 1.5, 1.2, 10);
      var s := Replay(map["7" := p], [Request("7", 3, 1.5)]);
      && s.Success?
      && var edited := s.value.stock["7" := Updated(s.value.stock["7"], [RetailPrice(2.0)])];
      && edited["7"].retailPrice == 2.0
      && "7" in RestoreAll(edited, s.value.items)
      && RestoreAll(edited, s.value.items)["7"] == p
      && RestoreAllByDelta(edited, s.value.items)["7"] == p.(retailPrice := 2.0)
  {
  }

  /** Restoring by adding each line's units to the row as it is now (the corrected form of
      the writes of `remove_item` and `cancel_sale`). */
  function RestoreItemByDelta(stock: map<string, ProductRecord>, item: SaleItem): map<string, ProductRecord> {
    var b := item.product.barcode;
    if b in stock then stock[b := stock[b].(quantity := stock[b].quantity + item.quantity)] else stock
  }

  function RestoreAllByDelta(stock: map<string, ProductRecord>, items: seq<SaleItem>): (r: map<string, ProductRecord>)
    ensures r.Keys == stock.Keys
    ensures forall b :: b in stock ==> r[b] == stock[b].(quantity := stock[b].quantity + Reserved(items, b))
    decreases |items|
  {
    if items == [] then stock
    else RestoreItemByDelta(RestoreAllByDelta(stock, items[..|items| - 1]), items[|items| - 1])
  }

  /** With the corrected writes, cancelling puts every row back as it was before the sale,
      with or without repeated products. */
  lemma CancelByDeltaRestoresStock(stock: map<string, ProductRecord>, requests: seq<Request>)
    requires Keyed(stock)
    requires Replay(stock, requests).Success?
    ensures RestoreAllByDelta(Replay(stock, requests).value.stock, Replay(stock, requests).value.items) == stock
  {
    ReplayShape(stock, requests);
    ReplayReserves(stock, requests);
    var s := Replay(stock, requests).value;
    var r := RestoreAllByDelta(s.stock, s.items);
    forall b | b in stock ensures r[b] == stock[b] {
      assert s.stock[b] == stock[b].(quantity := stock[b].quantity - Reserved(s.items, b));
    }
  }

  /** `remove_item` with the range check the source leaves to `Sale.remove_item` done
      first: a negative index fails like any other index out of range. */
  function RemoveItemChecked(s: SaleState, index: int): (r: Result<SaleState>)
    ensures r.Failure? <==> !(0 <= index < |s.items|)
    ensures r.Failure? ==> r.error == IndexOutOfRange
    ensures r.Success? ==>
      && r.value.items == s.items[..index] + s.items[index + 1..]
      && r.value.stock == RestoreItemByDelta(s.stock, s.items[index])
      && SumTotals(r.value.items) == SumTotals(s.items) - s.items[index].Total()
  {
    if !(0 <= index < |s.items|) then Failure(IndexOutOfRange)
    else
      SumTotalsRemove(s.items, index);
      Success(SaleState(RestoreItemByDelta(s.stock, s.items[index]), s.items[..index] + s.items[index + 1..]))
  }

  /** A concrete case of the source's `remove_item(-1)`: the last line's three units go back
      to the store, yet the line stays in the sale, so finalising would record units that are
      back on the shelf, and cancelling afterwards puts them back a second time. */
  lemma NegativeIndexRestoresWithoutRemoving()
    ensures
      var p := ProductRecord("7", "Cola", None, 1.0, 1.5, 1.2, 10);
      var s := Replay(map["7" := p], [Request("7", 3, 1.5)]);
      && s.Success?
      && var r := RemoveItemStep(s.value, -1);
      && r.Success?
      && r.value.stock["7"].quantity == 10
      && |r.value.items| == 1 && r.value.items[0].quantity == 3
      && "7" in RestoreAll(r.value.stock, r.value.items)
      && RestoreAll(r.value.stock, r.value.items)["7"].quantity == 13
  {
  }
}
