/** The sale service (src/inventory/services.py, lines 198-257): one open sale at a time,
    whose lines reserve stock in the product store as they are added. */
module Sales {
  import opened Models
  import opened Repositories
  import opened Inventory
  import opened SaleTransitions

  class SaleService {
    const inventory: InventoryService
    const repository: SaleRepository
    var currentSale: Sale?

    ghost predicate Valid()
      reads this, inventory, inventory.repository, repository
    {
      inventory.Valid() && repository.Valid()
    }

    /** The stored product rows. */
    function Stock(): map<string, ProductRecord>
      reads inventory.repository
    {
      inventory.repository.products
    }

    /** The stored rows and the lines of the open sale. */
    function State(): SaleState
      requires currentSale != null
      reads this, currentSale, inventory.repository
    {
      SaleState(Stock(), currentSale.items)
    }

    constructor (inventory: InventoryService, repository: SaleRepository)
      requires inventory.Valid() && repository.Valid()
      ensures Valid() && this.inventory == inventory && this.repository == repository
      ensures currentSale == null
    {
      this.inventory := inventory;
      this.repository := repository;
      currentSale := null;
    }

    /** Opens a new, empty sale for the client, replacing any open one without touching the
        store. */
    method StartSale(clientId: string)
      requires Valid()
      modifies this
      ensures Valid()
      ensures fresh(currentSale) && currentSale.clientId == clientId && currentSale.items == []
    {
      currentSale := new Sale(clientId);
    }

    method AddItem(barcode: string, quantity: int, unitPrice: real) returns (r: Outcome)
      requires Valid()
      modifies currentSale, inventory.repository
      ensures Valid()
      ensures old(currentSale) == null ==> r == Fail(NoOpenSale) && Stock() == old(Stock())
      ensures old(currentSale) != null ==>
        var before := SaleState(old(Stock()), old(currentSale.items));
        var s := AddItemStep(before, barcode, quantity, unitPrice);
        r == OutcomeOf(s) && State() == After(s, before)
      ensures inventory.repository.history == old(inventory.repository.history)
    {
      if currentSale == null {
        return Fail(NoOpenSale);
      }
      var product := inventory.GetProductByBarcode(barcode);
      if product == null {
        return Fail(NotFound);
      }
      if quantity > product.quantity {
        return Fail(InsufficientStock);
      }
      // The line holds the product itself, so it sees the decrement made right after it.
      product.quantity := product.quantity - quantity;
      currentSale.AddItem(SaleItem(product.Record(), quantity, unitPrice));
      inventory.repository.SaveProduct(product.Record());
      r := Ok;
    }

    method RemoveItem(index: int) returns (r: Outcome)
      requires Valid()
      modifies currentSale, inventory.repository
      ensures Valid()
      ensures old(currentSale) == null ==> r == Fail(NoOpenSale) && Stock() == old(Stock())
      ensures old(currentSale) != null ==>
        var before := SaleState(old(Stock()), old(currentSale.items));
        var s := RemoveItemStep(before, index);
        r == OutcomeOf(s) && State() == After(s, before)
      ensures inventory.repository.history == old(inventory.repository.history)
    {
      if currentSale == null {
        return Fail(NoOpenSale);
      }
      var n := |currentSale.items|;
      if index < -n || index >= n {
        return Fail(IndexOutOfRange);
      }
      var k := if index < 0 then n + index else index;
      // The line's product gets its units back, whether or not the line is then deleted.
      var item := Returned(currentSale.items[k]);
      currentSale.items := currentSale.items[k := item];
      currentSale.RemoveItem(index);
      inventory.repository.SaveProduct(item.product);
      r := Ok;
    }

    /** Puts back the stock of every line, first to last, and closes the sale. */
    method CancelSale()
      requires Valid()
      modifies this, inventory.repository
      ensures Valid() && currentSale == null
      ensures old(currentSale) == null ==> Stock() == old(Stock())
      ensures old(currentSale) != null ==> Stock() == RestoreAll(old(Stock()), old(currentSale.items))
      ensures inventory.repository.history == old(inventory.repository.history)
      ensures unchanged(repository)
    {
      if currentSale == null {
        return;
      }
      var items := currentSale.items;
      var i := 0;
      while i < |items|
        invariant 0 <= i <= |items|
        invariant Valid()
        invariant Stock() == RestoreAll(old(Stock()), items[..i])
        invariant inventory.repository.history == old(inventory.repository.history)
      {
        inventory.repository.SaveProduct(Returned(items[i]).product);
        assert items[..i + 1][..i] == items[..i];
        i := i + 1;
      }
      assert items[..|items|] == items;
      currentSale := null;
    }

    /** Saves the open sale under the next id with timestamp `now`, closes it and answers
        its total. */
    method FinalizeSale(now: int) returns (r: Result<real>)
      requires Valid()
      modifies this, repository
      ensures Valid() && currentSale == null
      ensures Items() == [] && Total() == 0.0
      ensures Stock() == old(Stock())
      ensures old(currentSale) == null ==>
        && r == Failure(NoOpenSale)
        && repository.sales == old(repository.sales) && repository.lastId == old(repository.lastId)
      ensures old(currentSale) != null ==>
        && r == Success(SumTotals(old(currentSale.items)))
        && repository.lastId == old(repository.lastId) + 1
        && repository.sales == old(repository.sales) + [SaleRecord(old(repository.lastId) + 1,
             old(currentSale).clientId, now, LinesOf(old(currentSale.items)))]
    {
      if currentSale == null {
        return Failure(NoOpenSale);
      }
      var total := currentSale.Total();
      var id := repository.SaveSale(currentSale, now);
      currentSale := null;
      r := Success(total);
    }

    /** The lines of the open sale; none when no sale is open. */
    function Items(): (items: seq<SaleItem>)
      reads this, currentSale
      ensures currentSale == null ==> items == []
      ensures currentSale != null ==> items == currentSale.items
    {
      if currentSale == null then [] else currentSale.items
    }

    /** What the open sale comes to: the sum of its line totals, 0 when no sale is open, and
        never negative while its quantities and prices are not. */
    function Total(): (t: real)
      reads this, currentSale
      ensures t == SumTotals(Items())
      ensures (forall k :: 0 <= k < |Items()| ==> Items()[k].quantity >= 0 && Items()[k].unitPrice >= 0.0) ==> t >= 0.0
    {
      var items := Items();
      assert (forall k :: 0 <= k < |items| ==> items[k].quantity >= 0 && items[k].unitPrice >= 0.0) ==> SumTotals(items) >= 0.0 by {
        if forall k :: 0 <= k < |items| ==> items[k].quantity >= 0 && items[k].unitPrice >= 0.0 {
          SumTotalsNonNegative(items);
        }
      }
      if currentSale == null then 0.0 else currentSale.Total()
    }

    function SalesSummary(start: int, end: int): (rows: seq<SummaryRow>)
      reads repository
      ensures forall k :: 0 <= k < |rows| ==> start <= rows[k].timestamp <= end
    {
      repository.GetSalesSummary(start, end)
    }
  }
}
