/** The inventory service (src/inventory/services.py, lines 148-196): adds, refills and
    edits products, writing every change through to the store. */
module Inventory {
  import opened Models
  import opened Repositories

  /** What the store holds about products: the rows and the price history. */
  datatype Db = Db(products: map<string, ProductRecord>, history: map<string, seq<PriceEntry>>)

  /** The state an operation leaves: its new state when it succeeded, the old one when it raised. */
  function After<T>(r: Result<T>, before: T): T {
    if r.Success? then r.value else before
  }

  function OutcomeOf<T>(r: Result<T>): Outcome {
    if r.Success? then Ok else Fail(r.error)
  }

  /** The entries among `entries` that name `barcode`, in order. */
  function EntriesFor(entries: seq<PriceEntry>, barcode: string): seq<PriceEntry>
    decreases |entries|
  {
    if entries == [] then []
    else
      var last := entries[|entries| - 1];
      EntriesFor(entries[..|entries| - 1], barcode) + (if last.barcode == barcode then [last] else [])
  }

  /** The history after inserting `entries` one row at a time. */
  function AppendedAll(history: map<string, seq<PriceEntry>>, entries: seq<PriceEntry>): map<string, seq<PriceEntry>>
    decreases |entries|
  {
    if entries == [] then history
    else Appended(AppendedAll(history, entries[..|entries| - 1]), entries[|entries| - 1])
  }

  /** Inserting `entries` one row at a time gives each barcode's rows exactly the new
      entries naming it, in order, after the ones it had. */
  lemma {:induction false} AppendedAllFiles(history: map<string, seq<PriceEntry>>, entries: seq<PriceEntry>, b: string)
    ensures StoredHistory(AppendedAll(history, entries), b) == StoredHistory(history, b) + EntriesFor(entries, b)
    decreases |entries|
  {
    if entries != [] {
      AppendedAllFiles(history, entries[..|entries| - 1], b);
    }
  }

  /** `add_product` on the store. */
  function Added(db: Db, p: ProductRecord, entries: seq<PriceEntry>): (r: Result<Db>)
    ensures r.Failure? <==> p.barcode in db.products
    ensures r.Failure? ==> r.error == DuplicateBarcode
    ensures r.Success? ==> r.value.products.Keys == db.products.Keys + {p.barcode} && r.value.products[p.barcode] == p
    ensures r.Success? ==> forall b :: b in db.products ==> r.value.products[b] == db.products[b]
    ensures r.Success? ==> forall b :: StoredHistory(r.value.history, b) == StoredHistory(db.history, b) + EntriesFor(entries, b)
  {
    if p.barcode in db.products then Failure(DuplicateBarcode)
    else
      assert forall b :: StoredHistory(AppendedAll(db.history, entries), b) == StoredHistory(db.history, b) + EntriesFor(entries, b) by {
        forall b { AppendedAllFiles(db.history, entries, b); }
      }
      Success(Db(db.products[p.barcode := p], AppendedAll(db.history, entries)))
  }

  /** `refill_product` on the store. */
  function Refilled(db: Db, barcode: string, amount: int): (r: Result<Db>)
    ensures r.Success? <==> barcode in db.products && amount >= 0
    ensures barcode !in db.products ==> r == Failure(NotFound)
    ensures barcode in db.products && amount < 0 ==> r == Failure(InvalidAmount)
    ensures r.Success? ==>
      && r.value.history == db.history
      && r.value.products.Keys == db.products.Keys
      && r.value.products[barcode] == db.products[barcode].(quantity := db.products[barcode].quantity + amount)
      && forall b :: b in db.products && b != barcode ==> r.value.products[b] == db.products[b]
  {
    if barcode !in db.products then Failure(NotFound)
    else if amount < 0 then Failure(InvalidAmount)
    else
      var p := db.products[barcode];
      Success(db.(products := db.products[barcode := p.(quantity := p.quantity + amount)]))
  }

  /** `edit_product` on the store: the persisted row, plus one persisted history entry with the
      new prices when a supplied price differs from the old one. */
  function Edited(db: Db, barcode: string, kwargs: seq<Field>, now: int): (r: Result<Db>)
    ensures r.Failure? <==> barcode !in db.products
    ensures r.Failure? ==> r.error == NotFound
    ensures r.Success? ==>
      && r.value.products.Keys == db.products.Keys
      && r.value.products[barcode] == Updated(db.products[barcode], kwargs)
      && forall b :: b in db.products && b != barcode ==> r.value.products[b] == db.products[b]
    ensures r.Success? ==> forall b :: b != barcode ==> StoredHistory(r.value.history, b) == StoredHistory(db.history, b)
    ensures r.Success? && !PriceChanged(db.products[barcode], kwargs) ==> r.value.history == db.history
    ensures r.Success? && PriceChanged(db.products[barcode], kwargs) ==>
      var q := r.value.products[barcode];
      StoredHistory(r.value.history, barcode) ==
        StoredHistory(db.history, barcode) + [PriceEntry(barcode, q.retailPrice, q.wholesalePrice, now)]
  {
    if barcode !in db.products then Failure(NotFound)
    else
      var before := db.products[barcode];
      var after := Updated(before, kwargs);
      var history :=
        if PriceChanged(before, kwargs)
        then Appended(db.history, PriceEntry(barcode, after.retailPrice, after.wholesalePrice, now))
        else db.history;
      Success(Db(db.products[barcode := after], history))
  }

  /** Once a product is in the store, adding it again fails and changes nothing. */
  lemma AddTwiceRejected(db: Db, p: ProductRecord, entries: seq<PriceEntry>, q: ProductRecord, more: seq<PriceEntry>)
    requires Added(db, p, entries).Success? && q.barcode == p.barcode
    ensures Added(Added(db, p, entries).value, q, more) == Failure(DuplicateBarcode)
  {
  }

  /** Two refills add up: refilling by m and then by n is refilling by m + n. */
  lemma RefillsAccumulate(db: Db, barcode: string, m: int, n: int)
    requires barcode in db.products && m >= 0 && n >= 0
    ensures Refilled(Refilled(db, barcode, m).value, barcode, n) == Refilled(db, barcode, m + n)
  {
    var p := db.products[barcode];
    var once := Refilled(db, barcode, m).value;
    assert once.products == db.products[barcode := p.(quantity := p.quantity + m)];
    assert once.products[barcode := p.(quantity := p.quantity + m + n)] == db.products[barcode := p.(quantity := p.quantity + (m + n))];
  }

  /** Editing with the same arguments a second time persists no further history entry. */
  lemma EditAgainAddsNoHistory(db: Db, barcode: string, kwargs: seq<Field>, now: int, later: int)
    requires barcode in db.products
    ensures
      var once := Edited(db, barcode, kwargs, now).value;
      && Edited(once, barcode, kwargs, later).Success?
      && Edited(once, barcode, kwargs, later).value.history == once.history
      && Edited(once, barcode, kwargs, later).value.products == once.products
  {
  }

  /** No inventory operation removes or rewrites a persisted history row: every barcode's
      stored history only grows at its end. */
  lemma HistoryAppendOnly(db: Db, barcode: string, kwargs: seq<Field>, now: int, amount: int, p: ProductRecord, entries: seq<PriceEntry>, b: string)
    ensures StoredHistory(db.history, b) <= StoredHistory(After(Edited(db, barcode, kwargs, now), db).history, b)
    ensures StoredHistory(db.history, b) <= StoredHistory(After(Refilled(db, barcode, amount), db).history, b)
    ensures StoredHistory(db.history, b) <= StoredHistory(After(Added(db, p, entries), db).history, b)
  {
  }

  /** A refill by a non-negative amount keeps every stored quantity non-negative. */
  lemma RefillKeepsStockNonNegative(db: Db, barcode: string, amount: int)
    requires forall b :: b in db.products ==> db.products[b].quantity >= 0
    ensures forall b :: b in After(Refilled(db, barcode, amount), db).products ==>
      After(Refilled(db, barcode, amount), db).products[b].quantity >= 0
  {
  }

  /** The inventory service: the store plus the list of products it has been given.
      The list is filled once from the store and afterwards only `add_product` appends to
      it; the other operations change only the store. */
  class InventoryService {
    const repository: InventoryRepository
    var products: seq<Product>

    ghost predicate Valid()
      reads this, repository
    {
      repository.Valid()
    }

    function Store(): Db
      reads repository
    {
      Db(repository.products, repository.history)
    }

    /** `get_inventory_table`: every attribute of every product object in the list, its
        in-memory price history included, in list order. The objects are read as they are
        now, not the store. */
    function InventoryTable(): (table: seq<TableRow>)
      reads this, products
      ensures |table| == |products|
      ensures forall k :: 0 <= k < |products| ==>
        table[k].record == products[k].Record() && table[k].priceHistory == products[k].priceHistory
    {
      TableOf(products)
    }

    constructor (repository: InventoryRepository)
      requires repository.Valid()
      ensures Valid() && this.repository == repository
      ensures forall k :: 0 <= k < |products| ==>
        && fresh(products[k]) && products[k].barcode in repository.products
        && products[k].Record() == repository.products[products[k].barcode]
        && products[k].priceHistory == repository.PriceHistory(products[k].barcode)
      ensures forall b :: b in repository.products ==> exists k :: 0 <= k < |products| && products[k].barcode == b
      ensures forall j, k :: 0 <= j < k < |products| ==> products[j].barcode != products[k].barcode
    {
      this.repository := repository;
      new;
      products := repository.GetAllProducts();
    }

    method AddProduct(product: Product) returns (r: Outcome)
      requires Valid()
      modifies this, repository
      ensures Valid()
      ensures var s := Added(old(Store()), product.Record(), product.priceHistory);
        && r == OutcomeOf(s)
        && Store() == After(s, old(Store()))
        && products == if s.Success? then old(products) + [product] else old(products)
    {
      var existing := GetProductByBarcode(product.barcode);
      if existing != null {
        return Fail(DuplicateBarcode);
      }
      products := products + [product];
      repository.SaveProduct(product.Record());
      var i := 0;
      while i < |product.priceHistory|
        invariant 0 <= i <= |product.priceHistory|
        invariant repository.Valid() && products == old(products) + [product]
        invariant repository.products == old(repository.products)[product.barcode := product.Record()]
        invariant repository.history == AppendedAll(old(repository.history), product.priceHistory[..i])
      {
        assert product.priceHistory[..i + 1][..i] == product.priceHistory[..i];
        repository.SavePriceHistory(product.priceHistory[i]);
        i := i + 1;
      }
      assert product.priceHistory[..i] == product.priceHistory;
      r := Ok;
    }

    method RefillProduct(barcode: string, amount: int) returns (r: Outcome)
      requires Valid()
      modifies repository
      ensures Valid()
      ensures var s := Refilled(old(Store()), barcode, amount);
        r == OutcomeOf(s) && Store() == After(s, old(Store()))
      ensures forall k :: 0 <= k < |products| ==> unchanged(products[k])
    {
      var product := GetProductByBarcode(barcode);
      if product == null {
        return Fail(NotFound);
      }
      r := product.Refill(amount);
      if r.Fail? {
        return;
      }
      repository.SaveProduct(product.Record());
    }

    method EditProduct(barcode: string, kwargs: seq<Field>, now: int) returns (r: Outcome)
      requires Valid()
      modifies repository
      ensures Valid()
      ensures var s := Edited(old(Store()), barcode, kwargs, now);
        r == OutcomeOf(s) && Store() == After(s, old(Store()))
      ensures forall k :: 0 <= k < |products| ==> unchanged(products[k])
    {
      var product := GetProductByBarcode(barcode);
      if product == null {
        return Fail(NotFound);
      }
      var before := product.Record();
      ghost var s := Edited(Store(), barcode, kwargs, now).value;
      product.Update(kwargs, now);
      assert product.barcode == barcode && product.Record() == Updated(before, kwargs);
      repository.SaveProduct(product.Record());
      assert repository.products == s.products;
      if PriceChanged(before, kwargs) {
        var entry := PriceEntry(product.barcode, product.retailPrice, product.wholesalePrice, now);
        repository.SavePriceHistory(entry);
        assert repository.history == s.history;
        // The in-memory copy also keeps it, newest first; the copy is then dropped.
        assert product !in products;
        product.priceHistory := [entry] + product.priceHistory;
      }
      r := Ok;
    }

    /** A fresh copy of the stored product, never an object of the list. */
    method GetProductByBarcode(barcode: string) returns (p: Product?)
      ensures p != null <==> barcode in repository.products
      ensures p != null ==> fresh(p) && p.Record() == repository.products[barcode]
      ensures p != null ==> p.priceHistory == repository.PriceHistory(barcode)
    {
      p := repository.GetProductByBarcode(barcode);
    }

    method GetProductsByName(fragment: string) returns (ps: seq<Product>)
      requires Valid()
      ensures forall k :: 0 <= k < |ps| ==>
        && fresh(ps[k]) && ps[k].barcode in repository.products && Contains(ps[k].name, fragment)
        && ps[k].Record() == repository.products[ps[k].barcode]
        && ps[k].priceHistory == repository.PriceHistory(ps[k].barcode)
      ensures forall b :: b in repository.products && Contains(repository.products[b].name, fragment) ==>
        exists k :: 0 <= k < |ps| && ps[k].barcode == b
      ensures forall j, k :: 0 <= j < k < |ps| ==> ps[j].barcode != ps[k].barcode
    {
      ps := repository.GetProductsByName(fragment);
    }
  }

  /** One entry of the inventory table: a product object's attributes. */
  datatype TableRow = TableRow(record: ProductRecord, priceHistory: seq<PriceEntry>)

  function TableOf(ps: seq<Product>): (rows: seq<TableRow>)
    reads ps
    ensures |rows| == |ps|
    ensures forall k :: 0 <= k < |ps| ==> rows[k] == TableRow(ps[k].Record(), ps[k].priceHistory)
    decreases |ps|
  {
    if ps == [] then [] else TableOf(ps[..|ps| - 1]) + [TableRow(ps[|ps| - 1].Record(), ps[|ps| - 1].priceHistory)]
  }
}
