/** The shop's domain model: products, their price history, sale items and sales
    (src/inventory/models.py). Prices are exact reals, timestamps are integers. */
module Models {

  datatype Option<T> = None | Some(value: T)

  /** The failures the core raises. The source raises `ValueError` for all but the last,
      which is Python's `IndexError` from indexing the item list. */
  datatype Error =
    | DuplicateBarcode
    | NotFound
    | InvalidAmount
    | InsufficientStock
    | NoOpenSale
    | IndexOutOfRange

  /** What an operation that returns nothing reports: it ran, or it raised. */
  datatype Outcome = Ok | Fail(error: Error)

  /** What an operation that returns a value reports. */
  datatype Result<T> = Success(value: T) | Failure(error: Error)

  /** One snapshot of a product's two selling prices. */
  datatype PriceEntry = PriceEntry(barcode: string, retailPrice: real, wholesalePrice: real, timestamp: int)

  /** The persisted fields of a product: one row of the products table. */
  datatype ProductRecord = ProductRecord(
    barcode: string,
    name: string,
    description: Option<string>,
    purchasePrice: real,
    retailPrice: real,
    wholesalePrice: real,
    quantity: int)

  /** One keyword argument of `update`. `Other` is a key that names no attribute of a
      product, which `update` skips. */
  datatype Field =
    | Name(name: string)
    | Description(description: Option<string>)
    | PurchasePrice(purchasePrice: real)
    | RetailPrice(retailPrice: real)
    | WholesalePrice(wholesalePrice: real)
    | Quantity(quantity: int)
    | Other(key: string)

  function NameOf(f: Field): Option<string> { if f.Name? then Some(f.name) else None }
  function DescriptionOf(f: Field): Option<Option<string>> { if f.Description? then Some(f.description) else None }
  function PurchasePriceOf(f: Field): Option<real> { if f.PurchasePrice? then Some(f.purchasePrice) else None }
  function RetailPriceOf(f: Field): Option<real> { if f.RetailPrice? then Some(f.retailPrice) else None }
  function WholesalePriceOf(f: Field): Option<real> { if f.WholesalePrice? then Some(f.wholesalePrice) else None }
  function QuantityOf(f: Field): Option<int> { if f.Quantity? then Some(f.quantity) else None }

  /** The value the keyword arguments give to the attribute `pick` selects, if they
      mention it (the last mention wins, as in a dictionary). */
  function Supplied<T>(kwargs: seq<Field>, pick: Field -> Option<T>): (v: Option<T>)
    ensures (forall k :: 0 <= k < |kwargs| ==> pick(kwargs[k]).None?) ==> v.None?
    decreases |kwargs|
  {
    if kwargs == [] then None
    else if pick(kwargs[|kwargs| - 1]).Some? then pick(kwargs[|kwargs| - 1])
    else Supplied(kwargs[..|kwargs| - 1], pick)
  }

  function Override<T>(current: T, supplied: Option<T>): T {
    if supplied.Some? then supplied.value else current
  }

  /** The record after `update(**kwargs)`: every supplied attribute takes its new value,
      every other field keeps the old one. */
  function Updated(p: ProductRecord, kwargs: seq<Field>): ProductRecord {
    p.(name := Override(p.name, Supplied(kwargs, NameOf)),
       description := Override(p.description, Supplied(kwargs, DescriptionOf)),
       purchasePrice := Override(p.purchasePrice, Supplied(kwargs, PurchasePriceOf)),
       retailPrice := Override(p.retailPrice, Supplied(kwargs, RetailPriceOf)),
       wholesalePrice := Override(p.wholesalePrice, Supplied(kwargs, WholesalePriceOf)),
       quantity := Override(p.quantity, Supplied(kwargs, QuantityOf)))
  }

  /** A supplied retail or wholesale price differs from the one `p` had. */
  predicate PriceChanged(p: ProductRecord, kwargs: seq<Field>) {
    || (Supplied(kwargs, RetailPriceOf).Some? && Supplied(kwargs, RetailPriceOf).value != p.retailPrice)
    || (Supplied(kwargs, WholesalePriceOf).Some? && Supplied(kwargs, WholesalePriceOf).value != p.wholesalePrice)
  }

  /** `update` keeps the barcode, leaves alone every field its arguments do not mention,
      and ignores keys that name no attribute. */
  lemma UpdateSetsOnlySuppliedFields(p: ProductRecord, kwargs: seq<Field>)
    ensures Updated(p, kwargs).barcode == p.barcode
    ensures (forall k :: 0 <= k < |kwargs| ==> NameOf(kwargs[k]).None?) ==> Updated(p, kwargs).name == p.name
    ensures (forall k :: 0 <= k < |kwargs| ==> DescriptionOf(kwargs[k]).None?) ==> Updated(p, kwargs).description == p.description
    ensures (forall k :: 0 <= k < |kwargs| ==> PurchasePriceOf(kwargs[k]).None?) ==> Updated(p, kwargs).purchasePrice == p.purchasePrice
    ensures (forall k :: 0 <= k < |kwargs| ==> RetailPriceOf(kwargs[k]).None?) ==> Updated(p, kwargs).retailPrice == p.retailPrice
    ensures (forall k :: 0 <= k < |kwargs| ==> WholesalePriceOf(kwargs[k]).None?) ==> Updated(p, kwargs).wholesalePrice == p.wholesalePrice
    ensures (forall k :: 0 <= k < |kwargs| ==> QuantityOf(kwargs[k]).None?) ==> Updated(p, kwargs).quantity == p.quantity
  {
  }

  /** An attribute the keyword arguments mention takes the value of its last mention. */
  lemma {:induction false} SuppliedIsLastMention<T>(kwargs: seq<Field>, pick: Field -> Option<T>, k: int)
    requires 0 <= k < |kwargs| && pick(kwargs[k]).Some?
    requires forall j :: k < j < |kwargs| ==> pick(kwargs[j]).None?
    ensures Supplied(kwargs, pick) == pick(kwargs[k])
    decreases |kwargs|
  {
    if k < |kwargs| - 1 {
      var init := kwargs[..|kwargs| - 1];
      assert init[k] == kwargs[k];
      assert forall j :: k < j < |init| ==> init[j] == kwargs[j];
      SuppliedIsLastMention(init, pick, k);
    }
  }

  /** The retail price after `update` is the last one supplied (the other attributes follow
      the same pattern through `SuppliedIsLastMention`). */
  lemma SuppliedRetailPriceSet(p: ProductRecord, kwargs: seq<Field>, k: int)
    requires 0 <= k < |kwargs| && kwargs[k].RetailPrice?
    requires forall j :: k < j < |kwargs| ==> !kwargs[j].RetailPrice?
    ensures Updated(p, kwargs).retailPrice == kwargs[k].retailPrice
    ensures PriceChanged(p, kwargs) <== kwargs[k].retailPrice != p.retailPrice
  {
    SuppliedIsLastMention(kwargs, RetailPriceOf, k);
  }

  /** Keys that name no attribute change nothing and record no history. */
  lemma UnknownKeysIgnored(p: ProductRecord, kwargs: seq<Field>)
    requires forall k :: 0 <= k < |kwargs| ==> kwargs[k].Other?
    ensures Updated(p, kwargs) == p && !PriceChanged(p, kwargs)
  {
  }

  /** Sending the same arguments again changes no price, so it records no history:
      an update is idempotent. */
  lemma UpdateIdempotent(p: ProductRecord, kwargs: seq<Field>)
    ensures Updated(Updated(p, kwargs), kwargs) == Updated(p, kwargs)
    ensures !PriceChanged(Updated(p, kwargs), kwargs)
  {
  }

  /** A product as an object: the services fetch a fresh one from the store, change it
      and write it back. */
  class Product {
    var barcode: string
    var name: string
    var description: Option<string>
    var purchasePrice: real
    var retailPrice: real
    var wholesalePrice: real
    var quantity: int
    var priceHistory: seq<PriceEntry>

    constructor (r: ProductRecord, history: seq<PriceEntry>)
      ensures Record() == r && priceHistory == history
    {
      barcode, name, description := r.barcode, r.name, r.description;
      purchasePrice, retailPrice, wholesalePrice := r.purchasePrice, r.retailPrice, r.wholesalePrice;
      quantity := r.quantity;
      priceHistory := history;
    }

    /** The fields `save_product` writes. */
    function Record(): ProductRecord
      reads this
    {
      ProductRecord(barcode, name, description, purchasePrice, retailPrice, wholesalePrice, quantity)
    }

    /** Adds `amount` units to the stock; a negative amount is refused and changes nothing. */
    method Refill(amount: int) returns (r: Outcome)
      modifies this
      ensures r == (if amount < 0 then Fail(InvalidAmount) else Ok)
      ensures Record() == if amount < 0 then old(Record()) else old(Record()).(quantity := old(quantity) + amount)
      ensures priceHistory == old(priceHistory)
    {
      if amount < 0 {
        return Fail(InvalidAmount);
      }
      quantity := quantity + amount;
      r := Ok;
    }

    /** Sets each attribute the keyword arguments name, skipping unknown keys, and appends one
        history entry with the new prices when a supplied price differs from the old one. */
    method Update(kwargs: seq<Field>, now: int)
      modifies this
      ensures Record() == Updated(old(Record()), kwargs)
      ensures priceHistory == old(priceHistory) +
        (if PriceChanged(old(Record()), kwargs) then [PriceEntry(barcode, retailPrice, wholesalePrice, now)] else [])
    {
      var before := Record();
      var i := 0;
      while i < |kwargs|
        invariant 0 <= i <= |kwargs|
        invariant Record() == Updated(before, kwargs[..i])
        invariant priceHistory == old(priceHistory)
      {
        assert kwargs[..i + 1][..i] == kwargs[..i];
        match kwargs[i] {
          case Name(v) => name := v;
          case Description(v) => description := v;
          case PurchasePrice(v) => purchasePrice := v;
          case RetailPrice(v) => retailPrice := v;
          case WholesalePrice(v) => wholesalePrice := v;
          case Quantity(v) => quantity := v;
          case Other(_) =>
        }
        i := i + 1;
      }
      assert kwargs[..i] == kwargs;
      if PriceChanged(before, kwargs) {
        priceHistory := priceHistory + [PriceEntry(barcode, retailPrice, wholesalePrice, now)];
      }
    }
  }

  /** One line of a sale. `product` is the product's record as the sale service left it
      after reserving the stock; `unitPrice` is locked when the line is added. */
  datatype SaleItem = SaleItem(product: ProductRecord, quantity: int, unitPrice: real) {
    /** The line's amount: its units at the locked price, never negative when neither is. */
    function Total(): (t: real)
      ensures quantity >= 0 && unitPrice >= 0.0 ==> t >= 0.0
      ensures quantity == 0 || unitPrice == 0.0 ==> t == 0.0
    {
      quantity as real * unitPrice
    }
  }

  /** The sum of the line totals, added up from the first line to the last. */
  function SumTotals(items: seq<SaleItem>): real
    decreases |items|
  {
    if items == [] then 0.0 else SumTotals(items[..|items| - 1]) + items[|items| - 1].Total()
  }

  /** Lines with non-negative quantities and prices add up to a non-negative total. */
  lemma {:induction false} SumTotalsNonNegative(items: seq<SaleItem>)
    requires forall k :: 0 <= k < |items| ==> items[k].quantity >= 0 && items[k].unitPrice >= 0.0
    ensures SumTotals(items) >= 0.0
    decreases |items|
  {
    if items != [] {
      var n := |items| - 1;
      SumTotalsNonNegative(items[..n]);
      assert items[n].quantity as real * items[n].unitPrice >= 0.0;
    }
  }

  lemma {:induction false} SumTotalsConcat(a: seq<SaleItem>, b: seq<SaleItem>)
    ensures SumTotals(a + b) == SumTotals(a) + SumTotals(b)
    decreases |b|
  {
    if b != [] {
      var n := |b| - 1;
      assert (a + b)[..|a + b| - 1] == a + b[..n];
      SumTotalsConcat(a, b[..n]);
    } else {
      assert a + b == a;
    }
  }

  /** Removing line `i` lowers the sum by exactly that line's total. */
  lemma {:induction false} SumTotalsRemove(items: seq<SaleItem>, i: int)
    requires 0 <= i < |items|
    ensures SumTotals(items[..i] + items[i + 1..]) == SumTotals(items) - items[i].Total()
    decreases |items|
  {
    var n := |items| - 1;
    var rest := items[..i] + items[i + 1..];
    if i == n {
      assert rest == items[..n];
    } else {
      var init := items[..n];
      SumTotalsRemove(init, i);
      assert rest[..|rest| - 1] == init[..i] + init[i + 1..];
      assert rest[|rest| - 1] == items[n] && init[i] == items[i];
    }
  }

  /** A sale in progress: a client and an ordered list of lines, changed in place. */
  class Sale {
    const clientId: string
    var items: seq<SaleItem>

    constructor (clientId: string)
      ensures this.clientId == clientId && items == []
    {
      this.clientId := clientId;
      items := [];
    }

    method AddItem(item: SaleItem)
      modifies this
      ensures items == old(items) + [item]
    {
      items := items + [item];
    }

    /** Deletes line `index` when it is in range; otherwise does nothing. */
    method RemoveItem(index: int)
      modifies this
      ensures 0 <= index < |old(items)| ==> items == old(items)[..index] + old(items)[index + 1..]
      ensures !(0 <= index < |old(items)|) ==> items == old(items)
    {
      if 0 <= index < |items| {
        items := items[..index] + items[index + 1..];
      }
    }

    /** The sum of the line totals: 0 for an empty sale. */
    function Total(): (t: real)
      reads this
      ensures items == [] ==> t == 0.0
      ensures t == SumTotals(items)
    {
      SumTotals(items)
    }

    method Clear()
      modifies this
      ensures items == []
    {
      items := [];
    }
  }
}
