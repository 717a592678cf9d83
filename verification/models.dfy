/**
 * The database tables of the shop: products, sales and the audit log, the name-uniqueness and
 * foreign-key constraints, and the two ways the code looks a product up by name.
 */
module Models {
  import opened Common
  import opened PyText

  datatype Date = Date(year: int, month: int, day: int)

  /**
   * A catalog row. Prices are whole cents. `safetyStock` is None where the code that created
   * the row did not set that column.
   */
  datatype Product = Product(
    name: string,
    category: string,
    expiry: Option<Date>,
    costPrice: int,
    sellingPrice: int,
    initialQty: int,
    qtyAtHand: int,
    safetyStock: Option<int>)

  /** One recorded sale of `qtySold` units of the product with id `productId`. */
  datatype Sale = Sale(productId: int, date: Date, qtySold: int)

  /** A value change reported by a batch update. */
  datatype Change =
    | CostChanged(oldCost: int, newCost: int)
    | SellingChanged(oldSelling: int, newSelling: int)
    | QuantityChanged(oldQty: int, newQty: int)

  datatype LogAction =
    | BatchCreateProduct(name: string, quantity: int)
    | BatchUpdateProduct(name: string, changes: seq<Change>)

  /** An audit-log row: who did what. */
  datatype LogEntry = LogEntry(user: string, action: LogAction)

  /** The product table and the sale table together. */
  datatype Shop = Shop(products: seq<Product>, sales: seq<Sale>)

  /**
   * Products are never deleted here, so ids are handed out in order from 1: the product at
   * position i has id i + 1.
   */
  function IdOf(i: nat): int {
    i + 1
  }

  predicate IsProductId(products: seq<Product>, id: int) {
    1 <= id <= |products|
  }

  /** The `unique=True` constraint on `Product.name`. */
  predicate NamesUnique(products: seq<Product>) {
    forall i, j :: 0 <= i < j < |products| ==> products[i].name != products[j].name
  }

  /** The foreign key `Sale.product_id -> product.id`. */
  predicate SalesReferToProducts(products: seq<Product>, sales: seq<Sale>) {
    forall k :: 0 <= k < |sales| ==> IsProductId(products, sales[k].productId)
  }

  /** Every constraint the schema declares. */
  predicate Consistent(shop: Shop) {
    NamesUnique(shop.products) && SalesReferToProducts(shop.products, shop.sales)
  }

  /** `Product.query.filter_by(name=name).first()`: the position of the product so named. */
  function FindByName(products: seq<Product>, name: string): (r: Option<nat>)
    ensures r.Some? ==> r.value < |products| && products[r.value].name == name
    ensures r.Some? ==> forall j :: 0 <= j < r.value ==> products[j].name != name
    ensures r.None? ==> forall j :: 0 <= j < |products| ==> products[j].name != name
  {
    if products == [] then None
    else if products[0].name == name then Some(0)
    else match FindByName(products[1..], name)
      case None => None
      case Some(j) => Some(j + 1)
  }

  /** Two names that `lower()` maps to the same text. */
  predicate SameNameIgnoringCase(a: string, b: string) {
    Lower(a) == Lower(b)
  }

  /**
   * `Product.query.filter(func.lower(Product.name) == name.lower()).first()`: the first
   * product, in id order, whose lower-cased name equals the lower-cased `name`.
   */
  function FindByNameIgnoringCase(products: seq<Product>, name: string): (r: Option<nat>)
    ensures r.Some? ==> r.value < |products| && SameNameIgnoringCase(products[r.value].name, name)
    ensures r.Some? ==> forall j :: 0 <= j < r.value ==> !SameNameIgnoringCase(products[j].name, name)
    ensures r.None? ==> forall j :: 0 <= j < |products| ==> !SameNameIgnoringCase(products[j].name, name)
  {
    if products == [] then None
    else if SameNameIgnoringCase(products[0].name, name) then Some(0)
    else match FindByNameIgnoringCase(products[1..], name)
      case None => None
      case Some(j) => Some(j + 1)
  }

  /** An exact match is also a match ignoring case, and the ignoring-case search finds no later one. */
  lemma ExactMatchIsCaseInsensitiveMatch(products: seq<Product>, name: string)
    requires FindByName(products, name).Some?
    ensures FindByNameIgnoringCase(products, name).Some?
    ensures FindByNameIgnoringCase(products, name).value <= FindByName(products, name).value
  {
    var i := FindByName(products, name).value;
    assert SameNameIgnoringCase(products[i].name, name);
  }

  /**
   * The database session: the product, sale and log tables, changed in place by the
   * request handlers and the import script.
   */
  class Store {
    var products: seq<Product>
    var sales: seq<Sale>
    var log: seq<LogEntry>

    constructor ()
      ensures products == [] && sales == [] && log == []
    {
      products, sales, log := [], [], [];
    }

    function State(): Shop
      reads this
    {
      Shop(products, sales)
    }

    predicate Valid()
      reads this
    {
      Consistent(State())
    }
  }
}
