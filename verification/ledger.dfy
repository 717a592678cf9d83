/**
 * The stock ledger of the shop's main handlers: restocking or creating a product, recording a
 * sale after a stock check, and the dashboard figures. The state is a `Shop` (products and
 * sales); the handlers change a `Store` in place and are proved equal to the functions here.
 */
module Ledger {
  import opened Common
  import opened PyText
  import opened Models
  import opened Forms

  /** What a request to the stock-intake or sale page ends with. */
  datatype Outcome =
    | StockUpdated     // "Stock updated!"
    | SaleRecorded     // "Sale recorded."
    | FormRejected     // the form did not validate; the page is shown again
    | NotEnoughStock   // "Not enough stock!"

  /** The product table after a stock intake, and how the request ended. */
  datatype IntakeResult = IntakeResult(products: seq<Product>, outcome: Outcome)

  /** The tables after a sale request, and how the request ended. */
  datatype SaleResult = SaleResult(shop: Shop, outcome: Outcome)

  // ---------------------------------------------------------------- stock intake

  /** The row `add_stock` inserts for a name the catalog does not have. */
  function NewProduct(f: AddStockForm): Product
    requires AddStockFormValid(f)
  {
    Product(f.name, f.category, DateValue(f.expiry), f.costPrice.value, f.sellingPrice.value,
            f.quantity.value, f.quantity.value, None)
  }

  /** A restocked row: both quantities grow by the intake, prices and expiry are overwritten. */
  function Restocked(p: Product, f: AddStockForm): Product
    requires AddStockFormValid(f)
  {
    p.(qtyAtHand := p.qtyAtHand + f.quantity.value,
       initialQty := p.initialQty + f.quantity.value,
       costPrice := f.costPrice.value,
       sellingPrice := f.sellingPrice.value,
       expiry := DateValue(f.expiry))
  }

  /** `add_stock` on the product table: restock the product of that exact name, or create one. */
  function Intake(products: seq<Product>, f: AddStockForm): (r: IntakeResult)
    ensures r.outcome == FormRejected <==> !AddStockFormValid(f)
    ensures r.outcome != FormRejected ==> r.outcome == StockUpdated
    ensures !AddStockFormValid(f) ==> r.products == products
    ensures AddStockFormValid(f) ==> FindByName(r.products, f.name).Some?
    ensures |products| <= |r.products| <= |products| + 1
  {
    if !AddStockFormValid(f) then IntakeResult(products, FormRejected)
    else match FindByName(products, f.name)
      case Some(i) =>
        var ps := products[i := Restocked(products[i], f)];
        assert ps[i].name == f.name;
        IntakeResult(ps, StockUpdated)
      case None =>
        var ps := products + [NewProduct(f)];
        assert ps[|products|].name == f.name;
        IntakeResult(ps, StockUpdated)
  }

  /**
   * Restocking an existing name adds the intake to both quantities, so their difference does
   * not move; prices and expiry are replaced, name, category and safety stock stay, and no
   * other product changes.
   */
  lemma RestockExisting(products: seq<Product>, f: AddStockForm)
    requires AddStockFormValid(f) && FindByName(products, f.name).Some?
    ensures var i := FindByName(products, f.name).value;
      var IntakeResult(ps, outcome) := Intake(products, f);
      && outcome == StockUpdated && |ps| == |products|
      && ps[i].qtyAtHand == products[i].qtyAtHand + f.quantity.value
      && ps[i].initialQty == products[i].initialQty + f.quantity.value
      && ps[i].initialQty - ps[i].qtyAtHand == products[i].initialQty - products[i].qtyAtHand
      && ps[i].costPrice == f.costPrice.value && ps[i].sellingPrice == f.sellingPrice.value
      && ps[i].expiry == DateValue(f.expiry)
      && ps[i].name == products[i].name && ps[i].category == products[i].category
      && ps[i].safetyStock == products[i].safetyStock
      && forall j :: 0 <= j < |ps| && j != i ==> ps[j] == products[j]
  {
  }

  /** An unknown name creates exactly one product, whose two quantities both equal the intake. */
  lemma CreateUnknown(products: seq<Product>, f: AddStockForm)
    requires AddStockFormValid(f) && FindByName(products, f.name).None?
    ensures var IntakeResult(ps, outcome) := Intake(products, f);
      && outcome == StockUpdated && |ps| == |products| + 1 && ps[..|products|] == products
      && ps[|products|].name == f.name
      && ps[|products|].initialQty == ps[|products|].qtyAtHand == f.quantity.value
      && FindByName(ps, f.name) == Some(|products|)
  {
    var ps := Intake(products, f).products;
    assert ps[|products|].name == f.name;
    assert forall j :: 0 <= j < |products| ==> ps[j] == products[j];
  }

  /** Intake never makes two products share a name. */
  lemma IntakeKeepsNamesUnique(products: seq<Product>, f: AddStockForm)
    requires NamesUnique(products)
    ensures NamesUnique(Intake(products, f).products)
  {
  }

  // ---------------------------------------------------------------- sales

  /**
   * `record_sale`: a valid form for a product with enough stock takes the quantity off
   * `qty_at_hand` and appends one sale dated `today`; otherwise nothing changes.
   */
  function SaleEntry(shop: Shop, f: RecordSaleForm, today: Date): (r: SaleResult)
    ensures r.outcome == FormRejected <==> !RecordSaleFormValid(f, shop.products)
    ensures r.outcome == FormRejected || r.outcome == NotEnoughStock || r.outcome == SaleRecorded
    ensures r.outcome != SaleRecorded ==> r.shop == shop
    ensures |r.shop.products| == |shop.products|
    ensures r.outcome == SaleRecorded ==> |r.shop.sales| == |shop.sales| + 1 && r.shop.sales[..|shop.sales|] == shop.sales
    ensures SalesReferToProducts(shop.products, shop.sales) ==> SalesReferToProducts(r.shop.products, r.shop.sales)
  {
    if !RecordSaleFormValid(f, shop.products) then SaleResult(shop, FormRejected)
    else
      var i := f.productId.value - 1;
      var q := f.quantity.value;
      var p := shop.products[i];
      if p.qtyAtHand < q then SaleResult(shop, NotEnoughStock)
      else SaleResult(Shop(shop.products[i := p.(qtyAtHand := p.qtyAtHand - q)],
                 shop.sales + [Sale(f.productId.value, today, q)]),
            SaleRecorded)
  }

  /** A sale larger than the stock is refused and changes neither table; selling exactly the stock is allowed. */
  lemma SaleNeedsStock(shop: Shop, f: RecordSaleForm, today: Date)
    requires RecordSaleFormValid(f, shop.products)
    ensures var p := shop.products[f.productId.value - 1];
      var SaleResult(shop', outcome) := SaleEntry(shop, f, today);
      && (f.quantity.value > p.qtyAtHand <==> outcome == NotEnoughStock)
      && (outcome == NotEnoughStock ==> shop' == shop)
      && (f.quantity.value == p.qtyAtHand ==> outcome == SaleRecorded && shop'.products[f.productId.value - 1].qtyAtHand == 0)
  {
  }

  /**
   * An accepted sale lowers that product's stock by exactly the quantity, never below zero,
   * appends one sale of that quantity, and leaves every other product as it was.
   */
  lemma SaleAccepted(shop: Shop, f: RecordSaleForm, today: Date)
    requires SaleEntry(shop, f, today).outcome == SaleRecorded
    ensures var i := f.productId.value - 1;
      var shop' := SaleEntry(shop, f, today).shop;
      && 0 <= i < |shop.products| && |shop'.products| == |shop.products|
      && shop'.products[i].qtyAtHand == shop.products[i].qtyAtHand - f.quantity.value
      && 0 <= shop'.products[i].qtyAtHand
      && shop'.products[i].initialQty == shop.products[i].initialQty
      && shop'.sales == shop.sales + [Sale(f.productId.value, today, f.quantity.value)]
      && forall j :: 0 <= j < |shop.products| && j != i ==> shop'.products[j] == shop.products[j]
  {
  }

  // ---------------------------------------------------------------- the ledger invariant

  /** Units of product `id` sold over the sale log. */
  function SoldOf(sales: seq<Sale>, id: int): int {
    if sales == [] then 0
    else SoldOf(sales[..|sales| - 1], id) + (if sales[|sales| - 1].productId == id then sales[|sales| - 1].qtySold else 0)
  }

  /** Sales of other products do not count towards `id`. */
  lemma {:induction false} SoldOfNone(sales: seq<Sale>, id: int)
    requires forall k :: 0 <= k < |sales| ==> sales[k].productId != id
    ensures SoldOf(sales, id) == 0
  {
    if sales != [] {
      SoldOfNone(sales[..|sales| - 1], id);
    }
  }

  /**
   * The ledger invariant of the main handlers: the schema constraints hold, no stock is
   * negative, and for every product `initial_qty - qty_at_hand` is the sum of its sales.
   */
  predicate Balanced(shop: Shop) {
    && Consistent(shop)
    && forall i :: 0 <= i < |shop.products| ==>
         shop.products[i].qtyAtHand >= 0
         && shop.products[i].initialQty - shop.products[i].qtyAtHand == SoldOf(shop.sales, IdOf(i))
  }

  lemma IntakeKeepsBalance(shop: Shop, f: AddStockForm)
    requires Balanced(shop)
    ensures Balanced(Shop(Intake(shop.products, f).products, shop.sales))
  {
    var ps := Intake(shop.products, f).products;
    IntakeKeepsNamesUnique(shop.products, f);
    if AddStockFormValid(f) && FindByName(shop.products, f.name).None? {
      var n := |shop.products|;
      forall k | 0 <= k < |shop.sales|
        ensures shop.sales[k].productId != IdOf(n)
      {
        assert IsProductId(shop.products, shop.sales[k].productId);
      }
      SoldOfNone(shop.sales, IdOf(n));
      assert forall i :: 0 <= i < n ==> ps[i] == shop.products[i];
    }
  }

  lemma SaleKeepsBalance(shop: Shop, f: RecordSaleForm, today: Date)
    requires Balanced(shop)
    ensures Balanced(SaleEntry(shop, f, today).shop)
  {
    var SaleResult(shop', outcome) := SaleEntry(shop, f, today);
    if outcome == SaleRecorded {
      var sales' := shop'.sales;
      assert sales'[..|sales'| - 1] == shop.sales;
      forall i | 0 <= i < |shop'.products|
        ensures shop'.products[i].qtyAtHand >= 0
        ensures shop'.products[i].initialQty - shop'.products[i].qtyAtHand == SoldOf(sales', IdOf(i))
      {
      }
    }
  }

  /** One request of the main handlers. */
  datatype Request = StockIntake(intake: AddStockForm) | SaleRequest(sale: RecordSaleForm, today: Date)

  function Handle(shop: Shop, req: Request): Shop {
    match req
    case StockIntake(f) => Shop(Intake(shop.products, f).products, shop.sales)
    case SaleRequest(f, today) => SaleEntry(shop, f, today).shop
  }

  function HandleAll(shop: Shop, reqs: seq<Request>): Shop
    decreases |reqs|
  {
    if reqs == [] then shop else HandleAll(Handle(shop, reqs[0]), reqs[1..])
  }

  /**
   * Across any sequence of stock intakes and sales, stock stays non-negative and each
   * product's `initial_qty - qty_at_hand` equals the units its sales record.
   */
  lemma {:induction false} LedgerStaysBalanced(shop: Shop, reqs: seq<Request>)
    requires Balanced(shop)
    ensures Balanced(HandleAll(shop, reqs))
    decreases |reqs|
  {
    if reqs != [] {
      match reqs[0] {
        case StockIntake(f) => IntakeKeepsBalance(shop, f);
        case SaleRequest(f, today) => SaleKeepsBalance(shop, f, today);
      }
      LedgerStaysBalanced(Handle(shop, reqs[0]), reqs[1..]);
    }
  }

  // ---------------------------------------------------------------- the dashboard

  /** Stock below this many units is listed as low on the dashboard. */
  const LowStockBelow: int := 5

  /** How many best sellers the dashboard shows. */
  const TopSalesLimit: nat := 5

  /** What the stock on hand cost to buy. */
  function StockCost(products: seq<Product>): int {
    if products == [] then 0
    else StockCost(products[..|products| - 1]) + products[|products| - 1].qtyAtHand * products[|products| - 1].costPrice
  }

  /** What the stock on hand sells for. */
  function StockValue(products: seq<Product>): int {
    if products == [] then 0
    else StockValue(products[..|products| - 1]) + products[|products| - 1].qtyAtHand * products[|products| - 1].sellingPrice
  }

  /** The margin each product would earn if all of its stock sold at the current prices. */
  function MarginSum(products: seq<Product>): int {
    if products == [] then 0
    else MarginSum(products[..|products| - 1])
         + products[|products| - 1].qtyAtHand * (products[|products| - 1].sellingPrice - products[|products| - 1].costPrice)
  }

  /** The dashboard's profit figure, value minus cost, is the sum of the per-product margins. */
  lemma {:induction false} ProfitIsMarginSum(products: seq<Product>)
    ensures StockValue(products) - StockCost(products) == MarginSum(products)
  {
    if products != [] {
      ProfitIsMarginSum(products[..|products| - 1]);
    }
  }

  /** When no product sells below cost, the profit figure is not negative. */
  lemma {:induction false} ProfitNotNegative(products: seq<Product>)
    requires forall i :: 0 <= i < |products| ==> products[i].qtyAtHand >= 0 && products[i].sellingPrice >= products[i].costPrice
    ensures StockValue(products) - StockCost(products) >= 0
  {
    if products != [] {
      var last := products[|products| - 1];
      ProfitNotNegative(products[..|products| - 1]);
      ProfitIsMarginSum(products[..|products| - 1]);
      ProfitIsMarginSum(products);
      assert last.qtyAtHand * (last.sellingPrice - last.costPrice) >= 0;
    }
  }

  /** The products with fewer than five units on hand, in catalog order. */
  function LowStock(products: seq<Product>): (r: seq<Product>)
    ensures |r| <= |products|
    ensures forall p :: p in r <==> p in products && p.qtyAtHand < LowStockBelow
  {
    if products == [] then []
    else
      var rest := LowStock(products[..|products| - 1]);
      var last := products[|products| - 1];
      assert products == products[..|products| - 1] + [last];
      if last.qtyAtHand < LowStockBelow then rest + [last] else rest
  }

  /** A dashboard line of the best sellers: a product name and the units sold under it. */
  datatype TopSeller = TopSeller(name: string, units: int)

  /** Whether any sale is recorded against `id` (the inner join keeps only those products). */
  predicate HasSales(sales: seq<Sale>, id: int) {
    exists k :: 0 <= k < |sales| && sales[k].productId == id
  }

  /** The line the sales grouping gives the product at position `i`. */
  function SellerLine(shop: Shop, i: nat): TopSeller
    requires i < |shop.products|
  {
    TopSeller(shop.products[i].name, SoldOf(shop.sales, IdOf(i)))
  }

  /** No two lines carry the same name. */
  predicate OnePerName(s: seq<TopSeller>) {
    forall a, b :: 0 <= a < b < |s| ==> s[a].name != s[b].name
  }

  /** One line per product among the first `n` that has at least one sale, in catalog order. */
  function Sellers(shop: Shop, n: nat): (r: seq<TopSeller>)
    requires n <= |shop.products|
    ensures |r| <= n
    ensures forall e :: e in r ==> exists i :: 0 <= i < n && HasSales(shop.sales, IdOf(i)) && e == SellerLine(shop, i)
    ensures forall i :: 0 <= i < n && HasSales(shop.sales, IdOf(i)) ==> SellerLine(shop, i) in r
    ensures NamesUnique(shop.products) ==> OnePerName(r)
  {
    if n == 0 then []
    else
      var rest := Sellers(shop, n - 1);
      if HasSales(shop.sales, IdOf(n - 1)) then
        assert NamesUnique(shop.products) ==> forall a :: 0 <= a < |rest| ==> rest[a].name != shop.products[n - 1].name by {
          if NamesUnique(shop.products) {
            forall a | 0 <= a < |rest|
              ensures rest[a].name != shop.products[n - 1].name
            {
              assert rest[a] in rest;
            }
          }
        }
        rest + [SellerLine(shop, n - 1)]
      else rest
  }

  /** Best sellers first. */
  predicate ByUnitsDescending(s: seq<TopSeller>) {
    forall i, j :: 0 <= i < j < |s| ==> s[i].units >= s[j].units
  }

  /** A line that sold at least as much as every line of a descending list can go in front of it. */
  lemma PrependKeepsDescending(h: TopSeller, t: seq<TopSeller>)
    requires ByUnitsDescending(t)
    requires forall e :: e in t ==> e.units <= h.units
    ensures ByUnitsDescending([h] + t)
  {
    forall i, j | 0 <= i < j < |[h] + t|
      ensures ([h] + t)[i].units >= ([h] + t)[j].units
    {
      if i == 0 {
        assert t[j - 1] in t;
      }
    }
  }

  /** The first line of a descending list sold at least as much as every later one. */
  lemma HeadSoldMost(s: seq<TopSeller>)
    requires ByUnitsDescending(s) && s != []
    ensures forall e :: e in s[1..] ==> e.units <= s[0].units
  {
    forall e | e in s[1..]
      ensures e.units <= s[0].units
    {
      var k :| 0 <= k < |s[1..]| && s[1..][k] == e;
      assert s[k + 1] == e;
    }
  }

  /** Puts `x` into a descending list, after the lines that sold as many units. */
  function InsertByUnits(x: TopSeller, s: seq<TopSeller>): (r: seq<TopSeller>)
    requires ByUnitsDescending(s)
    ensures forall e :: e in r ==> e == x || e in s
    ensures ByUnitsDescending(r)
    ensures multiset(r) == multiset(s) + multiset{x}
  {
    if s == [] then [x]
    else if x.units > s[0].units then
      PrependKeepsDescending(x, s);
      [x] + s
    else
      var tail := InsertByUnits(x, s[1..]);
      assert s == [s[0]] + s[1..];
      HeadSoldMost(s);
      PrependKeepsDescending(s[0], tail);
      [s[0]] + tail
  }

  /** `order_by(desc('units'))`: the lines in descending order of units, as a rearrangement of its input. */
  function SortByUnits(s: seq<TopSeller>): (r: seq<TopSeller>)
    ensures ByUnitsDescending(r)
    ensures multiset(r) == multiset(s)
  {
    if s == [] then []
    else
      assert s == s[..|s| - 1] + [s[|s| - 1]];
      InsertByUnits(s[|s| - 1], SortByUnits(s[..|s| - 1]))
  }

  /** `limit(5)` on a descending list: its first five lines, and a line left out sold no more than the last one kept. */
  function FirstFive(sorted: seq<TopSeller>): (r: seq<TopSeller>)
    requires ByUnitsDescending(sorted)
    ensures |r| <= TopSalesLimit
    ensures ByUnitsDescending(r)
    ensures multiset(r) <= multiset(sorted)
    ensures forall e :: e in sorted && e !in r ==> |r| == TopSalesLimit && e.units <= r[|r| - 1].units
  {
    var r := if |sorted| <= TopSalesLimit then sorted else sorted[..TopSalesLimit];
    assert sorted == r + sorted[|r|..];
    forall e | e in sorted && e !in r
      ensures |r| == TopSalesLimit && e.units <= r[|r| - 1].units
    {
      var k :| 0 <= k < |sorted| && sorted[k] == e;
      assert k >= |r|;
    }
    r
  }

  /**
   * The dashboard's best sellers: the products with sales, best first, at most five. Every
   * line is a product's name with its units sold, and a product left out sold no more than
   * the last one shown.
   */
  function TopSales(shop: Shop): (r: seq<TopSeller>)
    ensures |r| <= TopSalesLimit
    ensures ByUnitsDescending(r)
    ensures multiset(r) <= multiset(Sellers(shop, |shop.products|))
    ensures forall e :: e in Sellers(shop, |shop.products|) && e !in r ==> |r| == TopSalesLimit && e.units <= r[|r| - 1].units
  {
    var all := Sellers(shop, |shop.products|);
    var sorted := SortByUnits(all);
    assert forall e :: e in all ==> e in multiset(sorted);
    FirstFive(sorted)
  }

  /** In a list with one line per name, every line occurs once. */
  lemma OnceInOnePerName(s: seq<TopSeller>, i: nat)
    requires OnePerName(s) && i < |s|
    ensures multiset(s)[s[i]] == 1
  {
    assert s == s[..i] + [s[i]] + s[i + 1..];
    forall k | 0 <= k < |s| && k != i
      ensures s[k] != s[i]
    {
    }
    assert s[i] !in s[..i] && s[i] !in s[i + 1..];
  }

  /** A line found at two positions occurs at least twice. */
  lemma TwiceAt(r: seq<TopSeller>, a: nat, b: nat)
    requires a < b < |r| && r[a] == r[b]
    ensures multiset(r)[r[a]] >= 2
  {
    assert r == r[..b] + [r[b]] + r[b + 1..];
    assert r[..b][a] == r[a];
  }

  /** Lines drawn, without repeats, from a list with one line per name also have one line per name. */
  lemma {:induction false} SubMultisetKeepsOnePerName(r: seq<TopSeller>, s: seq<TopSeller>)
    requires multiset(r) <= multiset(s) && OnePerName(s)
    ensures OnePerName(r)
  {
    forall a, b | 0 <= a < b < |r|
      ensures r[a].name != r[b].name
    {
      if r[a].name == r[b].name {
        assert r[a] in multiset(r) && r[b] in multiset(r);
        var i :| 0 <= i < |s| && s[i] == r[a];
        var j :| 0 <= j < |s| && s[j] == r[b];
        assert i == j;
        TwiceAt(r, a, b);
        OnceInOnePerName(s, i);
        assert false;
      }
    }
  }

  /** With unique product names, the dashboard shows each best seller once. */
  lemma TopSalesOnePerName(shop: Shop)
    requires NamesUnique(shop.products)
    ensures OnePerName(TopSales(shop))
  {
    SubMultisetKeepsOnePerName(TopSales(shop), Sellers(shop, |shop.products|));
  }

  /** The figures the dashboard shows. */
  datatype Dashboard = Dashboard(
    totalCost: int,
    totalValue: int,
    totalProfit: int,
    lowStock: seq<Product>,
    topSales: seq<TopSeller>)

  /** The dashboard page, computed from the tables. */
  function ShowDashboard(shop: Shop): (d: Dashboard)
    ensures d.totalProfit == MarginSum(shop.products)
    ensures forall p :: p in d.lowStock <==> p in shop.products && p.qtyAtHand < LowStockBelow
    ensures |d.topSales| <= TopSalesLimit && ByUnitsDescending(d.topSales)
    ensures NamesUnique(shop.products) ==> OnePerName(d.topSales)
    ensures d.totalCost == StockCost(shop.products) && d.totalValue == StockValue(shop.products)
    ensures d.topSales == TopSales(shop)
  {
    ProfitIsMarginSum(shop.products);
    assert NamesUnique(shop.products) ==> OnePerName(TopSales(shop)) by {
      if NamesUnique(shop.products) {
        TopSalesOnePerName(shop);
      }
    }
    var cost := StockCost(shop.products);
    var value := StockValue(shop.products);
    Dashboard(cost, value, value - cost, LowStock(shop.products), TopSales(shop))
  }

  // ---------------------------------------------------------------- the handlers

  /** The `add_stock` handler, changing the product rows in place. */
  method AddStock(db: Store, f: AddStockForm) returns (outcome: Outcome)
    modifies db
    ensures IntakeResult(db.products, outcome) == Intake(old(db.products), f)
    ensures db.sales == old(db.sales) && db.log == old(db.log)
    ensures old(Balanced(db.State())) ==> Balanced(db.State())
    ensures old(db.Valid()) ==> db.Valid()
  {
    ghost var before := db.State();
    if !AddStockFormValid(f) {
      return FormRejected;
    }
    var found := FindByName(db.products, f.name);
    if found.Some? {
      var p := db.products[found.value];
      p := p.(qtyAtHand := p.qtyAtHand + f.quantity.value);
      p := p.(initialQty := p.initialQty + f.quantity.value);
      p := p.(costPrice := f.costPrice.value);
      p := p.(sellingPrice := f.sellingPrice.value);
      p := p.(expiry := DateValue(f.expiry));
      db.products := db.products[found.value := p];
    } else {
      var p := Product(
        name := f.name,
        category := f.category,
        expiry := DateValue(f.expiry),
        costPrice := f.costPrice.value,
        sellingPrice := f.sellingPrice.value,
        initialQty := f.quantity.value,
        qtyAtHand := f.quantity.value,
        safetyStock := None);
      db.products := db.products + [p];
    }
    outcome := StockUpdated;
    if Balanced(before) {
      IntakeKeepsBalance(before, f);
    }
    if Consistent(before) {
      IntakeKeepsNamesUnique(before.products, f);
    }
  }

  /** The `record_sale` handler: check the stock, then decrement it and log the sale. */
  method RecordSale(db: Store, f: RecordSaleForm, today: Date) returns (outcome: Outcome)
    modifies db
    ensures SaleResult(db.State(), outcome) == SaleEntry(old(db.State()), f, today)
    ensures db.log == old(db.log)
    ensures old(Balanced(db.State())) ==> Balanced(db.State())
    ensures old(db.Valid()) ==> db.Valid()
  {
    ghost var before := db.State();
    if !RecordSaleFormValid(f, db.products) {
      return FormRejected;
    }
    var i := f.productId.value - 1;
    var product := db.products[i];
    if product.qtyAtHand < f.quantity.value {
      outcome := NotEnoughStock;
    } else {
      product := product.(qtyAtHand := product.qtyAtHand - f.quantity.value);
      db.products := db.products[i := product];
      db.sales := db.sales + [Sale(f.productId.value, today, f.quantity.value)];
      outcome := SaleRecorded;
    }
    if Balanced(before) {
      SaleKeepsBalance(before, f, today);
    }
  }
}
