/**
 * The one-off import script: reads the rows of a CSV export and, row by row, overwrites the
 * product of the same exact name or adds a new one, counting both. The script commits once at
 * the end; an exception on any row ends it before the commit, so nothing is written.
 */
module CsvImport {
  import opened Common
  import opened PyText
  import opened Models

  /** The CSV columns the script reads. */
  const NameColumn: string := "Product Name"
  const CategoryColumn: string := "Category"
  const ExpiryColumn: string := "Expiry"
  const CostColumn: string := "Cost Price"
  const SellingColumn: string := "Selling Price"
  const InitialColumn: string := "Initial Quantity"
  const QtyColumn: string := "Quantity at Hand"

  /** The safety stock every added product gets. */
  const DefaultSafetyStock: int := 5

  /** A CSV row: the text under each header. */
  type CsvRow = map<string, string>

  /** `datetime.strptime(text, "%m/%d/%Y").date()`; None where it raises ValueError. */
  type DateParser = string -> Option<Date>

  /** The exceptions a conversion lets through. */
  datatype Raised = ValueError

  // ---------------------------------------------------------------- cleaning helpers

  /**
   * `clean_numeric`: every comma removed, then the surrounding whitespace. What is left holds
   * no comma, has no surrounding whitespace, and is a run of the comma-free text.
   */
  function CleanNumeric(val: string): (r: string)
    ensures ',' !in r
    ensures r != [] ==> !IsSpace(r[0]) && !IsSpace(r[|r| - 1])
    ensures |r| <= |val|
    ensures var e := Erase(val, ',');
            var i := StripOffset(e);
            && i + |r| <= |e| && r == e[i..i + |r|]
            && (forall k :: 0 <= k < i ==> IsSpace(e[k]))
            && (forall k :: i + |r| <= k < |e| ==> IsSpace(e[k]))
  {
    var e := Erase(val, ',');
    StripShape(e);
    NotInSlice(e, StripOffset(e), StripOffset(e) + |Strip(e)|, ',');
    Strip(e)
  }

  /** A character missing from a text is missing from every run of it. */
  lemma NotInSlice(s: string, i: nat, j: nat, c: char)
    requires i <= j <= |s| && c !in s
    ensures c !in s[i..j]
  {
    forall k | 0 <= k < j - i
      ensures s[i..j][k] != c
    {
      assert s[i..j][k] == s[i + k];
    }
  }

  /** Cleaning twice gives what cleaning once gives. */
  lemma CleanNumericIdempotent(val: string)
    ensures CleanNumeric(CleanNumeric(val)) == CleanNumeric(val)
  {
    var r := CleanNumeric(val);
    assert Erase(r, ',') == r;
    StripOfTrimmed(r);
  }

  /** The documented example: '1,234.50' cleans to '1234.50'. */
  lemma CleanNumericExample()
    ensures CleanNumeric("1,234.50") == "1234.50"
  {
    assert "1,234.50" == "1" + [','] + "234.50";
    EraseSingle("1", "234.50", ',');
    assert "1" + "234.50" == "1234.50";
    StripOfTrimmed("1234.50");
  }

  /** Erasing the one `c` between two texts without `c` joins them. */
  lemma {:induction false} EraseSingle(a: string, b: string, c: char)
    requires c !in a && c !in b
    ensures Erase(a + [c] + b, c) == a + b
  {
    if a == [] {
      assert ([c] + b)[1..] == b;
    } else {
      assert (a + [c] + b)[1..] == a[1..] + [c] + b;
      EraseSingle(a[1..], b, c);
    }
  }

  /**
   * `float_or_zero`: the float of the cleaned text, or 0 for an empty text and for a text
   * `float()` refuses; it never raises.
   */
  function FloatOrZero(val: string, parse: NumeralParser): (x: real)
    ensures PyFloat(CleanNumeric(val), parse).Some? ==> x == PyFloat(CleanNumeric(val), parse).value
    ensures PyFloat(CleanNumeric(val), parse).None? ==> x == 0.0
  {
    if val == "" then 0.0
    else match PyFloat(CleanNumeric(val), parse)
      case None => 0.0
      case Some(x) => x
  }

  /** An empty or blank amount is worth 0. */
  lemma FloatOrZeroOfBlank(val: string, parse: NumeralParser)
    requires CleanNumeric(val) == ""
    ensures FloatOrZero(val, parse) == 0.0
  {
  }

  /**
   * `int_or_zero`: 0 when the cleaned text is empty, else `int(float(...))` of it, which
   * raises ValueError where `float()` does.
   */
  function IntOrZero(val: string, parse: NumeralParser): (r: Result<int, Raised>)
    ensures CleanNumeric(val) == "" ==> r == Ok(0)
    ensures CleanNumeric(val) != "" ==> (r.Ok? <==> PyFloat(CleanNumeric(val), parse).Some?)
    ensures r.Ok? && CleanNumeric(val) != "" ==> r.value == Trunc(PyFloat(CleanNumeric(val), parse).value)
  {
    var v := CleanNumeric(val);
    if v == "" then Ok(0)
    else match PyFloat(v, parse)
      case None => Err(ValueError)
      case Some(x) => Ok(Trunc(x))
  }

  /** A count written with thousands separators and padding is read as its digits' value. */
  lemma IntOrZeroOfDigits(val: string, parse: NumeralParser)
    requires AllDigits(CleanNumeric(val))
    ensures IntOrZero(val, parse) == Ok(DigitsValue(CleanNumeric(val)))
  {
    var v := CleanNumeric(val);
    StripOfTrimmed(v);
    assert PyFloat(v, parse) == Some(DigitsValue(v) as real);
  }

  /** `parse_date`: no date for an empty text, else `strptime`, which may raise. */
  function ParseDate(text: string, strptime: DateParser): (r: Result<Option<Date>, Raised>)
    ensures text == "" ==> r == Ok(None)
    ensures text != "" ==> (r.Ok? <==> strptime(text).Some?)
    ensures text != "" && r.Ok? ==> r.value == strptime(text)
  {
    if text == "" then Ok(None)
    else match strptime(text)
      case None => Err(ValueError)
      case Some(d) => Ok(Some(d))
  }

  // ---------------------------------------------------------------- the upsert loop

  /** The values a row writes to a product, in whole cents for the prices. */
  datatype RowValues = RowValues(qtyAtHand: int, initialQty: int, costPrice: int, sellingPrice: int, expiry: Option<Date>)

  /**
   * The values of a row; None when a column is missing or a conversion raises. Only the two
   * counts and the date can raise: a price that does not convert reads as 0.
   */
  function ReadValues(row: CsvRow, parse: NumeralParser, strptime: DateParser): (r: Option<RowValues>)
    ensures r.None? <==>
              || QtyColumn !in row || InitialColumn !in row || CostColumn !in row || SellingColumn !in row || ExpiryColumn !in row
              || IntOrZero(row[QtyColumn], parse).Err? || IntOrZero(row[InitialColumn], parse).Err?
              || ParseDate(row[ExpiryColumn], strptime).Err?
    ensures r.Some? ==> && r.value.qtyAtHand == IntOrZero(row[QtyColumn], parse).value
                        && r.value.initialQty == IntOrZero(row[InitialColumn], parse).value
                        && r.value.expiry == ParseDate(row[ExpiryColumn], strptime).value
                        && r.value.costPrice == Cents(FloatOrZero(row[CostColumn], parse))
                        && r.value.sellingPrice == Cents(FloatOrZero(row[SellingColumn], parse))
  {
    if QtyColumn !in row || InitialColumn !in row || CostColumn !in row || SellingColumn !in row || ExpiryColumn !in row then None
    else
      var qty := IntOrZero(row[QtyColumn], parse);
      var initial := IntOrZero(row[InitialColumn], parse);
      var expiry := ParseDate(row[ExpiryColumn], strptime);
      if qty.Err? || initial.Err? || expiry.Err? then None
      else Some(RowValues(qty.value, initial.value, Cents(FloatOrZero(row[CostColumn], parse)),
                          Cents(FloatOrZero(row[SellingColumn], parse)), expiry.value))
  }

  /** The row's name, stripped; None when the column is missing. */
  function RowName(row: CsvRow): Option<string> {
    if NameColumn in row then Some(Strip(row[NameColumn])) else None
  }

  /** A row the loop skips: its stripped name is empty. */
  predicate Unnamed(row: CsvRow) {
    RowName(row) == Some("")
  }

  /** A row that makes the script raise: no name column, or a named row whose values do not read. */
  predicate Raises(row: CsvRow, parse: NumeralParser, strptime: DateParser) {
    RowName(row).None? || (!Unnamed(row) && ReadValues(row, parse, strptime).None?)
  }

  /** A product overwritten from a row: stock, initial quantity, prices and expiry; name, category and safety stock kept. */
  function Overwritten(p: Product, v: RowValues): (q: Product)
    ensures q.name == p.name && q.category == p.category && q.safetyStock == p.safetyStock
    ensures q.qtyAtHand == v.qtyAtHand && q.initialQty == v.initialQty && q.expiry == v.expiry
    ensures q.costPrice == v.costPrice && q.sellingPrice == v.sellingPrice
  {
    p.(qtyAtHand := v.qtyAtHand, initialQty := v.initialQty, costPrice := v.costPrice,
       sellingPrice := v.sellingPrice, expiry := v.expiry)
  }

  /** The product added for a new name: the row's values, its stripped category ('' without the column), safety stock 5. */
  function Added(name: string, row: CsvRow, v: RowValues): (p: Product)
    ensures p.name == name && p.safetyStock == Some(DefaultSafetyStock)
    ensures CategoryColumn !in row ==> p.category == ""
    ensures CategoryColumn in row ==> p.category == Strip(row[CategoryColumn])
    ensures p.qtyAtHand == v.qtyAtHand && p.initialQty == v.initialQty && p.expiry == v.expiry
    ensures p.costPrice == v.costPrice && p.sellingPrice == v.sellingPrice
  {
    var category := if CategoryColumn in row then Strip(row[CategoryColumn]) else "";
    Product(name, category, v.expiry, v.costPrice, v.sellingPrice, v.initialQty, v.qtyAtHand, Some(DefaultSafetyStock))
  }

  /** What the loop did with a row. */
  datatype Upsert = Skipped | Updated(index: nat) | Inserted

  datatype RowResult = RowResult(products: seq<Product>, upsert: Upsert)

  /**
   * One turn of the loop: skip an unnamed row; overwrite the product of exactly that name;
   * or add a new product. None when the row makes the script raise.
   */
  function ImportRow(products: seq<Product>, row: CsvRow, parse: NumeralParser, strptime: DateParser): (r: Option<RowResult>)
    ensures r.None? <==> Raises(row, parse, strptime)
    ensures Unnamed(row) ==> r == Some(RowResult(products, Skipped))
    ensures r.Some? && r.value.upsert.Updated? ==>
              var i := r.value.upsert.index;
              && RowName(row).Some? && FindByName(products, RowName(row).value) == Some(i)
              && ReadValues(row, parse, strptime).Some?
              && r.value.products == products[i := Overwritten(products[i], ReadValues(row, parse, strptime).value)]
    ensures r.Some? && r.value.upsert.Inserted? ==>
              && RowName(row).Some? && RowName(row).value != "" && FindByName(products, RowName(row).value).None?
              && ReadValues(row, parse, strptime).Some?
              && r.value.products == products + [Added(RowName(row).value, row, ReadValues(row, parse, strptime).value)]
    ensures r.Some? ==> |r.value.products| == |products| + (if r.value.upsert.Inserted? then 1 else 0)
    ensures r.Some? && !Unnamed(row) ==> !r.value.upsert.Skipped?
    ensures r.Some? && NamesUnique(products) ==> NamesUnique(r.value.products)
  {
    match RowName(row)
    case None => None
    case Some(name) =>
      if name == "" then Some(RowResult(products, Skipped))
      else match ReadValues(row, parse, strptime)
        case None => None
        case Some(v) =>
          match FindByName(products, name)
          case Some(i) => Some(RowResult(products[i := Overwritten(products[i], v)], Updated(i)))
          case None => Some(RowResult(products + [Added(name, row, v)], Inserted))
  }

  /** How many rows have a non-blank name. */
  function NamedRows(rows: seq<CsvRow>): nat {
    if rows == [] then 0
    else NamedRows(rows[..|rows| - 1]) + (if Unnamed(rows[|rows| - 1]) then 0 else 1)
  }

  /** The catalog after the loop and its two counters. */
  datatype ImportReport = ImportReport(products: seq<Product>, added: nat, updated: nat)

  /** One turn of the loop on the running report: a row that raises stops the import for good. */
  function Tick(acc: Option<ImportReport>, row: CsvRow, parse: NumeralParser, strptime: DateParser): (r: Option<ImportReport>)
    ensures r.None? <==> acc.None? || Raises(row, parse, strptime)
    ensures acc.Some? && Unnamed(row) ==> r == acc
    ensures r.Some? ==> acc.Some? && r.value.added + r.value.updated == acc.value.added + acc.value.updated + (if Unnamed(row) then 0 else 1)
    ensures r.Some? ==> r.value.added >= acc.value.added && |r.value.products| - r.value.added == |acc.value.products| - acc.value.added
    ensures r.Some? && NamesUnique(acc.value.products) ==> NamesUnique(r.value.products)
  {
    match acc
    case None => None
    case Some(report) =>
      match ImportRow(report.products, row, parse, strptime)
      case None => None
      case Some(step) =>
        match step.upsert
        case Skipped => Some(report)
        case Updated(_) => Some(ImportReport(step.products, report.added, report.updated + 1))
        case Inserted => Some(ImportReport(step.products, report.added + 1, report.updated))
  }

  /**
   * The whole loop: None when a row raises (nothing is committed then). Every named row is
   * counted once, as added or as updated, each addition is one product more, and names stay
   * unique.
   */
  function ImportAll(products: seq<Product>, rows: seq<CsvRow>, parse: NumeralParser, strptime: DateParser): (r: Option<ImportReport>)
    ensures r.Some? ==> r.value.added + r.value.updated == NamedRows(rows)
    ensures r.Some? ==> |r.value.products| == |products| + r.value.added
    ensures r.Some? && NamesUnique(products) ==> NamesUnique(r.value.products)
    ensures (forall k :: 0 <= k < |rows| ==> Unnamed(rows[k])) ==> r == Some(ImportReport(products, 0, 0))
  {
    if rows == [] then Some(ImportReport(products, 0, 0))
    else
      var n := |rows| - 1;
      assert forall k :: 0 <= k < n ==> rows[..n][k] == rows[k];
      Tick(ImportAll(products, rows[..n], parse, strptime), rows[n], parse, strptime)
  }

  /** Some row makes the script raise. */
  predicate AnyRaises(rows: seq<CsvRow>, parse: NumeralParser, strptime: DateParser) {
    exists k :: 0 <= k < |rows| && Raises(rows[k], parse, strptime)
  }

  /** Some row raises exactly when one of the rows before the last does, or the last does. */
  lemma AnyRaisesSplit(rows: seq<CsvRow>, parse: NumeralParser, strptime: DateParser)
    requires rows != []
    ensures AnyRaises(rows, parse, strptime) <==>
            AnyRaises(rows[..|rows| - 1], parse, strptime) || Raises(rows[|rows| - 1], parse, strptime)
  {
    var n := |rows| - 1;
    if AnyRaises(rows[..n], parse, strptime) {
      var k :| 0 <= k < n && Raises(rows[..n][k], parse, strptime);
      assert rows[k] == rows[..n][k];
    }
    if AnyRaises(rows, parse, strptime) {
      var k :| 0 <= k < |rows| && Raises(rows[k], parse, strptime);
      if k < n {
        assert rows[..n][k] == rows[k];
      }
    }
  }

  /** The import completes exactly when no row raises. */
  lemma {:induction false} ImportRaisesIff(products: seq<Product>, rows: seq<CsvRow>, parse: NumeralParser, strptime: DateParser)
    ensures ImportAll(products, rows, parse, strptime).None? <==> AnyRaises(rows, parse, strptime)
  {
    if rows != [] {
      var n := |rows| - 1;
      var acc := ImportAll(products, rows[..n], parse, strptime);
      assert ImportAll(products, rows, parse, strptime) == Tick(acc, rows[n], parse, strptime);
      ImportRaisesIff(products, rows[..n], parse, strptime);
      AnyRaisesSplit(rows, parse, strptime);
    }
  }

  /** Importing one row more is one more turn of the loop. */
  lemma ImportOneMore(products: seq<Product>, rows: seq<CsvRow>, k: nat, parse: NumeralParser, strptime: DateParser)
    requires k < |rows|
    ensures ImportAll(products, rows[..k + 1], parse, strptime) == Tick(ImportAll(products, rows[..k], parse, strptime), rows[k], parse, strptime)
  {
    assert rows[..k + 1][..k] == rows[..k];
  }

  /** Once a row has raised, the import stays stopped whatever rows follow. */
  lemma {:induction false} ImportStops(products: seq<Product>, rows: seq<CsvRow>, k: nat, parse: NumeralParser, strptime: DateParser)
    requires k <= |rows| && ImportAll(products, rows[..k], parse, strptime).None?
    ensures ImportAll(products, rows, parse, strptime).None?
    decreases |rows| - k
  {
    if k == |rows| {
      assert rows[..k] == rows;
    } else {
      ImportOneMore(products, rows, k, parse, strptime);
      ImportStops(products, rows, k + 1, parse, strptime);
    }
  }

  /** One row on the database: skip it, overwrite the product of that name in place, or add one. */
  method WriteRow(db: Store, row: CsvRow, parse: NumeralParser, strptime: DateParser) returns (upsert: Option<Upsert>)
    modifies db
    ensures var r := ImportRow(old(db.products), row, parse, strptime);
            && (r.None? <==> upsert.None?)
            && (r.Some? ==> upsert == Some(r.value.upsert) && db.products == r.value.products)
    ensures db.sales == old(db.sales) && db.log == old(db.log)
  {
    if NameColumn !in row {
      return None;
    }
    var name := Strip(row[NameColumn]);
    if name == "" {
      return Some(Skipped);
    }
    var values := ReadValues(row, parse, strptime);
    if values.None? {
      return None;
    }
    var v := values.value;
    var found := FindByName(db.products, name);
    if found.Some? {
      var i := found.value;
      var p := db.products[i];
      p := p.(qtyAtHand := v.qtyAtHand);
      p := p.(initialQty := v.initialQty);
      p := p.(costPrice := v.costPrice);
      p := p.(sellingPrice := v.sellingPrice);
      p := p.(expiry := v.expiry);
      db.products := db.products[i := p];
      upsert := Some(Updated(i));
    } else {
      var category := if CategoryColumn in row then Strip(row[CategoryColumn]) else "";
      var p := Product(name, category, v.expiry, v.costPrice, v.sellingPrice, v.initialQty, v.qtyAtHand, Some(DefaultSafetyStock));
      db.products := db.products + [p];
      upsert := Some(Inserted);
    }
  }

  /** One turn of the loop: the row written, and the counter of what happened to it raised. */
  method UpsertRow(db: Store, row: CsvRow, parse: NumeralParser, strptime: DateParser, added: nat, updated: nat)
    returns (raised: bool, added': nat, updated': nat)
    modifies db
    ensures var r := Tick(Some(ImportReport(old(db.products), added, updated)), row, parse, strptime);
            && (r.None? <==> raised)
            && (r.Some? ==> r.value == ImportReport(db.products, added', updated'))
    ensures db.sales == old(db.sales) && db.log == old(db.log)
  {
    added', updated' := added, updated;
    var upsert := WriteRow(db, row, parse, strptime);
    raised := upsert.None?;
    if upsert.Some? {
      match upsert.value {
        case Skipped =>
        case Updated(_) => updated' := updated + 1;
        case Inserted => added' := added + 1;
      }
    }
  }

  /**
   * The script on the database: the loop changes the session's products in place and counts;
   * the commit at the end keeps the changes. A row that raises ends the script before the
   * commit, so the products stay as they were.
   */
  method RunImport(db: Store, rows: seq<CsvRow>, parse: NumeralParser, strptime: DateParser)
    returns (counts: Option<(nat, nat)>)
    modifies db
    ensures var r := ImportAll(old(db.products), rows, parse, strptime);
            && (r.None? ==> counts.None? && db.products == old(db.products))
            && (r.Some? ==> counts == Some((r.value.added, r.value.updated)) && db.products == r.value.products)
    ensures db.sales == old(db.sales) && db.log == old(db.log)
    ensures old(db.Valid()) ==> db.Valid()
  {
    var saved := db.products;
    var added: nat, updated: nat := 0, 0;
    for k := 0 to |rows|
      invariant ImportAll(saved, rows[..k], parse, strptime) == Some(ImportReport(db.products, added, updated))
      invariant db.sales == old(db.sales) && db.log == old(db.log)
    {
      ImportOneMore(saved, rows, k, parse, strptime);
      var raised;
      raised, added, updated := UpsertRow(db, rows[k], parse, strptime, added, updated);
      if raised {
        ImportStops(saved, rows, k + 1, parse, strptime);
        db.products := saved;
        return None;
      }
    }
    assert rows[..|rows|] == rows;
    counts := Some((added, updated));
  }
}
