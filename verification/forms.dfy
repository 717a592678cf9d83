/**
 * The input checks of the shop's web forms, as predicates over the data a request carries.
 * Amounts of money are whole cents, so the `NumberRange(min=0.01)` bound is "at least 1 cent".
 */
module Forms {
  import opened Common
  import opened PyText
  import opened Models

  /** What a numeric form field holds once the request has been read. */
  datatype NumberInput =
    | Missing              // the field is not in the submitted data
    | Blank                // submitted empty or whitespace only
    | NotANumber           // submitted text that does not convert
    | Number(value: int)   // converted value (cents for a price)

  /** What a date field holds once the request has been read. */
  datatype DateInput = NoDate | BadDate | GoodDate(date: Date)

  datatype AddStockForm = AddStockForm(
    name: string,
    category: string,
    expiry: DateInput,
    costPrice: NumberInput,
    sellingPrice: NumberInput,
    quantity: NumberInput,
    safetyStock: NumberInput)

  datatype RecordSaleForm = RecordSaleForm(productId: NumberInput, quantity: NumberInput, unitPrice: NumberInput)

  datatype EditProductForm = EditProductForm(
    name: string,
    category: string,
    expiry: DateInput,
    costPrice: NumberInput,
    sellingPrice: NumberInput)

  datatype EditSaleForm = EditSaleForm(qtySold: NumberInput, unitPrice: NumberInput)

  /** `DataRequired()` on a text field: something other than whitespace was entered. */
  predicate DataRequired(s: string) {
    Strip(s) != ""
  }

  /** `NumberRange(min=m)` on a field without a default: a number was given and it is at least m. */
  predicate NumberAtLeast(d: NumberInput, m: int) {
    d.Number? && d.value >= m
  }

  /** `Optional(), NumberRange(min=m)`: left empty, or a number of at least m. */
  predicate OptionalNumberAtLeast(d: NumberInput, m: int) {
    d.Missing? || d.Blank? || NumberAtLeast(d, m)
  }

  /** A date field without validators still refuses text that is not a date. */
  predicate DateAccepted(d: DateInput) {
    !d.BadDate?
  }

  /** The value a date field hands to the handler. */
  function DateValue(d: DateInput): Option<Date> {
    if d.GoodDate? then Some(d.date) else None
  }

  /** The safety-stock field: a missing value takes the default 5; a given one must be at least 0. */
  function SafetyStockValue(d: NumberInput): (r: Option<int>)
    ensures r.Some? ==> r.value >= 0
    ensures d.Missing? ==> r == Some(5)
    ensures d.Blank? || d.NotANumber? ==> r.None?
  {
    match d
    case Missing => Some(5)
    case Number(v) => if v >= 0 then Some(v) else None
    case _ => None
  }

  /** `AddStockForm.validate()`. */
  predicate AddStockFormValid(f: AddStockForm): (ok: bool)
    ensures ok ==> Strip(f.name) != "" && f.quantity.Number? && f.quantity.value >= 1
    ensures ok ==> f.costPrice.Number? && f.costPrice.value >= 1 && f.sellingPrice.Number? && f.sellingPrice.value >= 1
    ensures ok ==> SafetyStockValue(f.safetyStock).Some?
  {
    && DataRequired(f.name)
    && DateAccepted(f.expiry)
    && NumberAtLeast(f.costPrice, 1)
    && NumberAtLeast(f.sellingPrice, 1)
    && NumberAtLeast(f.quantity, 1)
    && SafetyStockValue(f.safetyStock).Some?
  }

  /**
   * `RecordSaleForm.validate()`: `DataRequired` on the id (a zero id is falsy), the
   * `validate_product_id` existence check, the quantity bound and the optional override price.
   */
  predicate RecordSaleFormValid(f: RecordSaleForm, products: seq<Product>): (ok: bool)
    ensures ok ==> f.productId.Number? && IsProductId(products, f.productId.value)
    ensures ok ==> f.quantity.Number? && f.quantity.value >= 1
    ensures ok && f.unitPrice.Number? ==> f.unitPrice.value >= 1
  {
    && f.productId.Number? && f.productId.value != 0
    && IsProductId(products, f.productId.value)
    && NumberAtLeast(f.quantity, 1)
    && OptionalNumberAtLeast(f.unitPrice, 1)
  }

  /** `EditProductForm.validate()`. */
  predicate EditProductFormValid(f: EditProductForm): (ok: bool)
    ensures ok ==> Strip(f.name) != ""
    ensures ok ==> f.costPrice.Number? && f.costPrice.value >= 1 && f.sellingPrice.Number? && f.sellingPrice.value >= 1
  {
    && DataRequired(f.name)
    && DateAccepted(f.expiry)
    && NumberAtLeast(f.costPrice, 1)
    && NumberAtLeast(f.sellingPrice, 1)
  }

  /** `EditSaleForm.validate()`. */
  predicate EditSaleFormValid(f: EditSaleForm): (ok: bool)
    ensures ok ==> f.qtySold.Number? && f.qtySold.value >= 1
    ensures ok && f.unitPrice.Number? ==> f.unitPrice.value >= 1
  {
    NumberAtLeast(f.qtySold, 1) && OptionalNumberAtLeast(f.unitPrice, 1)
  }

  /** The override unit price follows one rule on sale entry and on sale edit. */
  lemma {:induction false} UnitPriceRuleShared(sale: RecordSaleForm, edit: EditSaleForm, products: seq<Product>)
    requires sale.unitPrice == edit.unitPrice && sale.quantity == edit.qtySold
    requires sale.productId.Number? && sale.productId.value != 0 && IsProductId(products, sale.productId.value)
    ensures RecordSaleFormValid(sale, products) <==> EditSaleFormValid(edit)
  {
  }

  /** The choices of `BatchInventoryForm.update_mode`. */
  datatype UpdateMode = AddStock | ReplaceStock | UpdatePrices | FullUpdate

  /** The submitted value of each choice. */
  function ModeName(m: UpdateMode): string {
    match m
    case AddStock => "add_stock"
    case ReplaceStock => "replace_stock"
    case UpdatePrices => "update_prices"
    case FullUpdate => "full_update"
  }

  /**
   * The choice a submitted `update_mode` selects: 'add_stock' when nothing is submitted,
   * None (a validation error) for a value that is not one of the four choices.
   */
  function SelectMode(submitted: Option<string>): (m: Option<UpdateMode>)
    ensures submitted.None? ==> m == Some(AddStock)
    ensures submitted.Some? ==> (m.Some? <==> exists u :: ModeName(u) == submitted.value)
    ensures submitted.Some? && m.Some? ==> ModeName(m.value) == submitted.value
  {
    match submitted
    case None => Some(AddStock)
    case Some(s) =>
      if s == "add_stock" then assert ModeName(AddStock) == s; Some(AddStock)
      else if s == "replace_stock" then assert ModeName(ReplaceStock) == s; Some(ReplaceStock)
      else if s == "update_prices" then assert ModeName(UpdatePrices) == s; Some(UpdatePrices)
      else if s == "full_update" then assert ModeName(FullUpdate) == s; Some(FullUpdate)
      else None
  }

  /** Every choice's name selects that choice again. */
  lemma {:induction false} SelectModeRoundTrip(m: UpdateMode)
    ensures SelectMode(Some(ModeName(m))) == Some(m)
  {
    match m
    case AddStock =>
    case ReplaceStock =>
    case UpdatePrices =>
    case FullUpdate =>
  }

  /** The extensions `FileAllowed` accepts on the spreadsheet upload. */
  const FormExtensions: seq<string> := ["csv", "xlsx", "xls"]

  /**
   * `FileRequired()` and `FileAllowed([...])`: a file was chosen and its lower-cased name
   * ends with '.' followed by one of the extensions.
   */
  predicate BatchUploadAllowed(filename: Option<string>) {
    filename.Some? && filename.value != ""
    && exists k :: 0 <= k < |FormExtensions| && EndsWith(Lower(filename.value), "." + FormExtensions[k])
  }

  /** `BatchInventoryForm.validate()`. */
  predicate BatchInventoryFormValid(filename: Option<string>, mode: Option<string>): (ok: bool)
    ensures ok ==> filename.Some? && SelectMode(mode).Some?
  {
    BatchUploadAllowed(filename) && SelectMode(mode).Some?
  }
}
