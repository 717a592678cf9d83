# Inventory consistency of a point-of-sale app, in Dafny

This project models the stock-keeping core of a small shop's point-of-sale web app. It covers three parts.

- **The stock ledger of the main handlers.** `add_stock` restocks the product of that exact name or creates it. `record_sale` checks the stock, takes the sold quantity off it and appends a sale. The dashboard shows stock cost, stock value, profit, the low-stock list and the five best sellers. The ledger invariant is proved to hold across any sequence of intakes and sales: stock is never negative, and for every product `initial_qty - qty_at_hand` equals the units its sales record.
- **The manager's spreadsheet import.** This covers:
  - the upload filter;
  - header-alias resolution with its two defaults;
  - row validation, which collects messages;
  - the preview, which cleans the accepted rows, looks products up ignoring case and applies the per-mode quantity rule;
  - the confirm step, which writes different groups of fields depending on the update mode, counts successes and errors, and commits or rolls back.
- **The one-off CSV import script.** Its cleaning helpers, and the exact-name upsert loop with its `added` and `updated` counters.

The form validators are modelled as predicates. They are the preconditions the handlers rely on.

Modules:
- `Common`: Option and Result.
- `PyText`: the parts of Python's `str` and `float()` the code relies on.
- `Models`: the tables and their constraints, and the `Store` class, which holds the session's tables and is changed in place.
- `Forms`: the form validators.
- `Ledger`: the main handlers and the dashboard.
- `BatchImport`: the spreadsheet import.
- `CsvImport`: the import script.

Conventions:
- **Prices** are whole cents. A float amount becomes cents with halves rounded up.
- **Product ids.** Products are a sequence, and the product at position `i` has id `i + 1`. No core code deletes a product.
- **Case-insensitive lookup.** `.first()` picks the first match in id order.
- **Float parsing.** `float()` is modelled concretely for blank text, which it refuses, and for plain ASCII digit strings, which are read exactly. The rest of its grammar (signs, fractions, exponents) is a parameter `parse: string -> Option<real>`.
- **Date parsing.** `strptime` and `pd.to_datetime` are parameters as well.
- **Handlers.** Every handler that changes state is a module-level method that takes the session's `Store` and changes its tables in place. Each is proved equal to a function on values, and the properties are proved about those functions.

## Model

| member | source | states |
|---|---|---|
| Models.FindByName | app.py:30 | the exact-name lookup returns the first product with that name, and None only when no product has it |
| Models.FindByNameIgnoringCase | batch_inventory_routes.py:118-120 | the lower-cased lookup returns the first product whose lower-cased name equals the lower-cased name, and None only when there is none |
| Models.ExactMatchIsCaseInsensitiveMatch | batch_inventory_routes.py:247-249 | a product found by exact name is also found ignoring case, at the same position or an earlier one |
| Models.Store.constructor | models.py:6-22 | the session starts with empty product, sale and log tables |
| Forms.SafetyStockValue | forms.py:15-17 | a missing safety stock defaults to 5; a given one is accepted only when it is at least 0 |
| Forms.AddStockFormValid | forms.py:7-17 | a valid intake has a non-blank name, a quantity of at least 1, both prices of at least one cent, and a usable safety stock |
| Forms.RecordSaleFormValid | forms.py:21-30 | a valid sale names an existing, non-zero product id and a quantity of at least 1; an override price, when given, is at least one cent |
| Forms.EditProductFormValid | forms.py:43-48 | an edited product has a non-blank name and both prices of at least one cent |
| Forms.EditSaleFormValid | forms.py:56-58 | an edited sale has a quantity of at least 1; an override price, when given, is at least one cent |
| Forms.UnitPriceRuleShared | forms.py:24 | the override-price rule, and the quantity rule, are the same on sale entry and on sale edit |
| Forms.SelectMode | forms.py:66-71 | no submitted mode selects 'add_stock'; a submitted value is accepted exactly when it is one of the four choice names, and then it selects that choice |
| Forms.SelectModeRoundTrip | forms.py:66-71 | each of the four update modes is selected by its own name |
| Forms.BatchInventoryFormValid | forms.py:61-71 | a valid upload form has a file and a mode that is one of the four choices |
| Ledger.Intake | app.py:26-47 | an invalid form is rejected and changes nothing; a valid one is accepted, adds at most one product, and leaves a product findable by the entered name |
| Ledger.RestockExisting | app.py:31-36 | restocking a known name adds the quantity to both `qty_at_hand` and `initial_qty`, so their difference is unchanged; it overwrites the prices and expiry, keeps the name, category and safety stock, and changes no other product |
| Ledger.CreateUnknown | app.py:37-47 | an unknown name appends exactly one product with `initial_qty == qty_at_hand ==` the quantity, and the exact-name lookup then finds it |
| Ledger.IntakeKeepsNamesUnique | models.py:8 | a stock intake never makes two products share a name |
| Ledger.SaleEntry | app.py:53-64 | a sale request is rejected exactly when the form is invalid; only a recorded sale changes the tables, appending exactly one sale; the product count never changes, and every sale still refers to a product |
| Ledger.SaleNeedsStock | app.py:59-60 | a sale is refused exactly when its quantity exceeds the stock, and a refused sale changes neither table; selling exactly the stock is allowed and leaves 0 |
| Ledger.SaleAccepted | app.py:61-64 | an accepted sale lowers that product's stock by the quantity and never below 0, leaves `initial_qty` alone, appends one sale of that quantity, and leaves every other product as it was |
| Ledger.IntakeKeepsBalance | app.py:31-33 | stock intake keeps the ledger invariant: the schema constraints hold, stock is not negative, and `initial_qty - qty_at_hand` is the product's units sold |
| Ledger.SaleKeepsBalance | app.py:62-63 | a sale request keeps the ledger invariant |
| Ledger.LedgerStaysBalanced | app.py:26-68 | across any sequence of intakes and sales, the ledger invariant holds |
| Ledger.ProfitIsMarginSum | app.py:18-20 | total value minus total cost equals the sum of `qty_at_hand * (selling_price - cost_price)` |
| Ledger.ProfitNotNegative | app.py:18-20 | when no stock is negative and no product sells below cost, the profit figure is not negative |
| Ledger.LowStock | app.py:21 | the low-stock list holds exactly the products with fewer than 5 units on hand |
| Ledger.Sellers | app.py:22-23 | the grouped sales hold one line per product with at least one sale, giving its name and its units sold, and no other line; with unique product names no name appears twice |
| Ledger.SortByUnits | app.py:23 | ordering by units gives a non-increasing sequence that rearranges its input |
| Ledger.FirstFive | app.py:23 | `limit(5)` keeps at most five lines of the sorted list, still in order and drawn from it; a line left out sold no more than the last one kept |
| Ledger.TopSales | app.py:22-23 | at most 5 lines, in non-increasing units, drawn from the grouped sales; any line left out sold no more than the last one shown |
| Ledger.TopSalesOnePerName | app.py:22-23 | with unique product names, the dashboard lists each best seller at most once |
| Ledger.ShowDashboard | app.py:15-24 | the cost and value figures are the stock sums, the profit figure is the margin sum, the low-stock list is exactly the products under 5 units, and the best sellers are the top-sales list: at most 5 in non-increasing order, one line per name |
| Ledger.AddStock | app.py:26-47 | the handler's in-place writes give the same table as the intake function; sales and log do not change; the ledger invariant and the schema constraints are kept |
| Ledger.RecordSale | app.py:53-64 | the handler's in-place check and decrement give the same tables as the sale function; the ledger invariant and the schema constraints are kept |
| BatchImport.AllowedFile | batch_inventory_routes.py:16-17 | a name is accepted exactly when it has a '.' and the lower-cased text after the last one is csv, xlsx or xls |
| BatchImport.AllowedFileMeans | batch_inventory_routes.py:16-17 | `allowed_file` accepts a name exactly when it has a '.' with no '.' after it, and the lower-cased text after that '.' is csv, xlsx or xls |
| BatchImport.DottedSuffix | batch_inventory_routes.py:17 | the lower-cased name ends in '.' plus a dot-free extension exactly when that extension is the lower-cased text after the last '.' |
| BatchImport.FormatKnownIffAllowed | batch_inventory_routes.py:55-61 | the reader picks a format for a name exactly when `allowed_file` accepts it |
| BatchImport.UploadChecksAgree | forms.py:62-65 | the form's `FileAllowed` check and `allowed_file` accept the same names |
| BatchImport.FirstColumn | batch_inventory_routes.py:76-80 | a standard field takes the first column whose lower-cased, stripped header is one of its aliases, and none when no header is |
| BatchImport.Standardize | batch_inventory_routes.py:74-86 | a resolved field holds its column's cell; a missing safety stock is 5 and a missing category 'General'; no other field is present |
| BatchImport.FieldMessages | batch_inventory_routes.py:25-27 | every failing field gets its message, each message is about a failing field of this row, there are no more messages than fields, and there are none exactly when no field fails (the order is FieldMessagesInOrder) |
| BatchImport.FieldMessagesInOrder | batch_inventory_routes.py:24-38 | the messages come in the order of the field list, so with each field listed once no field draws two messages and a missing name is reported before a missing price |
| BatchImport.FieldMessagesDistinct | batch_inventory_routes.py:24-38 | with each field listed once, no two messages of a row are about the same field |
| BatchImport.RowErrors | batch_inventory_routes.py:19-49 | every message carries the row number, and a row has no message exactly when all four required fields are present and non-blank, no numeric field is negative or unreadable, and the quantity is a non-negative number |
| BatchImport.NegativeQuantityReportedTwice | batch_inventory_routes.py:30-47 | a negative quantity gets a 'must be positive' message from the numeric check and then a second one from the whole-number check |
| BatchImport.DigitRowPasses | batch_inventory_routes.py:24-47 | a row with a name and plain digit amounts passes validation; zero is not refused |
| BatchImport.CheckFields | batch_inventory_routes.py:25-38 | the loop that appends a message per failing field produces exactly the field-message list |
| BatchImport.ValidateRowData | batch_inventory_routes.py:19-49 | the method's messages are exactly the row's validation messages |
| BatchImport.NewQuantity | batch_inventory_routes.py:125-137 | a new product gets the row's quantity; an existing one gains the quantity in 'add_stock', is set to it in 'replace_stock', and keeps its stock in every other mode; non-negative inputs give a non-negative result |
| BatchImport.CleanRow | batch_inventory_routes.py:101-155 | for a validated row, the cleaning fails exactly when the safety-stock cell is empty or not a number; otherwise the preview carries a non-empty name, non-negative prices and quantity (what each value is read from is CleanRowReadsCells); it is an update exactly when some product has that name ignoring case, and then carries that product's prices and stock as the previous values and the mode rule's new quantity; a create's new quantity is its quantity |
| BatchImport.CleanRowReadsCells | batch_inventory_routes.py:100-113 | a cleaned row carries the stripped name, the stripped category or 'General', the prices in cents of the cells without separators or currency sign, the truncated quantity without separators and the truncated safety stock, and the expiry the date parser gives for the cell |
| BatchImport.Examine | batch_inventory_routes.py:95-99 | a row is rejected exactly when validation reports something, and then it contributes exactly those messages; otherwise it is cleaned |
| BatchImport.Collect | batch_inventory_routes.py:92-99 | on success, the error list is all rejected rows' messages in row order, and there are no more results than rows |
| BatchImport.CollectOnlyCleaned | batch_inventory_routes.py:140-155 | every collected result is the preview of some row that was cleaned |
| BatchImport.CollectHasCleaned | batch_inventory_routes.py:97-155 | when the loop succeeds, every row that reached cleaning converted, and its preview is among the results |
| BatchImport.CollectFailure | batch_inventory_routes.py:101-107 | a failed loop failed with the failure of some row whose cleaning failed |
| BatchImport.CollectKeepsRowOrder | batch_inventory_routes.py:92-155 | the results come in increasing sheet-row order |
| BatchImport.CollectFailureStays | batch_inventory_routes.py:166-167 | once a row's cleaning has failed, the later rows do not change the outcome |
| BatchImport.Outcomes | batch_inventory_routes.py:92-93 | each row is examined under row number index + 2 |
| BatchImport.AllMessagesAreRowErrors | batch_inventory_routes.py:96-98 | the collected messages are the rows' validation messages concatenated in row order |
| BatchImport.PreviewErrorsAreRowErrors | batch_inventory_routes.py:96-98 | a successful preview's errors are all rows' validation messages in order |
| BatchImport.PreviewHasEveryCleanRow | batch_inventory_routes.py:140-155 | in a successful preview, every validated row's cleaned form is among the results |
| BatchImport.PreviewOnlyCleanRows | batch_inventory_routes.py:97-99 | every result of a successful preview is the cleaned form of a validated row |
| BatchImport.PreviewFailsOnCleanRow | batch_inventory_routes.py:101-107 | a preview fails only because of a row that passed validation |
| BatchImport.PreviewKeepsRowOrder | batch_inventory_routes.py:140-155 | the results keep the order of the sheet |
| BatchImport.EmptySafetyStockSinksPreview | batch_inventory_routes.py:107 | a validated row with an empty safety-stock cell makes the whole preview fail |
| BatchImport.PreviewStopsAt | batch_inventory_routes.py:166-167 | a failure within the first rows is the outcome of the whole preview |
| BatchImport.ExamineRow | batch_inventory_routes.py:95-107 | validating a row and cleaning it only when validation found nothing gives exactly the row's outcome |
| BatchImport.ScanStep | batch_inventory_routes.py:96-155 | one turn of the row loop adds the row's messages or its preview, or ends with its failure, exactly as the loop function says |
| BatchImport.ScanRows | batch_inventory_routes.py:88-155 | the row loop produces exactly the collected results and errors |
| BatchImport.Preview | batch_inventory_routes.py:51-167 | a name with no known format fails as an invalid format; otherwise the report succeeds exactly when the row loop does, with its results and errors, `total_rows` the number of sheet rows, `valid_rows` the number of results and `error_rows` the number of messages |
| BatchImport.ProcessSpreadsheet | batch_inventory_routes.py:51-167 | the method gives exactly the preview report |
| BatchImport.PreviewCounts | batch_inventory_routes.py:157-164 | `total_rows` is the number of sheet rows, `valid_rows` the number of results, and `error_rows` the number of messages |
| BatchImport.ErrorRowsCountsMessages | batch_inventory_routes.py:163 | a single row missing all four required fields yields no result and at least four messages, so `error_rows` counts messages, not rows |
| BatchImport.ApplyUpdate | batch_inventory_routes.py:257-268 | an update never renames or changes `initial_qty`; it changes stock only in add_stock, replace_stock and full_update, prices only in update_prices and full_update, and category, expiry and safety stock only in full_update; with every key present it writes the posted values |
| BatchImport.Changes | batch_inventory_routes.py:271-277 | the change list has a cost, selling or quantity entry exactly when that value differs, at most three entries |
| BatchImport.BatchEffectTransitive | batch_inventory_routes.py:221-290 | the mode-bounded effect of confirm steps composes across steps |
| BatchImport.Created | batch_inventory_routes.py:225-234 | a created product carries the entry's name, category, prices, expiry and safety stock, with initial and current quantity both the entry's quantity |
| BatchImport.ConfirmOne | batch_inventory_routes.py:222-290 | an entry without an action type is an error and changes nothing; another action type succeeds without change; a create with every key succeeds, appends the product built from the entry with `initial_qty == qty_at_hand ==` the quantity, and logs it, while a create missing a key is an error that changes nothing; an update of an unknown name succeeds without change; an update of a known name writes the per-mode update to the product found ignoring case, succeeds exactly when every key it reads is present, and then logs the changes |
| BatchImport.ConfirmAll | batch_inventory_routes.py:221-290 | success and error counts add up to the number of entries, and every change stays within the mode |
| BatchImport.Confirm | batch_inventory_routes.py:210-306 | the batch commits exactly when the loop's tables keep names unique, and then keeps the loop's tables and reports its counters, which add up to the number of entries; a failed commit leaves the tables as they were; every change stays within the mode |
| BatchImport.WriteFields | batch_inventory_routes.py:257-268 | the in-place field writes give exactly the product of the per-mode update |
| BatchImport.ConfirmEntry | batch_inventory_routes.py:222-290 | one turn of the confirm loop on the session equals the confirm step on values |
| BatchImport.ConfirmEntries | batch_inventory_routes.py:221-290 | the loop over the entries on the session gives exactly the loop function's tables and counters |
| BatchImport.ConfirmKeepsConsistent | batch_inventory_routes.py:221-302 | the confirm step keeps names unique and every sale referring to a product |
| BatchImport.ConfirmBatchUpload | batch_inventory_routes.py:205-306 | the handler's loop, commit and rollback give exactly the confirm function's tables and response; the schema constraints are kept |
| BatchImport.ConfirmUpdateEntry | batch_inventory_routes.py:125-131 | confirming a previewed update adds the row's quantity in add_stock, sets it in replace_stock, keeps the stock in every other mode, and never moves `initial_qty` |
| BatchImport.PreviewThenConfirm | batch_inventory_routes.py:125-137 | preview followed by confirm in the same mode applies the quantity rule to the product, and 'full_update' writes back the stock it already had |
| BatchImport.BatchUpdateBreaksBalance | batch_inventory_routes.py:259 | replacing a balanced product's stock by batch update leaves it unbalanced, because `initial_qty` is not adjusted |
| CsvImport.CleanNumeric | scripts/import_csv.py:35-37 | the cleaned value is the text with every comma removed and the whitespace on both sides dropped: a run of the comma-free text with only whitespace around it, holding no comma and not starting or ending with whitespace |
| CsvImport.CleanNumericIdempotent | scripts/import_csv.py:35-37 | cleaning twice gives the same as cleaning once |
| CsvImport.CleanNumericExample | scripts/import_csv.py:36 | '1,234.50' cleans to '1234.50' |
| CsvImport.FloatOrZero | scripts/import_csv.py:39-43 | the float of the cleaned value, or 0 when it is empty or does not parse; there is no error case |
| CsvImport.FloatOrZeroOfBlank | scripts/import_csv.py:41 | a value that cleans to nothing is worth 0 |
| CsvImport.IntOrZero | scripts/import_csv.py:45-47 | 0 for an empty cleaned value; otherwise it succeeds exactly when `float()` does, with the truncated value |
| CsvImport.IntOrZeroOfDigits | scripts/import_csv.py:45-47 | a count with separators and padding reads as its digits' value (exactly; see Left out) |
| CsvImport.ParseDate | scripts/import_csv.py:29-32 | no date for blank text; otherwise the parsed date, or an error where parsing fails |
| CsvImport.ReadValues | scripts/import_csv.py:65-80 | a row's values fail to read exactly when a value column is missing or a count or the date does not convert; a price that does not convert reads as 0; otherwise the values are the converted columns |
| CsvImport.Overwritten | scripts/import_csv.py:65-69 | an overwritten product takes the row's stock, initial quantity, prices and expiry, and keeps its name, category and safety stock |
| CsvImport.Added | scripts/import_csv.py:73-82 | an added product has the row's name and values, the stripped category or '' without the column, and safety stock 5 |
| CsvImport.ImportRow | scripts/import_csv.py:57-84 | a row raises exactly when the name column is missing, or the row is named and its values do not read; an unnamed row is skipped; a known exact name overwrites that product from the row; a new name appends one product; names stay unique |
| CsvImport.Tick | scripts/import_csv.py:57-84 | the loop has raised after a row exactly when it had raised before or the row raises; a skipped row changes nothing; every other row bumps exactly one counter |
| CsvImport.ImportAll | scripts/import_csv.py:51-86 | `added + updated` equals the number of named rows, each addition is one product more, names stay unique, and all-unnamed rows change nothing |
| CsvImport.ImportRaisesIff | scripts/import_csv.py:54-86 | the import raises, committing nothing, exactly when some row raises; otherwise it completes |
| CsvImport.ImportOneMore | scripts/import_csv.py:57 | importing one row more is one more turn of the loop |
| CsvImport.ImportStops | scripts/import_csv.py:54-86 | once a row raises, the whole import raises, whatever rows follow |
| CsvImport.WriteRow | scripts/import_csv.py:58-84 | the in-place writes of one row give exactly the per-row upsert |
| CsvImport.UpsertRow | scripts/import_csv.py:58-84 | one turn on the session with its counters equals one turn of the loop function |
| CsvImport.RunImport | scripts/import_csv.py:51-86 | the script on the session gives the loop function's products and counters, or leaves the products as they were when a row raises; the schema constraints are kept |

## Left out

- Flask routing, HTTP responses, templates, flash messages and the manager/cashier role checks are not modelled. They are request plumbing.
- File reading is not modelled. A spreadsheet arrives as headers plus cells, each cell either empty (NaN) or its text; pandas' typed cells (ints, floats, timestamps) are not modelled.
- PyText.PyFloat: a plain ASCII digit string is read as its exact decimal value, whereas Python's `float()` rounds it to the nearest double, so the two differ above 2^53 (`float('9007199254740993')` is 9007199254740992.0). `float()` beyond blank and plain digit strings is the `parse` parameter. Infinities and NaN from text such as 'nan' or 'inf' are not modelled; the parameter is assumed to give finite values or refuse.
- CsvImport.IntOrZeroOfDigits: a digit count beyond 2^53 is read exactly, whereas `int(float(...))` in scripts/import_csv.py:47 would round it to a double first; the same holds for digit amounts read by the spreadsheet preview.
- `strptime` and `pd.to_datetime` are parameters.
- The current date of a new sale is passed in as `today`.
- Unicode case folding and non-ASCII lower-casing are not modelled: `Lower` folds ASCII letters only.
- The database session is modelled as a `Store` whose tables are changed in place. Autoflush is taken to make created products visible to later lookups in the same batch, and a duplicate name is taken to fail at the commit. Transaction semantics beyond that are not modelled, including `db.session.begin()` on an already-open session and the exact moment an IntegrityError is raised.
- Concurrency is not modelled, including the race between the stock check and the decrement in `record_sale`.
- Message and log text is not modelled. Messages are a field plus a reason; log entries are the user plus what changed.
- Confirm entries are modelled with each key either missing or holding a value of the expected type. JSON values of the wrong type are not modelled.
- CSV rows shorter than the header (cells read as None) are not modelled. Neither is which exception aborts the script: only that one does.
- Template and example spreadsheet downloads, config, account seeding and migrations are not modelled. They contain no inventory logic.
- Sale edit and void, shifts, fuzzy duplicate detection, product deletion and the below-cost gate are not part of this model. Their handlers are not among the modelled files.
- `Product.safety_stock` is modelled as a field. models.py:6-14 does not declare it, but the batch import and the script write it. `add_stock` does not set it, so its products carry None.
- Ledger.TopSales: the order among sellers with equal units is not pinned down, because the SQL query leaves it open. Lines are per product, not per distinct name; with unique names these agree.
- Ledger.Balanced is the ledger invariant for the main handlers only. The batch update path breaks it, as BatchImport.BatchUpdateBreaksBalance shows.
