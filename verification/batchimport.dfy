/**
 * The manager's spreadsheet import: the upload filter, header resolution, row validation,
 * the preview of what each row would do, and the confirm step that applies the previewed
 * rows to the catalog.
 */
module BatchImport {
  import opened Common
  import opened PyText
  import opened Models
  import Forms
  import Ledger

  // ---------------------------------------------------------------- upload filter

  const AllowedExtensions: set<string> := {"csv", "xlsx", "xls"}

  /** Where the last '.' of `s` is. */
  function LastDot(s: string): (r: Option<nat>)
    ensures r.Some? ==> r.value < |s| && s[r.value] == '.' && forall k :: r.value < k < |s| ==> s[k] != '.'
    ensures r.None? ==> forall k :: 0 <= k < |s| ==> s[k] != '.'
  {
    if s == [] then None
    else if s[|s| - 1] == '.' then Some(|s| - 1)
    else LastDot(s[..|s| - 1])
  }

  /** The lower-cased text after the last '.', or None when the name has no '.'. */
  function Extension(filename: string): Option<string> {
    match LastDot(filename)
    case None => None
    case Some(i) => Some(Lower(filename[i + 1..]))
  }

  /**
   * `allowed_file`: the name holds a '.', and the text after the last one, lower-cased, is
   * one of the allowed extensions.
   */
  predicate AllowedFile(filename: string): (ok: bool)
    ensures ok <==> LastDot(filename).Some? && Lower(filename[LastDot(filename).value + 1..]) in AllowedExtensions
  {
    Extension(filename).Some? && Extension(filename).value in AllowedExtensions
  }

  /** `allowed_file` accepts a name exactly when some '.' with no '.' after it is followed by an allowed extension. */
  lemma AllowedFileMeans(filename: string)
    ensures AllowedFile(filename) <==>
            exists i :: 0 <= i < |filename| && filename[i] == '.'
                        && (forall k :: i < k < |filename| ==> filename[k] != '.')
                        && Lower(filename[i + 1..]) in AllowedExtensions
  {
    if AllowedFile(filename) {
      var i := LastDot(filename).value;
      assert filename[i] == '.' && Lower(filename[i + 1..]) in AllowedExtensions;
    }
    if i :| 0 <= i < |filename| && filename[i] == '.' && (forall k :: i < k < |filename| ==> filename[k] != '.') {
      LastDotIs(filename, i);
    }
  }

  /** Lower-casing commutes with taking a suffix. */
  lemma LowerSuffix(s: string, i: nat)
    requires i <= |s|
    ensures Lower(s[i..]) == Lower(s)[i..]
  {
  }

  /** The last '.' is the one with no '.' after it. */
  lemma LastDotIs(s: string, i: nat)
    requires i < |s| && s[i] == '.' && forall k :: i < k < |s| ==> s[k] != '.'
    ensures LastDot(s) == Some(i)
  {
  }

  /** Lower-casing neither makes nor removes a '.'. */
  lemma LowerKeepsDot(c: char)
    ensures LowerChar(c) == '.' <==> c == '.'
  {
  }

  /** The characters of a suffix, one by one. */
  lemma EndsWithAt(s: string, suffix: string)
    requires EndsWith(s, suffix)
    ensures forall k :: 0 <= k < |suffix| ==> s[|s| - |suffix| + k] == suffix[k]
  {
    forall k | 0 <= k < |suffix|
      ensures s[|s| - |suffix| + k] == suffix[k]
    {
      assert s[|s| - |suffix|..][k] == suffix[k];
    }
  }

  /** Where the lower-cased name shows a text without dots, the name has no dots either. */
  lemma NoDotsUnderLower(filename: string, ext: string, i: nat)
    requires '.' !in ext && i + |ext| <= |filename|
    requires forall k :: 0 <= k < |ext| ==> LowerChar(filename[i + k]) == ext[k]
    ensures forall k :: i <= k < i + |ext| ==> filename[k] != '.'
  {
    forall k | i <= k < i + |ext|
      ensures filename[k] != '.'
    {
      assert LowerChar(filename[i + (k - i)]) == ext[k - i];
      assert ext[k - i] in ext;
      LowerKeepsDot(filename[k]);
    }
  }

  /** A name whose lower-cased form ends in '.' and `ext` has a '.' there, followed by characters that lower-case to `ext`. */
  lemma DottedEnding(filename: string, lower: string, ext: string)
    requires |lower| == |filename| && forall k :: 0 <= k < |filename| ==> lower[k] == LowerChar(filename[k])
    requires EndsWith(lower, "." + ext)
    ensures var i := |filename| - |ext| - 1;
            && filename[i] == '.'
            && forall k :: 0 <= k < |ext| ==> LowerChar(filename[i + 1 + k]) == ext[k]
  {
    var i := |filename| - |ext| - 1;
    EndsWithAt(lower, "." + ext);
    assert lower[i] == ("." + ext)[0];
    LowerKeepsDot(filename[i]);
    forall k | 0 <= k < |ext|
      ensures LowerChar(filename[i + 1 + k]) == ext[k]
    {
      assert lower[|lower| - |"." + ext| + (k + 1)] == ("." + ext)[k + 1];
    }
  }

  /** A name whose lower-cased form ends in '.' and `ext` (a text without dots) has its last '.' right before `ext`. */
  lemma DottedSuffixFound(filename: string, lower: string, ext: string)
    requires |lower| == |filename| && forall k :: 0 <= k < |filename| ==> lower[k] == LowerChar(filename[k])
    requires '.' !in ext && EndsWith(lower, "." + ext)
    ensures LastDot(filename) == Some(|filename| - |ext| - 1)
  {
    var i := |filename| - |ext| - 1;
    DottedEnding(filename, lower, ext);
    NoDotsUnderLower(filename, ext, i + 1);
    LastDotIs(filename, i);
  }

  /** The lower-cased name ends with '.' and `ext`: then `ext` is the lower-cased end of the name. */
  lemma ExtensionFound(filename: string, ext: string)
    requires EndsWith(Lower(filename), "." + ext)
    ensures Lower(filename[|filename| - |ext|..]) == ext
  {
    var j := |filename| - |ext|;
    LowerSuffix(filename, j);
    assert Lower(filename)[j..] == Lower(filename)[j - 1..][1..];
  }

  /** Conversely, the lower-cased text after the last '.' is what the lower-cased name ends with. */
  lemma DottedSuffixEnds(filename: string, i: nat)
    requires i < |filename| && filename[i] == '.'
    ensures EndsWith(Lower(filename), "." + Lower(filename[i + 1..]))
  {
    LowerSuffix(filename, i + 1);
    assert Lower(filename)[i..] == "." + Lower(filename[i + 1..]);
  }

  /**
   * The lower-cased name ends with '.' and `ext` (a text without dots) exactly when `ext` is
   * the lower-cased text after the last '.'.
   */
  lemma DottedSuffix(filename: string, ext: string)
    requires '.' !in ext
    ensures EndsWith(Lower(filename), "." + ext) <==> Extension(filename) == Some(ext)
  {
    if EndsWith(Lower(filename), "." + ext) {
      DottedSuffixFound(filename, Lower(filename), ext);
      ExtensionFound(filename, ext);
    }
    if LastDot(filename).Some? {
      DottedSuffixEnds(filename, LastDot(filename).value);
    }
  }

  /** Ending in one of the three dotted extensions is having one of the allowed extensions. */
  lemma AllowedByEnding(e: Option<string>, isCsv: bool, isXlsx: bool, isXls: bool)
    requires isCsv <==> e == Some("csv")
    requires isXlsx <==> e == Some("xlsx")
    requires isXls <==> e == Some("xls")
    ensures isCsv || isXlsx || isXls <==> e.Some? && e.value in AllowedExtensions
  {
  }

  /** The two file formats the reader distinguishes. */
  datatype SheetFormat = Csv | Excel

  /** The format `process_spreadsheet` reads a file as, from the lower-cased name's ending. */
  function FormatOf(filename: string): Option<SheetFormat> {
    var lower := Lower(filename);
    if EndsWith(lower, ".csv") then Some(Csv)
    else if EndsWith(lower, ".xlsx") || EndsWith(lower, ".xls") then Some(Excel)
    else None
  }

  /** A file the upload filter lets through is always one the reader has a format for, and conversely. */
  lemma FormatKnownIffAllowed(filename: string)
    ensures FormatOf(filename).Some? <==> AllowedFile(filename)
  {
    var lower := Lower(filename);
    assert "." + "csv" == ".csv" && "." + "xlsx" == ".xlsx" && "." + "xls" == ".xls";
    DottedSuffix(filename, "csv");
    DottedSuffix(filename, "xlsx");
    DottedSuffix(filename, "xls");
    AllowedByEnding(Extension(filename), EndsWith(lower, ".csv"), EndsWith(lower, ".xlsx"), EndsWith(lower, ".xls"));
  }

  /** The upload form's `FileAllowed` check and `allowed_file` accept the same names. */
  lemma UploadChecksAgree(filename: string)
    ensures AllowedFile(filename) <==> Forms.BatchUploadAllowed(Some(filename))
  {
    var exts := Forms.FormExtensions;
    var lower := Lower(filename);
    assert exts == ["csv", "xlsx", "xls"];
    assert '.' !in exts[0] && '.' !in exts[1] && '.' !in exts[2];
    DottedSuffix(filename, exts[0]);
    DottedSuffix(filename, exts[1]);
    DottedSuffix(filename, exts[2]);
    AllowedByEnding(Extension(filename), EndsWith(lower, "." + exts[0]), EndsWith(lower, "." + exts[1]), EndsWith(lower, "." + exts[2]));
    assert Forms.BatchUploadAllowed(Some(filename)) <==>
           filename != "" && (EndsWith(lower, "." + exts[0]) || EndsWith(lower, "." + exts[1]) || EndsWith(lower, "." + exts[2]));
  }

  // ---------------------------------------------------------------- header resolution

  /** The standard columns a spreadsheet is mapped onto. */
  datatype Field = Name | Category | CostPrice | SellingPrice | Quantity | SafetyStock | ExpiryDate

  const AllFields: set<Field> := {Name, Category, CostPrice, SellingPrice, Quantity, SafetyStock, ExpiryDate}

  /** The headers accepted for each standard column (written in lower case). */
  function Aliases(f: Field): seq<string> {
    match f
    case Name => ["name", "product_name", "product", "item"]
    case Category => ["category", "type", "group"]
    case CostPrice => ["cost_price", "cost", "buy_price", "purchase_price"]
    case SellingPrice => ["selling_price", "sell_price", "price", "retail_price"]
    case Quantity => ["quantity", "stock", "qty", "amount"]
    case SafetyStock => ["safety_stock", "reorder_level", "minimum_stock"]
    case ExpiryDate => ["expiry_date", "expiry", "expires"]
  }

  /** How a header is compared with the aliases: lower-cased, then stripped. */
  function HeaderKey(header: string): string {
    Strip(Lower(header))
  }

  /** The first position whose key is one of `aliases`. */
  function FirstKey(keys: seq<string>, aliases: seq<string>): (r: Option<nat>)
    ensures r.Some? ==> r.value < |keys| && keys[r.value] in aliases
    ensures r.Some? ==> forall j :: 0 <= j < r.value ==> keys[j] !in aliases
    ensures r.None? ==> forall j :: 0 <= j < |keys| ==> keys[j] !in aliases
  {
    if keys == [] then None
    else if keys[0] in aliases then Some(0)
    else match FirstKey(keys[1..], aliases)
      case None => None
      case Some(j) => Some(j + 1)
  }

  /** The first header whose key is one of `aliases`. */
  function FirstColumn(headers: seq<string>, aliases: seq<string>): (r: Option<nat>)
    ensures r.Some? ==> r.value < |headers| && HeaderKey(headers[r.value]) in aliases
    ensures r.Some? ==> forall j :: 0 <= j < r.value ==> HeaderKey(headers[j]) !in aliases
    ensures r.None? ==> forall j :: 0 <= j < |headers| ==> HeaderKey(headers[j]) !in aliases
  {
    var keys := seq(|headers|, j requires 0 <= j < |headers| => HeaderKey(headers[j]));
    assert forall j :: 0 <= j < |headers| ==> keys[j] == HeaderKey(headers[j]);
    FirstKey(keys, aliases)
  }

  /** The column a standard field is read from: the first header naming one of its aliases. */
  function ColumnOf(headers: seq<string>, f: Field): Option<nat> {
    FirstColumn(headers, Aliases(f))
  }

  lemma EveryFieldListed(f: Field)
    ensures f in AllFields
  {
  }

  /** A spreadsheet cell as the reader hands it over: empty (NaN) or the text it shows. */
  datatype Cell = NaN | Text(text: string)

  /** `str()` of a cell. */
  function CellText(c: Cell): string {
    if c.NaN? then "nan" else c.text
  }

  /** A row of the uploaded sheet; a row shorter than the header is padded with empty cells. */
  function CellAt(cells: seq<Cell>, j: nat): Cell {
    if j < |cells| then cells[j] else NaN
  }

  /** A row re-keyed by standard field; a field no header names is absent, except for the two with defaults. */
  type Row = map<Field, Cell>

  /**
   * One row of the standardized sheet: every resolved field holds the cell of its column,
   * a missing safety stock is 5 and a missing category 'General', and no other field is present.
   */
  function Standardize(headers: seq<string>, cells: seq<Cell>): (row: Row)
    ensures forall f :: f in row <==> ColumnOf(headers, f).Some? || f == SafetyStock || f == Category
    ensures forall f :: ColumnOf(headers, f).Some? ==> row[f] == CellAt(cells, ColumnOf(headers, f).value)
    ensures ColumnOf(headers, SafetyStock).None? ==> row[SafetyStock] == Text("5")
    ensures ColumnOf(headers, Category).None? ==> row[Category] == Text("General")
  {
    assert forall f: Field :: f in AllFields by {
      forall f: Field
        ensures f in AllFields
      {
        EveryFieldListed(f);
      }
    }
    map f | f in AllFields && (ColumnOf(headers, f).Some? || f == SafetyStock || f == Category) ::
      if ColumnOf(headers, f).Some? then CellAt(cells, ColumnOf(headers, f).value)
      else if f == SafetyStock then Text("5")
      else Text("General")
  }

  /**
   * How many rows the standardized sheet has: those of the upload, unless no header was
   * resolved, in which case the sheet is built from the two defaults alone and has none.
   */
  function RowCount(headers: seq<string>, rowsRead: nat): nat {
    if exists f :: ColumnOf(headers, f).Some? then rowsRead else 0
  }

  // ---------------------------------------------------------------- row validation

  /** Why a row was refused. */
  datatype Problem =
    | Required        // "is required"
    | MustBePositive  // "must be positive"
    | NotANumber      // "must be a valid number"
    | NotWhole        // "quantity must be a whole number"

  /** One message of the validation report, with the sheet row it is about. */
  datatype RowError = RowError(rowNum: int, field: Field, problem: Problem)

  const RequiredFields: seq<Field> := [Name, CostPrice, SellingPrice, Quantity]
  const NumericFields: seq<Field> := [CostPrice, SellingPrice, Quantity, SafetyStock]

  /** The currency sign that money cells may carry. */
  const Cedi: string := "GH\U{20B5}"

  /** A field counts as missing: absent, an empty cell, or only whitespace. */
  predicate Absent(row: Row, f: Field) {
    f !in row || row[f].NaN? || Strip(row[f].text) == ""
  }

  /** A money or count text with the currency sign and the thousands separators removed. */
  function MoneyText(t: string): string {
    Erase(EraseAll(t, Cedi), ',')
  }

  /** The number check of one field, when it holds text: a value below zero or no number at all. */
  function NumericProblem(row: Row, f: Field, parse: NumeralParser): Option<Problem> {
    if f in row && row[f].Text? then
      match PyFloat(MoneyText(row[f].text), parse)
      case None => Some(NotANumber)
      case Some(v) => if v < 0.0 then Some(MustBePositive) else None
    else None
  }

  /** The whole-number check of the quantity: its truncation below zero, or no number at all. */
  function WholeProblem(row: Row, parse: NumeralParser): Option<Problem> {
    if Quantity in row && row[Quantity].Text? then
      match PyFloat(Erase(row[Quantity].text, ','), parse)
      case None => Some(NotWhole)
      case Some(v) => if Trunc(v) < 0 then Some(MustBePositive) else None
    else None
  }

  /**
   * One message per field of `fields` that `check` finds fault with, in the order of `fields`:
   * each names the row, the field and what `check` found, and a field `check` passes draws none.
   */
  function FieldMessages(rowNum: int, fields: seq<Field>, check: Field -> Option<Problem>): (r: seq<RowError>)
    ensures |r| <= |fields|
    ensures forall e :: e in r ==> e.rowNum == rowNum && e.field in fields && check(e.field) == Some(e.problem)
    ensures forall k :: 0 <= k < |fields| && check(fields[k]).Some? ==> RowError(rowNum, fields[k], check(fields[k]).value) in r
    ensures r == [] <==> forall k :: 0 <= k < |fields| ==> check(fields[k]).None?
    ensures (forall k :: 0 <= k < |fields| ==> check(fields[k]).Some?) ==> |r| == |fields|
  {
    if fields == [] then []
    else
      var last := fields[|fields| - 1];
      var rest := FieldMessages(rowNum, fields[..|fields| - 1], check);
      assert forall k :: 0 <= k < |fields| - 1 ==> fields[..|fields| - 1][k] == fields[k];
      rest + (match check(last)
              case None => []
              case Some(p) => [RowError(rowNum, last, p)])
  }

  /** Every two messages come from two fields in the order of `fields`, the earlier message from the earlier field. */
  predicate InFieldOrder(r: seq<RowError>, fields: seq<Field>) {
    forall a, b :: 0 <= a < b < |r| ==> Before(r[a].field, r[b].field, fields)
  }

  /** Field x is listed at an earlier position than field y. */
  predicate Before(x: Field, y: Field, fields: seq<Field>) {
    exists i, j :: 0 <= i < j < |fields| && fields[i] == x && fields[j] == y
  }

  /** Messages about earlier fields, in order, followed by at most one message about the next field, are in order. */
  lemma OrderedAppend(rest: seq<RowError>, tail: seq<RowError>, fields: seq<Field>)
    requires fields != [] && InFieldOrder(rest, fields[..|fields| - 1])
    requires forall e :: e in rest ==> e.field in fields[..|fields| - 1]
    requires |tail| <= 1 && forall e :: e in tail ==> e.field == fields[|fields| - 1]
    ensures InFieldOrder(rest + tail, fields)
  {
    var n := |fields| - 1;
    var r := rest + tail;
    forall a, b | 0 <= a < b < |r|
      ensures Before(r[a].field, r[b].field, fields)
    {
      assert r[a] == rest[a];
      if b < |rest| {
        assert r[b] == rest[b];
        assert Before(rest[a].field, rest[b].field, fields[..n]);
        var i, j :| 0 <= i < j < |fields[..n]| && fields[..n][i] == rest[a].field && fields[..n][j] == rest[b].field;
        assert 0 <= i < j < |fields| && fields[i] == r[a].field && fields[j] == r[b].field;
      } else {
        assert r[b] == tail[0];
        assert rest[a] in rest;
        var i :| 0 <= i < n && fields[..n][i] == rest[a].field;
        assert 0 <= i < n < |fields| && fields[i] == r[a].field && fields[n] == r[b].field;
      }
    }
  }

  /**
   * The messages follow the order of `fields`; as each of the field lists names a field once,
   * no field draws two messages.
   */
  lemma {:induction false} FieldMessagesInOrder(rowNum: int, fields: seq<Field>, check: Field -> Option<Problem>)
    ensures InFieldOrder(FieldMessages(rowNum, fields, check), fields)
  {
    if fields != [] {
      var n := |fields| - 1;
      var rest := FieldMessages(rowNum, fields[..n], check);
      var tail := match check(fields[n]) case None => [] case Some(p) => [RowError(rowNum, fields[n], p)];
      assert FieldMessages(rowNum, fields, check) == rest + tail;
      FieldMessagesInOrder(rowNum, fields[..n], check);
      OrderedAppend(rest, tail, fields);
    }
  }

  /** With no field listed twice, no two messages are about the same field. */
  lemma FieldMessagesDistinct(rowNum: int, fields: seq<Field>, check: Field -> Option<Problem>)
    requires forall i, j :: 0 <= i < j < |fields| ==> fields[i] != fields[j]
    ensures var r := FieldMessages(rowNum, fields, check);
            forall a, b :: 0 <= a < b < |r| ==> r[a].field != r[b].field
  {
    var r := FieldMessages(rowNum, fields, check);
    FieldMessagesInOrder(rowNum, fields, check);
    forall a, b | 0 <= a < b < |r| ensures r[a].field != r[b].field {
      assert Before(r[a].field, r[b].field, fields);
      var i, j :| 0 <= i < j < |fields| && fields[i] == r[a].field && fields[j] == r[b].field;
    }
  }

  /** The required-field check: a missing field is "required". */
  function RequiredCheck(row: Row): Field -> Option<Problem> {
    f => if Absent(row, f) then Some(Required) else None
  }

  /** The number check of each field. */
  function NumericCheck(row: Row, parse: NumeralParser): Field -> Option<Problem> {
    f => NumericProblem(row, f, parse)
  }

  /** The message of the whole-number check, if it fails. */
  function WholeErrors(row: Row, rowNum: int, parse: NumeralParser): seq<RowError> {
    match WholeProblem(row, parse)
    case None => []
    case Some(p) => [RowError(rowNum, Quantity, p)]
  }

  /** The row passes every check of `validate_row_data`. */
  predicate RowAccepted(row: Row, parse: NumeralParser) {
    && (forall k :: 0 <= k < |RequiredFields| ==> !Absent(row, RequiredFields[k]))
    && (forall k :: 0 <= k < |NumericFields| ==> NumericProblem(row, NumericFields[k], parse).None?)
    && WholeProblem(row, parse).None?
  }

  /**
   * Everything `validate_row_data` reports about one row: required fields, then numbers,
   * then the whole-number check. Every message names that row, and there are none exactly
   * when the row passes every check.
   */
  function RowErrors(row: Row, rowNum: int, parse: NumeralParser): (r: seq<RowError>)
    ensures forall e :: e in r ==> e.rowNum == rowNum
    ensures r == [] <==> RowAccepted(row, parse)
  {
    FieldMessages(rowNum, RequiredFields, RequiredCheck(row))
    + FieldMessages(rowNum, NumericFields, NumericCheck(row, parse))
    + WholeErrors(row, rowNum, parse)
  }

  /**
   * A negative quantity written without the currency sign, of at most -1, is reported twice
   * as "must be positive": once by the number check and once by the whole-number check.
   */
  lemma NegativeQuantityReportedTwice(row: Row, rowNum: int, parse: NumeralParser)
    requires Quantity in row && row[Quantity].Text? && !Occurs(row[Quantity].text, Cedi)
    requires PyFloat(Erase(row[Quantity].text, ','), parse).Some?
    requires PyFloat(Erase(row[Quantity].text, ','), parse).value <= -1.0
    ensures var r := RowErrors(row, rowNum, parse);
            |r| >= 2 && r[|r| - 1] == RowError(rowNum, Quantity, MustBePositive)
            && RowError(rowNum, Quantity, MustBePositive) in r[..|r| - 1]
  {
    var e := RowError(rowNum, Quantity, MustBePositive);
    var req := FieldMessages(rowNum, RequiredFields, RequiredCheck(row));
    var num := FieldMessages(rowNum, NumericFields, NumericCheck(row, parse));
    assert WholeErrors(row, rowNum, parse) == [e];
    assert NumericCheck(row, parse)(NumericFields[2]) == Some(MustBePositive);
    assert e in num;
    var r := req + num + [e];
    assert r[..|r| - 1] == req + num;
  }

  /** A run of digits holds no currency sign, no separator and no surrounding whitespace. */
  lemma DigitsAreClean(t: string)
    requires AllDigits(t)
    ensures MoneyText(t) == t && Erase(t, ',') == t && Strip(t) == t
  {
    if Occurs(t, Cedi) {
      OccursHasFirst(t, Cedi);
    }
    StripOfTrimmed(t);
  }

  /** A run of `pat` inside `s` puts `pat`'s first character in `s`. */
  lemma {:induction false} OccursHasFirst(s: string, pat: string)
    requires pat != [] && Occurs(s, pat)
    ensures exists k :: 0 <= k < |s| && s[k] == pat[0]
    decreases |s|
  {
    if s[..|pat|] == pat {
      assert s[0] == pat[0];
    } else {
      OccursHasFirst(s[1..], pat);
      var k :| 0 <= k < |s[1..]| && s[1..][k] == pat[0];
      assert s[k + 1] == pat[0];
    }
  }

  /** A cell that is a plain run of digits, zero included. */
  predicate DigitsCell(row: Row, f: Field) {
    f in row && row[f].Text? && AllDigits(row[f].text)
  }

  /** A plain run of digits is present and passes the number check and the whole-number check. */
  lemma DigitsCellPasses(row: Row, f: Field, parse: NumeralParser)
    requires DigitsCell(row, f)
    ensures !Absent(row, f) && NumericProblem(row, f, parse).None?
    ensures f == Quantity ==> WholeProblem(row, parse).None?
  {
    var t := row[f].text;
    DigitsAreClean(t);
    assert PyFloat(MoneyText(t), parse) == Some(DigitsValue(t) as real);
  }

  /**
   * Zero passes: a row with a name and plain digit runs for the prices, the quantity and the
   * safety stock (or no safety stock value) draws no message at all.
   */
  lemma DigitRowPasses(row: Row, rowNum: int, parse: NumeralParser)
    requires Name in row && row[Name].Text? && Strip(row[Name].text) != ""
    requires DigitsCell(row, CostPrice) && DigitsCell(row, SellingPrice) && DigitsCell(row, Quantity)
    requires SafetyStock !in row || row[SafetyStock].NaN? || DigitsCell(row, SafetyStock)
    ensures RowErrors(row, rowNum, parse) == []
  {
    forall k | 0 <= k < |RequiredFields|
      ensures !Absent(row, RequiredFields[k])
    {
      if k > 0 {
        DigitsCellPasses(row, RequiredFields[k], parse);
      }
    }
    forall k | 0 <= k < |NumericFields|
      ensures NumericProblem(row, NumericFields[k], parse).None?
    {
      var f := NumericFields[k];
      if f in row && row[f].Text? {
        DigitsCellPasses(row, f, parse);
      }
    }
    DigitsCellPasses(row, Quantity, parse);
  }

  /** Checking one field more adds that field's message, if any. */
  lemma FieldMessagesOneMore(rowNum: int, fields: seq<Field>, check: Field -> Option<Problem>, i: nat)
    requires i < |fields|
    ensures FieldMessages(rowNum, fields[..i + 1], check) ==
            FieldMessages(rowNum, fields[..i], check) + (if check(fields[i]).Some? then [RowError(rowNum, fields[i], check(fields[i]).value)] else [])
  {
    assert fields[..i + 1][..i] == fields[..i];
  }

  /** One message per field of `fields` that `check` finds fault with, checked in order. */
  method CheckFields(rowNum: int, fields: seq<Field>, check: Field -> Option<Problem>) returns (errors: seq<RowError>)
    ensures errors == FieldMessages(rowNum, fields, check)
  {
    errors := [];
    for i := 0 to |fields|
      invariant errors == FieldMessages(rowNum, fields[..i], check)
    {
      FieldMessagesOneMore(rowNum, fields, check, i);
      var field := fields[i];
      match check(field) {
        case None =>
        case Some(p) => errors := errors + [RowError(rowNum, field, p)];
      }
    }
    assert fields[..|fields|] == fields;
  }

  /** `validate_row_data`: the required fields, then the number checks, then the whole-number check. */
  method ValidateRowData(row: Row, rowNum: int, parse: NumeralParser) returns (errors: seq<RowError>)
    ensures errors == RowErrors(row, rowNum, parse)
  {
    errors := CheckFields(rowNum, RequiredFields, RequiredCheck(row));
    var numeric := CheckFields(rowNum, NumericFields, NumericCheck(row, parse));
    errors := errors + numeric;
    if Quantity in row && row[Quantity].Text? {
      var qty := PyFloat(Erase(row[Quantity].text, ','), parse);
      if qty.None? {
        errors := errors + [RowError(rowNum, Quantity, NotWhole)];
      } else if Trunc(qty.value) < 0 {
        errors := errors + [RowError(rowNum, Quantity, MustBePositive)];
      }
    }
  }

  // ---------------------------------------------------------------- preview

  /** Converts a date cell's text the way `pd.to_datetime(...).date()` does; None where it raises. */
  type DateParser = string -> Option<Date>

  /** What the preview is computed against: the mode the manager chose and the catalog as it stands. */
  datatype PreviewContext = PreviewContext(mode: string, products: seq<Product>, parse: NumeralParser, toDate: DateParser)

  datatype Action = Create | Update

  /** The values an existing product had when the row was previewed. */
  datatype OldValues = OldValues(costPrice: int, sellingPrice: int, quantity: int)

  /** One row of the preview: what the row would create or update, and the catalog values it would change. */
  datatype RowPreview = RowPreview(
    rowNum: int,
    action: Action,
    name: string,
    category: string,
    costPrice: int,
    sellingPrice: int,
    quantity: int,
    newQuantity: int,
    safetyStock: int,
    expiry: Option<Date>,
    previous: Option<OldValues>)

  /** Why the whole preview failed. */
  datatype PreviewFailure =
    | InvalidFileFormat         // neither a CSV nor an Excel name
    | ConversionFailed(rowNum: int)  // a value of a validated row did not convert

  /**
   * The quantity a row leaves on the shelf: the row's quantity for a new product; for an
   * existing one, the stock plus the row's quantity in 'add_stock' mode, the row's quantity
   * in 'replace_stock' mode, and the stock as it is in any other mode.
   */
  function NewQuantity(mode: string, existing: Option<Product>, quantity: int): (q: int)
    ensures existing.None? || mode == "replace_stock" ==> q == quantity
    ensures existing.Some? && mode == "add_stock" ==> q - existing.value.qtyAtHand == quantity
    ensures existing.Some? && mode != "add_stock" && mode != "replace_stock" ==> q == existing.value.qtyAtHand
    ensures quantity >= 0 && (existing.Some? ==> existing.value.qtyAtHand >= 0) ==> q >= 0
  {
    match existing
    case None => quantity
    case Some(p) =>
      if mode == "add_stock" then p.qtyAtHand + quantity
      else if mode == "replace_stock" then quantity
      else p.qtyAtHand
  }

  /**
   * `float()` of a cell's text after `clean`; None where it raises. An empty cell shows as
   * 'nan', which `float()` turns into a NaN that no later step accepts.
   */
  function CellFloat(c: Cell, clean: string -> string, parse: NumeralParser): Option<real> {
    match c
    case NaN => None
    case Text(t) => PyFloat(clean(t), parse)
  }

  /** The safety-stock cell of a row; `row.get` falls back to 5. */
  function SafetyStockCell(row: Row): Cell {
    if SafetyStock in row then row[SafetyStock] else Text("5")
  }

  /**
   * The cleaning step of `process_spreadsheet` for a row that passed validation: stripped name
   * and category, prices in cents, truncated quantity and safety stock (the safety stock without
   * removing separators or the currency sign), the expiry date if it converts, and the
   * new quantity against the product of the same name ignoring case. Of all these conversions
   * only the safety stock's can still fail, and then the row's failure ends the preview.
   */
  function CleanRow(row: Row, rowNum: int, ctx: PreviewContext): (r: Result<RowPreview, PreviewFailure>)
    requires RowAccepted(row, ctx.parse)
    ensures r.Err? <==> SafetyStockCell(row).NaN? || PyFloat(SafetyStockCell(row).text, ctx.parse).None?
    ensures r.Err? ==> r.error == ConversionFailed(rowNum)
    ensures r.Ok? ==> r.value.rowNum == rowNum && r.value.name != ""
    ensures r.Ok? ==> r.value.costPrice >= 0 && r.value.sellingPrice >= 0 && r.value.quantity >= 0
    ensures r.Ok? ==> (r.value.action == Update <==> r.value.previous.Some?)
    ensures r.Ok? ==> (r.value.action == Update <==>
              exists j :: 0 <= j < |ctx.products| && SameNameIgnoringCase(ctx.products[j].name, r.value.name))
    ensures r.Ok? && r.value.action == Create ==> r.value.newQuantity == r.value.quantity
    ensures r.Ok? && r.value.action == Update ==>
              var found := FindByNameIgnoringCase(ctx.products, r.value.name);
              found.Some? &&
              var p := ctx.products[found.value];
              && r.value.previous == Some(OldValues(p.costPrice, p.sellingPrice, p.qtyAtHand))
              && r.value.newQuantity == NewQuantity(ctx.mode, Some(p), r.value.quantity)
  {
    assert !Absent(row, RequiredFields[0]) && !Absent(row, RequiredFields[1]);
    assert !Absent(row, RequiredFields[2]) && !Absent(row, RequiredFields[3]);
    assert NumericProblem(row, NumericFields[0], ctx.parse).None? && NumericProblem(row, NumericFields[1], ctx.parse).None?;
    var cost := CellFloat(row[CostPrice], MoneyText, ctx.parse);
    var selling := CellFloat(row[SellingPrice], MoneyText, ctx.parse);
    var qty := CellFloat(row[Quantity], t => Erase(t, ','), ctx.parse);
    var safety := CellFloat(SafetyStockCell(row), t => t, ctx.parse);
    if safety.None? then Err(ConversionFailed(rowNum))
    else
      var name := Strip(row[Name].text);
      var category := if Category in row then Strip(CellText(row[Category])) else "General";
      var expiry := if ExpiryDate in row && row[ExpiryDate].Text? then ctx.toDate(row[ExpiryDate].text) else None;
      var found := FindByNameIgnoringCase(ctx.products, name);
      var existing := if found.Some? then Some(ctx.products[found.value]) else None;
      var quantity := Trunc(qty.value);
      Ok(RowPreview(
        rowNum,
        if found.Some? then Update else Create,
        name,
        category,
        Cents(cost.value),
        Cents(selling.value),
        quantity,
        NewQuantity(ctx.mode, existing, quantity),
        Trunc(safety.value),
        expiry,
        if found.Some? then Some(OldValues(existing.value.costPrice, existing.value.sellingPrice, existing.value.qtyAtHand)) else None))
  }

  /**
   * What a cleaned row carries, cell by cell: the stripped name; the stripped category, or
   * 'General' without the column; the prices in cents of the cells without separators and
   * currency sign; the truncated quantity without separators; the truncated safety stock; and
   * the expiry the date parser gives for a text cell.
   */
  lemma CleanRowReadsCells(row: Row, rowNum: int, ctx: PreviewContext)
    requires RowAccepted(row, ctx.parse) && CleanRow(row, rowNum, ctx).Ok?
    ensures var p := CleanRow(row, rowNum, ctx).value;
            && Name in row && row[Name].Text? && p.name == Strip(row[Name].text)
            && p.category == (if Category in row then Strip(CellText(row[Category])) else "General")
            && Quantity in row && row[Quantity].Text? && PyFloat(Erase(row[Quantity].text, ','), ctx.parse).Some?
            && p.quantity == Trunc(PyFloat(Erase(row[Quantity].text, ','), ctx.parse).value)
            && CostPrice in row && row[CostPrice].Text? && PyFloat(MoneyText(row[CostPrice].text), ctx.parse).Some?
            && p.costPrice == Cents(PyFloat(MoneyText(row[CostPrice].text), ctx.parse).value)
            && SellingPrice in row && row[SellingPrice].Text? && PyFloat(MoneyText(row[SellingPrice].text), ctx.parse).Some?
            && p.sellingPrice == Cents(PyFloat(MoneyText(row[SellingPrice].text), ctx.parse).value)
            && SafetyStockCell(row).Text? && PyFloat(SafetyStockCell(row).text, ctx.parse).Some?
            && p.safetyStock == Trunc(PyFloat(SafetyStockCell(row).text, ctx.parse).value)
            && p.expiry == (if ExpiryDate in row && row[ExpiryDate].Text? then ctx.toDate(row[ExpiryDate].text) else None)
  {
    assert !Absent(row, RequiredFields[0]) && !Absent(row, RequiredFields[1]);
    assert !Absent(row, RequiredFields[2]) && !Absent(row, RequiredFields[3]);
    assert NumericProblem(row, NumericFields[0], ctx.parse).None? && NumericProblem(row, NumericFields[1], ctx.parse).None?;
  }

  /** The sheet row number of the row at position i: one for the header, one for counting from 1. */
  function SheetRow(i: nat): int {
    i + 2
  }

  /** What the row loop makes of one row: its messages, or the outcome of cleaning it. */
  datatype RowOutcome = Rejected(messages: seq<RowError>) | Cleaned(preview: Result<RowPreview, PreviewFailure>)

  /** Validate the row; clean it only when validation found nothing. */
  function Examine(row: Row, rowNum: int, ctx: PreviewContext): (o: RowOutcome)
    ensures o.Rejected? <==> !RowAccepted(row, ctx.parse)
    ensures o.Rejected? ==> o.messages == RowErrors(row, rowNum, ctx.parse) && o.messages != []
    ensures RowAccepted(row, ctx.parse) ==> o == Cleaned(CleanRow(row, rowNum, ctx))
  {
    var messages := RowErrors(row, rowNum, ctx.parse);
    if messages != [] then Rejected(messages) else Cleaned(CleanRow(row, rowNum, ctx))
  }

  /** The messages of the rejected rows, in row order. */
  function AllMessages(outcomes: seq<RowOutcome>): seq<RowError> {
    if outcomes == [] then []
    else
      var last := outcomes[|outcomes| - 1];
      AllMessages(outcomes[..|outcomes| - 1]) + (if last.Rejected? then last.messages else [])
  }

  /** The previews and the messages collected over a sheet. */
  datatype Scan = Scan(results: seq<RowPreview>, errors: seq<RowError>)

  /** Every cleaned row at position i carries the sheet row number of position i. */
  predicate NumberedBySheetRow(outcomes: seq<RowOutcome>) {
    forall i :: 0 <= i < |outcomes| && outcomes[i].Cleaned? && outcomes[i].preview.Ok? ==>
      outcomes[i].preview.value.rowNum == SheetRow(i)
  }

  /**
   * The row loop of `process_spreadsheet` over the rows' outcomes: a rejected row adds its
   * messages; a cleaned row adds its preview; the first row whose cleaning failed ends the
   * whole preview with that failure.
   */
  function Collect(outcomes: seq<RowOutcome>): (r: Result<Scan, PreviewFailure>)
    ensures r.Ok? ==> r.value.errors == AllMessages(outcomes)
    ensures r.Ok? ==> |r.value.results| <= |outcomes|
  {
    if outcomes == [] then Ok(Scan([], []))
    else
      var n := |outcomes| - 1;
      Step(Collect(outcomes[..n]), outcomes[n])
  }

  /** One turn of the row loop: a failure stays; otherwise the row's messages or preview are added. */
  function Step(acc: Result<Scan, PreviewFailure>, o: RowOutcome): Result<Scan, PreviewFailure> {
    match acc
    case Err(e) => Err(e)
    case Ok(scan) =>
      match o
      case Rejected(messages) => Ok(Scan(scan.results, scan.errors + messages))
      case Cleaned(Err(e)) => Err(e)
      case Cleaned(Ok(p)) => Ok(Scan(scan.results + [p], scan.errors))
  }

  /** Collecting one row more is one more turn of the loop. */
  lemma CollectOneMore(outcomes: seq<RowOutcome>, i: nat)
    requires i < |outcomes|
    ensures Collect(outcomes[..i + 1]) == Step(Collect(outcomes[..i]), outcomes[i])
  {
    assert outcomes[..i + 1][..i] == outcomes[..i];
  }

  /** Every preview collected is the preview of some cleaned row. */
  lemma {:induction false} CollectOnlyCleaned(outcomes: seq<RowOutcome>, p: RowPreview)
    requires Collect(outcomes).Ok? && p in Collect(outcomes).value.results
    ensures exists i :: 0 <= i < |outcomes| && outcomes[i] == Cleaned(Ok(p))
  {
    var n := |outcomes| - 1;
    var acc := Collect(outcomes[..n]);
    if p in acc.value.results {
      CollectOnlyCleaned(outcomes[..n], p);
      var i :| 0 <= i < n && outcomes[..n][i] == Cleaned(Ok(p));
      assert outcomes[i] == Cleaned(Ok(p));
    } else {
      assert outcomes[n] == Cleaned(Ok(p));
    }
  }

  /** When the loop succeeds, every cleaned row converted and its preview is collected. */
  lemma {:induction false} CollectHasCleaned(outcomes: seq<RowOutcome>, i: nat)
    requires Collect(outcomes).Ok? && i < |outcomes| && outcomes[i].Cleaned?
    ensures outcomes[i].preview.Ok? && outcomes[i].preview.value in Collect(outcomes).value.results
  {
    var n := |outcomes| - 1;
    var acc := Collect(outcomes[..n]);
    assert acc.Ok?;
    if i < n {
      assert outcomes[..n][i] == outcomes[i];
      CollectHasCleaned(outcomes[..n], i);
    }
  }

  /** A failed loop failed on some row whose cleaning failed, with that row's failure. */
  lemma {:induction false} CollectFailure(outcomes: seq<RowOutcome>)
    requires Collect(outcomes).Err?
    ensures exists i :: 0 <= i < |outcomes| && outcomes[i] == Cleaned(Err(Collect(outcomes).error))
  {
    var n := |outcomes| - 1;
    var acc := Collect(outcomes[..n]);
    if acc.Err? {
      CollectFailure(outcomes[..n]);
      var i :| 0 <= i < n && outcomes[..n][i] == Cleaned(Err(acc.error));
      assert outcomes[i] == Cleaned(Err(acc.error));
    } else {
      assert outcomes[n] == Cleaned(Err(Collect(outcomes).error));
    }
  }

  /** The previews keep the sheet's row order. */
  lemma {:induction false} CollectKeepsRowOrder(outcomes: seq<RowOutcome>)
    requires NumberedBySheetRow(outcomes) && Collect(outcomes).Ok?
    ensures var results := Collect(outcomes).value.results;
            forall a, b :: 0 <= a < b < |results| ==> results[a].rowNum < results[b].rowNum
  {
    if outcomes != [] {
      var n := |outcomes| - 1;
      assert NumberedBySheetRow(outcomes[..n]) by {
        assert forall i :: 0 <= i < n ==> outcomes[..n][i] == outcomes[i];
      }
      CollectKeepsRowOrder(outcomes[..n]);
      var before := Collect(outcomes[..n]).value.results;
      forall p | p in before
        ensures p.rowNum < SheetRow(n)
      {
        CollectOnlyCleaned(outcomes[..n], p);
        var i :| 0 <= i < n && outcomes[..n][i] == Cleaned(Ok(p));
        assert outcomes[i] == Cleaned(Ok(p));
      }
    }
  }

  /** A failure stays the outcome however many rows follow it. */
  lemma {:induction false} CollectFailureStays(outcomes: seq<RowOutcome>, k: nat)
    requires k <= |outcomes| && Collect(outcomes[..k]).Err?
    ensures Collect(outcomes) == Collect(outcomes[..k])
    decreases |outcomes| - k
  {
    if k < |outcomes| {
      CollectOneMore(outcomes, k);
      CollectFailureStays(outcomes, k + 1);
    } else {
      assert outcomes[..k] == outcomes;
    }
  }

  /** Each row of the sheet examined at its own sheet row number. */
  function Outcomes(rows: seq<Row>, ctx: PreviewContext): (o: seq<RowOutcome>)
    ensures |o| == |rows| && NumberedBySheetRow(o)
    ensures forall i :: 0 <= i < |rows| ==> o[i] == Examine(rows[i], SheetRow(i), ctx)
  {
    seq(|rows|, i requires 0 <= i < |rows| => Examine(rows[i], SheetRow(i), ctx))
  }

  /** The messages of every row, in row order. */
  function AllRowErrors(rows: seq<Row>, parse: NumeralParser): seq<RowError> {
    if rows == [] then []
    else AllRowErrors(rows[..|rows| - 1], parse) + RowErrors(rows[|rows| - 1], SheetRow(|rows| - 1), parse)
  }

  /** The row loop of `process_spreadsheet` over the standardized rows. */
  function PreviewRows(rows: seq<Row>, ctx: PreviewContext): Result<Scan, PreviewFailure> {
    Collect(Outcomes(rows, ctx))
  }

  /** Examining a prefix of the rows gives the prefix of the outcomes. */
  lemma OutcomesPrefix(rows: seq<Row>, ctx: PreviewContext, n: nat)
    requires n <= |rows|
    ensures Outcomes(rows[..n], ctx) == Outcomes(rows, ctx)[..n]
  {
  }

  /** The messages collected are every row's messages, in row order. */
  lemma {:induction false} AllMessagesAreRowErrors(rows: seq<Row>, ctx: PreviewContext)
    ensures AllMessages(Outcomes(rows, ctx)) == AllRowErrors(rows, ctx.parse)
  {
    if rows != [] {
      var n := |rows| - 1;
      OutcomesPrefix(rows, ctx, n);
      AllMessagesAreRowErrors(rows[..n], ctx);
      var last := Examine(rows[n], SheetRow(n), ctx);
      assert !last.Rejected? ==> RowErrors(rows[n], SheetRow(n), ctx.parse) == [];
    }
  }

  /** The report lists every row's messages, in row order, so `error_rows` counts messages, not rows. */
  lemma PreviewErrorsAreRowErrors(rows: seq<Row>, ctx: PreviewContext)
    requires PreviewRows(rows, ctx).Ok?
    ensures PreviewRows(rows, ctx).value.errors == AllRowErrors(rows, ctx.parse)
  {
    AllMessagesAreRowErrors(rows, ctx);
  }

  /** Every row without messages is previewed, as its cleaning. */
  lemma PreviewHasEveryCleanRow(rows: seq<Row>, ctx: PreviewContext, i: nat)
    requires PreviewRows(rows, ctx).Ok? && i < |rows| && RowAccepted(rows[i], ctx.parse)
    ensures CleanRow(rows[i], SheetRow(i), ctx).Ok?
    ensures CleanRow(rows[i], SheetRow(i), ctx).value in PreviewRows(rows, ctx).value.results
  {
    assert Outcomes(rows, ctx)[i] == Cleaned(CleanRow(rows[i], SheetRow(i), ctx));
    CollectHasCleaned(Outcomes(rows, ctx), i);
  }

  /** Every preview is the cleaning of a row without messages. */
  lemma PreviewOnlyCleanRows(rows: seq<Row>, ctx: PreviewContext, p: RowPreview)
    requires PreviewRows(rows, ctx).Ok? && p in PreviewRows(rows, ctx).value.results
    ensures exists i :: 0 <= i < |rows| && RowAccepted(rows[i], ctx.parse) && CleanRow(rows[i], SheetRow(i), ctx) == Ok(p)
  {
    var o := Outcomes(rows, ctx);
    CollectOnlyCleaned(o, p);
    var i :| 0 <= i < |o| && o[i] == Cleaned(Ok(p));
    assert RowAccepted(rows[i], ctx.parse);
  }

  /** The preview fails only because a row without messages failed to clean. */
  lemma PreviewFailsOnCleanRow(rows: seq<Row>, ctx: PreviewContext)
    requires PreviewRows(rows, ctx).Err?
    ensures exists i :: 0 <= i < |rows| && RowAccepted(rows[i], ctx.parse)
                        && CleanRow(rows[i], SheetRow(i), ctx) == Err(PreviewRows(rows, ctx).error)
  {
    var o := Outcomes(rows, ctx);
    CollectFailure(o);
    var i :| 0 <= i < |o| && o[i] == Cleaned(Err(PreviewRows(rows, ctx).error));
    assert RowAccepted(rows[i], ctx.parse);
  }

  /** The previews keep the sheet's row order. */
  lemma PreviewKeepsRowOrder(rows: seq<Row>, ctx: PreviewContext)
    requires PreviewRows(rows, ctx).Ok?
    ensures var results := PreviewRows(rows, ctx).value.results;
            forall a, b :: 0 <= a < b < |results| ==> results[a].rowNum < results[b].rowNum
  {
    CollectKeepsRowOrder(Outcomes(rows, ctx));
  }

  /**
   * A row that passes validation with an empty safety-stock cell makes the whole preview fail:
   * validation skips empty cells, but the cleaning step converts the cell's text 'nan'.
   */
  lemma EmptySafetyStockSinksPreview(rows: seq<Row>, ctx: PreviewContext, i: nat)
    requires i < |rows| && RowAccepted(rows[i], ctx.parse)
    requires SafetyStock in rows[i] && rows[i][SafetyStock].NaN?
    ensures PreviewRows(rows, ctx).Err?
  {
    if PreviewRows(rows, ctx).Ok? {
      PreviewHasEveryCleanRow(rows, ctx, i);
    }
  }

  /** The standardized rows of a sheet read with `headers` and the given cells. */
  function SheetRows(headers: seq<string>, cells: seq<seq<Cell>>): (rows: seq<Row>)
    ensures |rows| <= |cells|
  {
    seq(RowCount(headers, |cells|), i requires 0 <= i < RowCount(headers, |cells|) => Standardize(headers, cells[i]))
  }

  /** The preview `process_spreadsheet` returns on success. */
  datatype PreviewReport = PreviewReport(
    results: seq<RowPreview>,
    errors: seq<RowError>,
    totalRows: nat,   // rows read from the file
    validRows: nat,   // previews
    errorRows: nat)   // messages

  /**
   * `process_spreadsheet`: the format from the file name, then the row loop over the
   * standardized sheet; the counts are those of the file, the previews and the messages.
   */
  function Preview(filename: string, headers: seq<string>, cells: seq<seq<Cell>>, ctx: PreviewContext): (r: Result<PreviewReport, PreviewFailure>)
    ensures FormatOf(filename).None? ==> r == Err(InvalidFileFormat)
    ensures FormatOf(filename).Some? ==>
              var scan := PreviewRows(SheetRows(headers, cells), ctx);
              && (r.Ok? <==> scan.Ok?)
              && (r.Err? ==> r.error == scan.error)
              && (r.Ok? ==> r.value.results == scan.value.results && r.value.errors == scan.value.errors)
    ensures r.Ok? ==> r.value.totalRows == |cells| && r.value.validRows == |r.value.results| && r.value.errorRows == |r.value.errors|
  {
    if FormatOf(filename).None? then Err(InvalidFileFormat)
    else match PreviewRows(SheetRows(headers, cells), ctx)
      case Err(e) => Err(e)
      case Ok(scan) => Ok(PreviewReport(scan.results, scan.errors, |cells|, |scan.results|, |scan.errors|))
  }

  /** A failure within the first k rows is the failure of the whole preview. */
  lemma PreviewStopsAt(rows: seq<Row>, ctx: PreviewContext, k: nat)
    requires k <= |rows| && Collect(Outcomes(rows, ctx)[..k]).Err?
    ensures PreviewRows(rows, ctx) == Collect(Outcomes(rows, ctx)[..k])
  {
    CollectFailureStays(Outcomes(rows, ctx), k);
  }

  /** One row of the loop: validate it, and clean it only when validation found nothing. */
  method ExamineRow(row: Row, rowNum: int, ctx: PreviewContext) returns (o: RowOutcome)
    ensures o == Examine(row, rowNum, ctx)
  {
    var rowErrors := ValidateRowData(row, rowNum, ctx.parse);
    if rowErrors != [] {
      o := Rejected(rowErrors);
    } else {
      o := Cleaned(CleanRow(row, rowNum, ctx));
    }
  }

  /** One turn of the row loop: the row's messages are added, or its preview, or its failure ends the loop. */
  method ScanStep(rows: seq<Row>, ctx: PreviewContext, i: nat, results: seq<RowPreview>, errors: seq<RowError>)
    returns (r: Result<Scan, PreviewFailure>)
    requires i < |rows|
    ensures r == Step(Ok(Scan(results, errors)), Outcomes(rows, ctx)[i])
  {
    var o := ExamineRow(rows[i], SheetRow(i), ctx);
    match o {
      case Rejected(messages) =>
        r := Ok(Scan(results, errors + messages));
      case Cleaned(Err(e)) =>
        r := Err(e);
      case Cleaned(Ok(p)) =>
        r := Ok(Scan(results + [p], errors));
    }
  }

  /** The row loop of `process_spreadsheet`: report each row's messages or add its preview; a failed cleaning ends it. */
  method ScanRows(rows: seq<Row>, ctx: PreviewContext) returns (r: Result<Scan, PreviewFailure>)
    ensures r == PreviewRows(rows, ctx)
  {
    ghost var outcomes := Outcomes(rows, ctx);
    var results: seq<RowPreview> := [];
    var errors: seq<RowError> := [];
    for i := 0 to |rows|
      invariant Collect(outcomes[..i]) == Ok(Scan(results, errors))
    {
      CollectOneMore(outcomes, i);
      var next := ScanStep(rows, ctx, i, results, errors);
      if next.Err? {
        PreviewStopsAt(rows, ctx, i + 1);
        return next;
      }
      results, errors := next.value.results, next.value.errors;
    }
    assert outcomes[..|rows|] == outcomes;
    r := Ok(Scan(results, errors));
  }

  /** `process_spreadsheet`: the format from the file name, then the row loop over the standardized sheet. */
  method ProcessSpreadsheet(filename: string, headers: seq<string>, cells: seq<seq<Cell>>, ctx: PreviewContext)
    returns (r: Result<PreviewReport, PreviewFailure>)
    ensures r == Preview(filename, headers, cells, ctx)
  {
    if FormatOf(filename).None? {
      return Err(InvalidFileFormat);
    }
    var scan := ScanRows(SheetRows(headers, cells), ctx);
    if scan.Err? {
      return Err(scan.error);
    }
    r := Ok(PreviewReport(scan.value.results, scan.value.errors, |cells|, |scan.value.results|, |scan.value.errors|));
  }

  /** The counts of the report: rows read, previews, and every row's messages. */
  lemma PreviewCounts(filename: string, headers: seq<string>, cells: seq<seq<Cell>>, ctx: PreviewContext)
    requires Preview(filename, headers, cells, ctx).Ok?
    ensures var report := Preview(filename, headers, cells, ctx).value;
            report.totalRows == |cells| && report.validRows == |report.results|
            && report.errorRows == |AllRowErrors(SheetRows(headers, cells), ctx.parse)|
  {
    PreviewErrorsAreRowErrors(SheetRows(headers, cells), ctx);
  }

  /**
   * `error_rows` counts messages, not rows: a sheet of one row that lacks the four required
   * fields is reported with at least four messages and no preview.
   */
  lemma ErrorRowsCountsMessages(row: Row, ctx: PreviewContext)
    requires forall k :: 0 <= k < |RequiredFields| ==> Absent(row, RequiredFields[k])
    ensures PreviewRows([row], ctx).Ok?
    ensures |PreviewRows([row], ctx).value.errors| >= 4 && PreviewRows([row], ctx).value.results == []
  {
    var o := Outcomes([row], ctx);
    var required := FieldMessages(SheetRow(0), RequiredFields, RequiredCheck(row));
    assert |required| == 4;
    var messages := RowErrors(row, SheetRow(0), ctx.parse);
    assert o[0] == Rejected(messages);
    assert o[..0] == [];
    assert Collect(o) == Step(Ok(Scan([], [])), Rejected(messages));
  }

  // ---------------------------------------------------------------- confirm

  /**
   * One entry of the confirmed `updates` list as the page posts it back; a key the entry
   * lacks is None (reading it raises KeyError).
   */
  datatype UpdateEntry = UpdateEntry(
    actionType: Option<string>,
    name: Option<string>,
    category: Option<string>,
    costPrice: Option<int>,
    sellingPrice: Option<int>,
    quantity: Option<int>,
    newQuantity: Option<int>,
    safetyStock: Option<int>,
    expiry: Option<Option<Date>>)

  /** The modes that write `qty_at_hand`, and those that write the prices. */
  const QuantityModes: set<string> := {"add_stock", "replace_stock", "full_update"}
  const PriceModes: set<string> := {"update_prices", "full_update"}

  /**
   * What an update in `mode` may do to an existing product: never rename it or touch its
   * initial quantity; change the stock only in a quantity mode, the prices only in a price
   * mode, and category, expiry and safety stock only in 'full_update'.
   */
  predicate UpdatedWithin(before: Product, after: Product, mode: string) {
    && after.name == before.name
    && after.initialQty == before.initialQty
    && (mode !in QuantityModes ==> after.qtyAtHand == before.qtyAtHand)
    && (mode !in PriceModes ==> after.costPrice == before.costPrice && after.sellingPrice == before.sellingPrice)
    && (mode != "full_update" ==>
          after.category == before.category && after.expiry == before.expiry && after.safetyStock == before.safetyStock)
  }

  /** The product after the field writes of an update, and whether every key they read was there. */
  datatype Written = Written(product: Product, complete: bool)

  /**
   * The field writes of `confirm_batch_upload` for an existing product, in the source's order:
   * stock, cost, selling price, category, expiry, safety stock. A missing key stops the writes
   * where it is read, and the earlier writes stay.
   */
  function ApplyUpdate(p: Product, u: UpdateEntry, mode: string): (w: Written)
    ensures UpdatedWithin(p, w.product, mode)
    ensures w.complete <==> (mode in QuantityModes ==> u.newQuantity.Some?)
                            && (mode in PriceModes ==> u.costPrice.Some? && u.sellingPrice.Some?)
                            && (mode == "full_update" ==> u.category.Some? && u.expiry.Some? && u.safetyStock.Some?)
    ensures w.complete && mode in QuantityModes ==> w.product.qtyAtHand == u.newQuantity.value
    ensures w.complete && mode in PriceModes ==> w.product.costPrice == u.costPrice.value && w.product.sellingPrice == u.sellingPrice.value
    ensures w.complete && mode == "full_update" ==>
              w.product.category == u.category.value && w.product.expiry == u.expiry.value && w.product.safetyStock == Some(u.safetyStock.value)
  {
    var quantity := mode in QuantityModes;
    var prices := mode in PriceModes;
    var full := mode == "full_update";
    if quantity && u.newQuantity.None? then Written(p, false)
    else
      var p1 := if quantity then p.(qtyAtHand := u.newQuantity.value) else p;
      if prices && u.costPrice.None? then Written(p1, false)
      else
        var p2 := if prices then p1.(costPrice := u.costPrice.value) else p1;
        if prices && u.sellingPrice.None? then Written(p2, false)
        else
          var p3 := if prices then p2.(sellingPrice := u.sellingPrice.value) else p2;
          if full && u.category.None? then Written(p3, false)
          else
            var p4 := if full then p3.(category := u.category.value) else p3;
            if full && u.expiry.None? then Written(p4, false)
            else
              var p5 := if full then p4.(expiry := u.expiry.value) else p4;
              if full && u.safetyStock.None? then Written(p5, false)
              else Written(if full then p5.(safetyStock := Some(u.safetyStock.value)) else p5, true)
  }

  /**
   * The change list logged for an update, comparing the values before the writes with the
   * entry's cost, selling price and new quantity; None where one of those keys is missing.
   */
  function Changes(p: Product, u: UpdateEntry): (r: Option<seq<Change>>)
    ensures r.Some? <==> u.costPrice.Some? && u.sellingPrice.Some? && u.newQuantity.Some?
    ensures r.Some? ==> (CostChanged(p.costPrice, u.costPrice.value) in r.value <==> p.costPrice != u.costPrice.value)
    ensures r.Some? ==> (SellingChanged(p.sellingPrice, u.sellingPrice.value) in r.value <==> p.sellingPrice != u.sellingPrice.value)
    ensures r.Some? ==> (QuantityChanged(p.qtyAtHand, u.newQuantity.value) in r.value <==> p.qtyAtHand != u.newQuantity.value)
    ensures r.Some? ==> |r.value| <= 3
  {
    if u.costPrice.None? || u.sellingPrice.None? || u.newQuantity.None? then None
    else
      var cost := if p.costPrice != u.costPrice.value then [CostChanged(p.costPrice, u.costPrice.value)] else [];
      var selling := if p.sellingPrice != u.sellingPrice.value then [SellingChanged(p.sellingPrice, u.sellingPrice.value)] else [];
      var qty := if p.qtyAtHand != u.newQuantity.value then [QuantityChanged(p.qtyAtHand, u.newQuantity.value)] else [];
      Some(cost + selling + qty)
  }

  /** The tables the confirm step writes. */
  datatype BatchState = BatchState(products: seq<Product>, log: seq<LogEntry>)

  /** The tables after one entry, and whether it counted as a success. */
  datatype StepResult = StepResult(state: BatchState, success: bool)

  /**
   * What the confirm step may do to the tables: change the products already there only
   * within `mode`, add products after them, and add lines to the end of the log.
   */
  predicate BatchEffect(before: BatchState, after: BatchState, mode: string) {
    && |before.products| <= |after.products|
    && (forall i :: 0 <= i < |before.products| ==> UpdatedWithin(before.products[i], after.products[i], mode))
    && |before.log| <= |after.log| && after.log[..|before.log|] == before.log
  }

  lemma BatchEffectTransitive(a: BatchState, b: BatchState, c: BatchState, mode: string)
    requires BatchEffect(a, b, mode) && BatchEffect(b, c, mode)
    ensures BatchEffect(a, c, mode)
  {
    assert c.log[..|a.log|] == c.log[..|b.log|][..|a.log|];
  }

  /** A 'create' entry carries every key the product row is built from. */
  predicate CreateComplete(u: UpdateEntry) {
    && u.name.Some? && u.category.Some? && u.costPrice.Some? && u.sellingPrice.Some?
    && u.quantity.Some? && u.safetyStock.Some? && u.expiry.Some?
  }

  /** The product a complete 'create' entry adds: the entry's values, with equal initial and current quantity. */
  function Created(u: UpdateEntry): (p: Product)
    requires CreateComplete(u)
    ensures p.name == u.name.value && p.category == u.category.value && p.expiry == u.expiry.value
    ensures p.costPrice == u.costPrice.value && p.sellingPrice == u.sellingPrice.value
    ensures p.initialQty == u.quantity.value && p.qtyAtHand == u.quantity.value && p.safetyStock == Some(u.safetyStock.value)
  {
    Product(u.name.value, u.category.value, u.expiry.value, u.costPrice.value, u.sellingPrice.value,
            u.quantity.value, u.quantity.value, Some(u.safetyStock.value))
  }

  /**
   * One turn of the loop of `confirm_batch_upload`. A 'create' entry with every key adds the
   * product, with equal initial and current quantity, and a log line. An 'update' entry
   * writes the product of that name ignoring case and logs its changes; a name with no
   * product, and any other action, changes nothing and still counts as a success. A missing
   * key counts as an error, keeping the writes made before it.
   */
  function ConfirmOne(state: BatchState, u: UpdateEntry, mode: string, user: string): (r: StepResult)
    ensures BatchEffect(state, r.state, mode)
    ensures u.actionType.None? ==> r == StepResult(state, false)
    ensures u.actionType.Some? && u.actionType.value != "create" && u.actionType.value != "update" ==> r == StepResult(state, true)
    ensures |r.state.products| <= |state.products| + 1
    ensures |r.state.products| > |state.products| ==>
              && u.actionType == Some("create") && r.success && u.name.Some? && u.quantity.Some?
              && r.state.products[|state.products|].name == u.name.value
              && r.state.products[|state.products|].initialQty == u.quantity.value
              && r.state.products[|state.products|].qtyAtHand == u.quantity.value
    ensures u.actionType != Some("update") ==> r.state.products[..|state.products|] == state.products
    ensures u.actionType == Some("update") && u.name.Some? ==>
              forall j :: 0 <= j < |state.products| && !SameNameIgnoringCase(state.products[j].name, u.name.value) ==>
                r.state.products[j] == state.products[j]
    ensures u.actionType == Some("create") && CreateComplete(u) ==>
              r == StepResult(BatchState(state.products + [Created(u)],
                                         state.log + [LogEntry(user, BatchCreateProduct(u.name.value, u.quantity.value))]), true)
    ensures u.actionType == Some("create") && !CreateComplete(u) ==> r == StepResult(state, false)
    ensures u.actionType == Some("update") && u.name.None? ==> r == StepResult(state, false)
    ensures u.actionType == Some("update") && u.name.Some? && FindByNameIgnoringCase(state.products, u.name.value).None? ==>
              r == StepResult(state, true)
    ensures u.actionType == Some("update") && u.name.Some? && FindByNameIgnoringCase(state.products, u.name.value).Some? ==>
              var i := FindByNameIgnoringCase(state.products, u.name.value).value;
              var w := ApplyUpdate(state.products[i], u, mode);
              && r.state.products == state.products[i := w.product]
              && (r.success <==> w.complete && Changes(state.products[i], u).Some?)
              && (r.success ==> r.state.log == state.log + [LogEntry(user, BatchUpdateProduct(u.name.value, Changes(state.products[i], u).value))])
              && (!r.success ==> r.state.log == state.log)
  {
    match u.actionType
    case None => StepResult(state, false)
    case Some(action) =>
      if action == "create" then
        if !CreateComplete(u) then StepResult(state, false)
        else
          var entry := LogEntry(user, BatchCreateProduct(u.name.value, u.quantity.value));
          StepResult(BatchState(state.products + [Created(u)], state.log + [entry]), true)
      else if action == "update" then
        if u.name.None? then StepResult(state, false)
        else match FindByNameIgnoringCase(state.products, u.name.value)
          case None => StepResult(state, true)
          case Some(i) =>
            var before := state.products[i];
            var w := ApplyUpdate(before, u, mode);
            var products := state.products[i := w.product];
            if !w.complete then StepResult(BatchState(products, state.log), false)
            else match Changes(before, u)
              case None => StepResult(BatchState(products, state.log), false)
              case Some(changes) =>
                var entry := LogEntry(user, BatchUpdateProduct(u.name.value, changes));
                StepResult(BatchState(products, state.log + [entry]), true)
      else StepResult(state, true)
  }

  /** The tables after the loop, and the two counters. */
  datatype Tally = Tally(state: BatchState, successCount: nat, errorCount: nat)

  /** The loop of `confirm_batch_upload`: every entry counts once, as a success or as an error. */
  function ConfirmAll(state: BatchState, updates: seq<UpdateEntry>, mode: string, user: string): (t: Tally)
    ensures t.successCount + t.errorCount == |updates|
    ensures BatchEffect(state, t.state, mode)
  {
    if updates == [] then
      assert state.log[..|state.log|] == state.log;
      Tally(state, 0, 0)
    else
      var t := ConfirmAll(state, updates[..|updates| - 1], mode, user);
      var r := ConfirmOne(t.state, updates[|updates| - 1], mode, user);
      BatchEffectTransitive(state, t.state, r.state, mode);
      if r.success then Tally(r.state, t.successCount + 1, t.errorCount)
      else Tally(r.state, t.successCount, t.errorCount + 1)
  }

  /** The posted JSON: the `updates` list and the `update_mode`, either of which may be missing. */
  datatype ConfirmRequest = ConfirmRequest(updates: Option<seq<UpdateEntry>>, mode: Option<string>)

  /** The counters the confirm step reports. */
  datatype ConfirmReport = ConfirmReport(successCount: nat, errorCount: nat)

  /** The commit broke the unique-name constraint, and the whole batch was rolled back. */
  datatype ConfirmFailure = DuplicateName

  datatype ConfirmResult = ConfirmResult(state: BatchState, response: Result<ConfirmReport, ConfirmFailure>)

  /** The entries a request carries; none when the key is missing. */
  function UpdatesOf(req: ConfirmRequest): seq<UpdateEntry> {
    if req.updates.Some? then req.updates.value else []
  }

  /** The mode a request asks for; 'add_stock' when the key is missing. */
  function ModeOf(req: ConfirmRequest): string {
    if req.mode.Some? then req.mode.value else "add_stock"
  }

  /**
   * `confirm_batch_upload`: the loop over the entries, then the commit. A commit that would
   * give two products the same name fails and rolls every change of the batch back; otherwise
   * the tables keep the loop's changes and the counters add up to the number of entries.
   */
  function Confirm(state: BatchState, req: ConfirmRequest, user: string): (r: ConfirmResult)
    ensures r.response.Err? ==> r.state == state
    ensures r.response.Ok? ==> r.response.value.successCount + r.response.value.errorCount == |UpdatesOf(req)|
    ensures NamesUnique(state.products) ==> NamesUnique(r.state.products)
    ensures BatchEffect(state, r.state, ModeOf(req))
    ensures var t := ConfirmAll(state, UpdatesOf(req), ModeOf(req), user);
            && (r.response.Ok? <==> NamesUnique(t.state.products))
            && (r.response.Ok? ==> r.state == t.state && r.response.value == ConfirmReport(t.successCount, t.errorCount))
  {
    var t := ConfirmAll(state, UpdatesOf(req), ModeOf(req), user);
    if NamesUnique(t.state.products) then ConfirmResult(t.state, Ok(ConfirmReport(t.successCount, t.errorCount)))
    else
      assert state.log[..|state.log|] == state.log;
      ConfirmResult(state, Err(DuplicateName))
  }

  /** The field writes of an update on the product at position i, one assignment at a time. */
  method WriteFields(db: Store, i: nat, u: UpdateEntry, mode: string) returns (complete: bool)
    requires i < |db.products|
    modifies db
    ensures var w := ApplyUpdate(old(db.products[i]), u, mode);
            db.products == old(db.products)[i := w.product] && complete == w.complete
    ensures db.sales == old(db.sales) && db.log == old(db.log)
  {
    var p := db.products[i];
    if mode in QuantityModes {
      if u.newQuantity.None? { return false; }
      p := p.(qtyAtHand := u.newQuantity.value);
      db.products := db.products[i := p];
    }
    if mode in PriceModes {
      if u.costPrice.None? { return false; }
      p := p.(costPrice := u.costPrice.value);
      db.products := db.products[i := p];
      if u.sellingPrice.None? { return false; }
      p := p.(sellingPrice := u.sellingPrice.value);
      db.products := db.products[i := p];
    }
    if mode == "full_update" {
      if u.category.None? { return false; }
      p := p.(category := u.category.value);
      db.products := db.products[i := p];
      if u.expiry.None? { return false; }
      p := p.(expiry := u.expiry.value);
      db.products := db.products[i := p];
      if u.safetyStock.None? { return false; }
      p := p.(safetyStock := Some(u.safetyStock.value));
      db.products := db.products[i := p];
    }
    complete := true;
  }

  /** One turn of the confirm loop on the tables in place; true when it counts as a success. */
  method ConfirmEntry(db: Store, u: UpdateEntry, mode: string, user: string) returns (success: bool)
    modifies db
    ensures StepResult(BatchState(db.products, db.log), success) == ConfirmOne(old(BatchState(db.products, db.log)), u, mode, user)
    ensures db.sales == old(db.sales)
  {
    if u.actionType.None? {
      return false;
    }
    var action := u.actionType.value;
    if action == "create" {
      if u.name.None? || u.category.None? || u.costPrice.None? || u.sellingPrice.None?
         || u.quantity.None? || u.safetyStock.None? || u.expiry.None? {
        return false;
      }
      var product := Product(u.name.value, u.category.value, u.expiry.value, u.costPrice.value, u.sellingPrice.value,
                             u.quantity.value, u.quantity.value, Some(u.safetyStock.value));
      db.products := db.products + [product];
      db.log := db.log + [LogEntry(user, BatchCreateProduct(u.name.value, u.quantity.value))];
      success := true;
    } else if action == "update" {
      if u.name.None? {
        return false;
      }
      var found := FindByNameIgnoringCase(db.products, u.name.value);
      if found.None? {
        return true;
      }
      var i := found.value;
      var before := db.products[i];
      var complete := WriteFields(db, i, u, mode);
      if !complete {
        return false;
      }
      var changes := Changes(before, u);
      if changes.None? {
        return false;
      }
      db.log := db.log + [LogEntry(user, BatchUpdateProduct(u.name.value, changes.value))];
      success := true;
    } else {
      success := true;
    }
  }

  /** The loop of `confirm_batch_upload` on the tables in place, counting successes and errors. */
  method ConfirmEntries(db: Store, updates: seq<UpdateEntry>, mode: string, user: string) returns (successCount: nat, errorCount: nat)
    modifies db
    ensures Tally(BatchState(db.products, db.log), successCount, errorCount) == ConfirmAll(old(BatchState(db.products, db.log)), updates, mode, user)
    ensures db.sales == old(db.sales)
  {
    ghost var start := BatchState(db.products, db.log);
    successCount, errorCount := 0, 0;
    for i := 0 to |updates|
      invariant ConfirmAll(start, updates[..i], mode, user) == Tally(BatchState(db.products, db.log), successCount, errorCount)
      invariant db.sales == old(db.sales)
    {
      assert updates[..i + 1][..i] == updates[..i];
      var ok := ConfirmEntry(db, updates[i], mode, user);
      if ok {
        successCount := successCount + 1;
      } else {
        errorCount := errorCount + 1;
      }
    }
    assert updates[..|updates|] == updates;
  }

  /**
   * `confirm_batch_upload` on the tables in place: the loop counts successes and errors, then
   * the commit keeps the changes, or rolls all of them back when a name is no longer unique.
   */
  method ConfirmBatchUpload(db: Store, req: ConfirmRequest, user: string) returns (response: Result<ConfirmReport, ConfirmFailure>)
    modifies db
    ensures ConfirmResult(BatchState(db.products, db.log), response) == Confirm(old(BatchState(db.products, db.log)), req, user)
    ensures db.sales == old(db.sales)
    ensures old(db.Valid()) ==> db.Valid()
  {
    var updates := if req.updates.Some? then req.updates.value else [];
    var mode := if req.mode.Some? then req.mode.value else "add_stock";
    var savedProducts, savedLog := db.products, db.log;
    var successCount, errorCount := ConfirmEntries(db, updates, mode, user);
    if NamesUnique(db.products) {
      response := Ok(ConfirmReport(successCount, errorCount));
    } else {
      db.products, db.log := savedProducts, savedLog;
      response := Err(DuplicateName);
    }
    assert ConfirmResult(BatchState(db.products, db.log), response) == Confirm(BatchState(savedProducts, savedLog), req, user);
    if Consistent(Shop(savedProducts, db.sales)) {
      ConfirmKeepsConsistent(BatchState(savedProducts, savedLog), db.sales, req, user);
    }
  }

  /** The confirm step keeps the schema constraints: names stay unique and no product is removed. */
  lemma ConfirmKeepsConsistent(state: BatchState, sales: seq<Sale>, req: ConfirmRequest, user: string)
    requires Consistent(Shop(state.products, sales))
    ensures Consistent(Shop(Confirm(state, req, user).state.products, sales))
  {
  }

  /** The entry the preview page posts back for a previewed row: every key present. */
  function EntryOf(p: RowPreview): UpdateEntry {
    UpdateEntry(
      Some(if p.action == Update then "update" else "create"),
      Some(p.name), Some(p.category), Some(p.costPrice), Some(p.sellingPrice),
      Some(p.quantity), Some(p.newQuantity), Some(p.safetyStock), Some(p.expiry))
  }

  /**
   * Previewing a row of an existing product and confirming it, against the same catalog and
   * in the same mode, adds the row's quantity to the stock in 'add_stock' mode, sets the stock
   * to it in 'replace_stock' mode, and leaves the stock as it was in every other mode
   * ('full_update' writes the stock, but with the value it already had). The initial
   * quantity never moves.
   */
  lemma PreviewThenConfirm(row: Row, rowNum: int, ctx: PreviewContext, log: seq<LogEntry>, user: string)
    requires RowAccepted(row, ctx.parse)
    requires CleanRow(row, rowNum, ctx).Ok? && CleanRow(row, rowNum, ctx).value.action == Update
    ensures var p := CleanRow(row, rowNum, ctx).value;
            var i := FindByNameIgnoringCase(ctx.products, p.name).value;
            var r := ConfirmOne(BatchState(ctx.products, log), EntryOf(p), ctx.mode, user);
            && r.success
            && r.state.products[i].initialQty == ctx.products[i].initialQty
            && (ctx.mode == "add_stock" ==> r.state.products[i].qtyAtHand == ctx.products[i].qtyAtHand + p.quantity)
            && (ctx.mode == "replace_stock" ==> r.state.products[i].qtyAtHand == p.quantity)
            && (ctx.mode != "add_stock" && ctx.mode != "replace_stock" ==> r.state.products[i].qtyAtHand == ctx.products[i].qtyAtHand)
  {
    var p := CleanRow(row, rowNum, ctx).value;
    ConfirmUpdateEntry(BatchState(ctx.products, log), p, ctx.mode, user, FindByNameIgnoringCase(ctx.products, p.name).value);
  }

  /** Confirming the entry of a previewed update writes the previewed quantity to the product it names. */
  lemma ConfirmUpdateEntry(state: BatchState, p: RowPreview, mode: string, user: string, i: nat)
    requires p.action == Update && FindByNameIgnoringCase(state.products, p.name) == Some(i)
    requires p.newQuantity == NewQuantity(mode, Some(state.products[i]), p.quantity)
    ensures var r := ConfirmOne(state, EntryOf(p), mode, user);
            && r.success
            && r.state.products[i].initialQty == state.products[i].initialQty
            && (mode == "add_stock" ==> r.state.products[i].qtyAtHand == state.products[i].qtyAtHand + p.quantity)
            && (mode == "replace_stock" ==> r.state.products[i].qtyAtHand == p.quantity)
            && (mode != "add_stock" && mode != "replace_stock" ==> r.state.products[i].qtyAtHand == state.products[i].qtyAtHand)
  {
  }

  /**
   * A batch update sets the stock without touching the initial quantity, so the ledger
   * balance of the main handlers does not survive it: 10 units of Milo with no sales are
   * balanced, and replacing the stock by 3 leaves 7 units unaccounted for.
   */
  lemma BatchUpdateBreaksBalance()
    ensures var milo := Product("Milo", "Drinks", None, 500, 700, 10, 10, None);
            var u := UpdateEntry(Some("update"), Some("Milo"), None, Some(500), Some(700), None, Some(3), None, None);
            var r := ConfirmOne(BatchState([milo], []), u, "replace_stock", "manager");
            && Ledger.Balanced(Shop([milo], []))
            && r.success
            && !Ledger.Balanced(Shop(r.state.products, []))
  {
    var milo := Product("Milo", "Drinks", None, 500, 700, 10, 10, None);
    assert FindByNameIgnoringCase([milo], "Milo") == Some(0);
  }
}
