/**
 * The Vodafone exporter: an `InvoiceSummary` sheet with its currency
 * columns as numbers, a `ServiceCharges` sheet with every charge row
 * enriched from the phone book and the ledger mappings, and a `Pivot`
 * sheet summing the charges per employee and ledger entry.
 */
module VodafoneExport {
  import opened Wrappers
  import opened PyStr
  import opened Numbers
  import opened Workbook
  import opened Mapping
  import opened Pivot
  import Vodafone
  import Patterns

  const SummaryColumns := ["Megnevezés", "Mennyiség", "Mennyiségi egység", "Egységár (Ft)", "TESZOR szám",
                           "ÁFA kulcs", "Nettó összeg (Ft)", "ÁFA összeg (Ft)", "Bruttó összeg (Ft)"]

  /** The positions of the summary's currency columns, in the order they are converted. */
  const CurrencyIndices: seq<nat> := [3, 6, 7, 8]

  /** The service-charge columns: the seven parsed fields, the employee's four, the category, the ledger entry's three. */
  const ChargeColumns := ["PhoneNumber", "Description", "TESZOR", "TotalAmount", "VATAmount", "VATRate", "NetAmount",
                          "Employee", "Cost Center", "Monogram", "Axapta Name", "LedgerTitle",
                          "Title", "VatCode", "LedgerAccount"]

  /** The pivot's group key, as positions in a charge row. */
  const KeyIndices: seq<nat> := [0, 7, 8, 10, 9, 5, 12, 13, 14]

  const PivotColumns := ["PhoneNumber", "Employee", "Cost Center", "Axapta Name", "Monogram",
                         "VATRate", "Title", "VatCode", "LedgerAccount", "NetAmount", "VATAmount"]

  const NotAvailable := "N/A"
  const Unknown := "Ismeretlen"
  const Central := "Központi"

  /**
   * Why the export raises. `NotAFloat` is the `ValueError` of `astype(float)`
   * inside the currency loop. `NoSheet` is openpyxl's "at least one sheet
   * must be visible", raised when `ExcelWriter.__exit__` saves a workbook
   * with no sheet. The summary sheet is written first, so a summary
   * amount that does not convert leaves no sheet, and the save's error
   * replaces the `ValueError` on its way out of the `with` block.
   */
  datatype ExportError = NotAFloat | NoSheet

  /** The `j`-th field of every row: one column of the frame built from the rows. */
  function Field(rows: seq<seq<string>>, j: nat): (r: seq<string>)
    requires forall i :: 0 <= i < |rows| ==> j < |rows[i]|
    ensures |r| == |rows|
  {
    seq(|rows|, i requires 0 <= i < |rows| => rows[i][j])
  }

  // ----------------------------------------------------------- summary

  /** `pd.DataFrame(result["invoice_summary"], columns=[...])`. */
  function SummaryFrame(rows: seq<seq<string>>): (f: Frame)
    requires Vodafone.Widths(rows, 9)
    ensures |f| == 9
  {
    seq(9, j requires 0 <= j < 9 => TextColumn(SummaryColumns[j], Field(rows, j)))
  }

  /** Each currency column converted by `astype(float)`: `None` for a column holding a value it rejects. */
  function Conversions(rows: seq<seq<string>>): (r: seq<Option<seq<real>>>)
    requires Vodafone.Widths(rows, 9)
    ensures |r| == 4
  {
    seq(4, c requires 0 <= c < 4 => AsFloats(Field(rows, CurrencyIndices[c]), '.'))
  }

  /** The currency loop over the first `n` currency columns: each converts, or the loop raises. */
  function CurrencyUpTo(base: Frame, conv: seq<Option<seq<real>>>, n: nat): (r: Result<Frame, ExportError>)
    requires |base| == 9 && |conv| == 4 && n <= 4
    ensures r.Ok? ==> |r.value| == 9
  {
    if n == 0 then Ok(base)
    else match CurrencyUpTo(base, conv, n - 1)
      case Err(e) => Err(e)
      case Ok(f) =>
        if conv[n - 1].None? then Err(NotAFloat) else Ok(WithCurrency(f, CurrencyIndices[n - 1], conv[n - 1].value))
  }

  /** `df[col] = values`: the `j`-th summary column replaced by the converted numbers. */
  function WithCurrency(f: Frame, j: nat, values: seq<real>): (r: Frame)
    requires |f| == 9 && j < 9
    ensures |r| == 9 && r[j] == NumColumn(SummaryColumns[j], values)
    ensures forall k :: 0 <= k < 9 && k != j ==> r[k] == f[k]
  {
    f[j := NumColumn(SummaryColumns[j], values)]
  }

  /** The summary frame after its currency loop, or the error the loop raises. */
  function SummaryConverted(rows: seq<seq<string>>): Result<Frame, ExportError>
    requires Vodafone.Widths(rows, 9)
  {
    CurrencyUpTo(SummaryFrame(rows), Conversions(rows), 4)
  }

  /** The currency loop of the summary sheet. */
  method ConvertSummary(rows: seq<seq<string>>) returns (r: Result<Frame, ExportError>)
    requires Vodafone.Widths(rows, 9)
    ensures r == SummaryConverted(rows)
  {
    var f := SummaryFrame(rows);
    ghost var base := f;
    var conv := Conversions(rows);
    for c := 0 to 4
      invariant CurrencyUpTo(base, conv, c) == Ok(f)
    {
      if conv[c].None? {
        CurrencyErrorStays(base, conv, c + 1, 4);
        return Err(NotAFloat);
      }
      f := WithCurrency(f, CurrencyIndices[c], conv[c].value);
    }
    r := Ok(f);
  }

  /** Once a conversion raises, the loop's outcome is that error. */
  lemma {:induction false} CurrencyErrorStays(base: Frame, conv: seq<Option<seq<real>>>, m: nat, n: nat)
    requires |base| == 9 && |conv| == 4 && m <= n <= 4 && CurrencyUpTo(base, conv, m).Err?
    ensures CurrencyUpTo(base, conv, n) == CurrencyUpTo(base, conv, m)
  {
    if m < n {
      CurrencyErrorStays(base, conv, m, n - 1);
    }
  }

  /** The loop completes exactly when every column converts, and otherwise raises the conversion error. */
  lemma {:induction false} CurrencyConverts(base: Frame, conv: seq<Option<seq<real>>>, n: nat)
    requires |base| == 9 && |conv| == 4 && n <= 4
    ensures CurrencyUpTo(base, conv, n).Ok? <==> forall c :: 0 <= c < n ==> conv[c].Some?
    ensures CurrencyUpTo(base, conv, n).Err? ==> CurrencyUpTo(base, conv, n).error == NotAFloat
  {
    if n > 0 {
      CurrencyConverts(base, conv, n - 1);
    }
  }

  /** A converted column holds its numbers. */
  lemma {:induction false} CurrencyColumnConverted(base: Frame, conv: seq<Option<seq<real>>>, n: nat, c: nat)
    requires |base| == 9 && |conv| == 4 && c < n <= 4 && CurrencyUpTo(base, conv, n).Ok?
    ensures conv[c].Some?
    ensures CurrencyUpTo(base, conv, n).value[CurrencyIndices[c]] == NumColumn(SummaryColumns[CurrencyIndices[c]], conv[c].value)
  {
    if c < n - 1 {
      CurrencyColumnConverted(base, conv, n - 1, c);
    }
  }

  /** A column that is not a currency column is never touched. */
  lemma {:induction false} CurrencyColumnKept(base: Frame, conv: seq<Option<seq<real>>>, n: nat, j: nat)
    requires |base| == 9 && |conv| == 4 && n <= 4 && j < 9 && j !in CurrencyIndices && CurrencyUpTo(base, conv, n).Ok?
    ensures CurrencyUpTo(base, conv, n).value[j] == base[j]
  {
    if n > 0 {
      CurrencyColumnKept(base, conv, n - 1, j);
    }
  }

  // ----------------------------------------------------- service charges

  function OptionalText(o: Option<string>): Cell {
    if o.Some? then Text(o.value) else Null
  }

  /** `phone_user_map.get(pn, {}).get(field, "N/A")` for the name, cost centre, monogram and Axapta name. */
  function EmployeeCells(phones: map<string, EmployeeInfo>, pn: string): (r: seq<Cell>)
    ensures |r| == 4
  {
    if pn in phones then
      var e := phones[pn];
      [Text(e.name), OptionalText(e.costCenter), OptionalText(e.monogram), OptionalText(e.axaptaName)]
    else [Text(NotAvailable), Text(NotAvailable), Text(NotAvailable), Text(NotAvailable)]
  }

  /** `df["TESZOR"].map(teszor_category_map).fillna("N/A")` for one row. */
  function CategoryCell(categories: map<string, string>, teszor: string): Cell {
    if teszor in categories then Text(categories[teszor]) else Text(NotAvailable)
  }

  /** `extract_mapping_info`: the ledger entry for (TESZOR, VAT rate), or "Ismeretlen" three times. */
  function LedgerCells(lookup: map<(string, Option<string>), LedgerEntry>, teszor: string, rate: string): (r: seq<Cell>)
    ensures |r| == 3
  {
    var key := (teszor, Some(rate));
    if key in lookup then
      var e := lookup[key];
      [Text(e.title), Text(e.vatCode), OptionalText(e.ledgerAccount)]
    else [Text(Unknown), Text(Unknown), Text(Unknown)]
  }

  /** `_clean_float`: the cleaned text's value when it is a decimal literal, `None` otherwise. */
  function CleanFloat(v: string): (r: Option<real>)
    ensures r.Some? <==> IsDecimalLiteral(Strip(CommaDecimal(v, '.')))
  {
    FloatOf(CommaDecimal(v, '.'))
  }

  /** A cleaned amount in a float column: `None` is stored as a missing value. */
  function AmountCell(v: string): Cell {
    match CleanFloat(v)
    case Some(x) => Num(x)
    case None => Null
  }

  /** One row of the `ServiceCharges` sheet. */
  function ChargeCells(row: seq<string>, phones: map<string, EmployeeInfo>, categories: map<string, string>,
                       lookup: map<(string, Option<string>), LedgerEntry>): (r: seq<Cell>)
    requires |row| == 7
    ensures |r| == 15
  {
    [Text(row[0]), Text(row[1]), Text(row[2]), AmountCell(row[3]), AmountCell(row[4]), Text(row[5]), AmountCell(row[6])]
      + EmployeeCells(phones, row[0]) + [CategoryCell(categories, row[2])] + LedgerCells(lookup, row[2], row[5])
  }

  function ChargeRows(rows: seq<seq<string>>, phones: map<string, EmployeeInfo>, categories: map<string, string>,
                      lookup: map<(string, Option<string>), LedgerEntry>): (r: seq<seq<Cell>>)
    requires Vodafone.Widths(rows, 7)
    ensures |r| == |rows| && forall i :: 0 <= i < |r| ==> |r[i]| == 15
  {
    seq(|rows|, i requires 0 <= i < |rows| => ChargeCells(rows[i], phones, categories, lookup))
  }

  /** The frame whose `i`-th row is `rows[i]`. */
  function FrameOf(names: seq<string>, rows: seq<seq<Cell>>): Frame
    requires forall i :: 0 <= i < |rows| ==> |rows[i]| == |names|
  {
    seq(|names|, j requires 0 <= j < |names| =>
      Column(names[j], seq(|rows|, i requires 0 <= i < |rows| => rows[i][j])))
  }

  // ------------------------------------------------------------- pivot

  /** The two `df.loc` assignments made after `ServiceCharges` is written, on one row. */
  function Relabel(cells: seq<Cell>): (r: seq<Cell>)
    requires |cells| == 15
    ensures |r| == 15
  {
    if cells[7] == Text(Central) then
      var phone := if cells[0] in [Null, Text(""), Text(NotAvailable)] then Text(Central) else cells[0];
      cells[0 := phone][10 := Text(NotAvailable)]
    else cells
  }

  /** The group key of a row: its key cells' texts, `None` when one is missing (`groupby` drops the row). */
  function KeyOf(cells: seq<Cell>): Option<seq<string>>
    requires |cells| == 15
  {
    if forall c :: 0 <= c < 9 ==> cells[KeyIndices[c]].Text? then
      Some(seq(9, c requires 0 <= c < 9 => cells[KeyIndices[c]].text))
    else None
  }

  /** A value as `sum` counts it: a missing one adds nothing. */
  function NumOrZero(c: Cell): real {
    if c.Num? then c.value else 0.0
  }

  function ContributionOf(cells: seq<Cell>): Contribution
    requires |cells| == 15
  {
    var r := Relabel(cells);
    Contribution(KeyOf(r), NumOrZero(r[6]), NumOrZero(r[4]))
  }

  function Contributions(rows: seq<seq<Cell>>): seq<Contribution>
    requires forall i :: 0 <= i < |rows| ==> |rows[i]| == 15
  {
    seq(|rows|, i requires 0 <= i < |rows| => ContributionOf(rows[i]))
  }

  /** One output row of the pivot, after `reset_index()`: the key texts, then the two sums. */
  function PivotRow(g: Group): seq<Cell> {
    seq(|g.key|, c requires 0 <= c < |g.key| => Text(g.key[c])) + [Num(g.net), Num(g.vat)]
  }

  function PivotRows(gs: seq<Group>): seq<seq<Cell>> {
    seq(|gs|, i requires 0 <= i < |gs| => PivotRow(gs[i]))
  }

  // ---------------------------------------------------------- workbook

  function ChargeSheets(rows: seq<seq<string>>, phones: map<string, EmployeeInfo>, categories: map<string, string>,
                        lookup: map<(string, Option<string>), LedgerEntry>): (r: seq<Sheet>)
    requires Vodafone.Widths(rows, 7)
    ensures |r| == 2 && r[0].name == "ServiceCharges" && r[1].name == "Pivot"
  {
    var cells := ChargeRows(rows, phones, categories, lookup);
    [Sheet("ServiceCharges", FrameOf(ChargeColumns, cells)),
     Sheet("Pivot", PivotFrame(PivotOf(Contributions(cells))))]
  }

  function PivotFrame(gs: seq<Group>): Frame {
    Columns(PivotColumns, PivotRows(gs))
  }

  /** `FrameOf` for rows of any width, a short row giving an empty cell. */
  function Columns(names: seq<string>, rows: seq<seq<Cell>>): Frame {
    seq(|names|, j requires 0 <= j < |names| =>
      Column(names[j], seq(|rows|, i requires 0 <= i < |rows| => if j < |rows[i]| then rows[i][j] else Null)))
  }

  /**
   * The `InvoiceSummary` sheet, written only when there are summary rows;
   * a currency column that does not convert raises before any sheet exists.
   */
  function SummarySheets(rows: seq<seq<string>>): (r: Result<seq<Sheet>, ExportError>)
    requires Vodafone.Widths(rows, 9)
    ensures r.Ok? ==> |r.value| == (if rows == [] then 0 else 1)
    ensures r.Ok? && rows != [] ==> r.value[0].name == "InvoiceSummary"
  {
    if rows == [] then Ok([])
    else match SummaryConverted(rows)
      case Err(e) => Err(e)
      case Ok(f) => Ok([Sheet("InvoiceSummary", f)])
  }

  /** The `ServiceCharges` and `Pivot` sheets, written only when there are charge rows. */
  function ChargeSheetsOf(rows: seq<seq<string>>, phones: map<string, EmployeeInfo>, categories: map<string, string>,
                          lookup: map<(string, Option<string>), LedgerEntry>): (r: seq<Sheet>)
    requires Vodafone.Widths(rows, 7)
    ensures |r| == (if rows == [] then 0 else 2)
    ensures rows != [] ==> r[0].name == "ServiceCharges" && r[1].name == "Pivot"
  {
    if rows == [] then [] else ChargeSheets(rows, phones, categories, lookup)
  }

  /**
   * What `export_vodafone_to_excel_bytes` writes: the summary sheet when
   * there are summary rows, the two charge sheets when there are charge
   * rows, or the error it raises. A failed summary conversion leaves the
   * workbook without a sheet, so the caller sees the save's error.
   */
  function VodafoneWorkbook(inv: Vodafone.Invoice, phones: map<string, EmployeeInfo>, categories: map<string, string>,
                            lookup: map<(string, Option<string>), LedgerEntry>): Result<seq<Sheet>, ExportError>
    requires Vodafone.Widths(inv.summary, 9) && Vodafone.Widths(inv.charges, 7)
  {
    match SummarySheets(inv.summary)
    case Err(_) => Err(NoSheet)
    case Ok(s) =>
      var sheets := s + ChargeSheetsOf(inv.charges, phones, categories, lookup);
      if sheets == [] then Err(NoSheet) else Ok(sheets)
  }

  /** The exporter. */
  method ExportVodafone(inv: Vodafone.Invoice, phones: map<string, EmployeeInfo>, categories: map<string, string>,
                        lookup: map<(string, Option<string>), LedgerEntry>) returns (r: Result<seq<Sheet>, ExportError>)
    requires Vodafone.Widths(inv.summary, 9) && Vodafone.Widths(inv.charges, 7)
    ensures r == VodafoneWorkbook(inv, phones, categories, lookup)
  {
    var sheets: seq<Sheet> := [];
    if inv.summary != [] {
      var f := ConvertSummary(inv.summary);
      if f.Err? {
        // The `with` block closes on the way out and fails to save a workbook without sheets.
        return Err(NoSheet);
      }
      sheets := [Sheet("InvoiceSummary", f.value)];
    }
    assert SummarySheets(inv.summary) == Ok(sheets);
    if inv.charges != [] {
      sheets := sheets + ChargeSheets(inv.charges, phones, categories, lookup);
    }
    assert sheets == SummarySheets(inv.summary).value + ChargeSheetsOf(inv.charges, phones, categories, lookup);
    if sheets == [] {
      return Err(NoSheet);
    }
    r := Ok(sheets);
  }

  // ------------------------------------------------------------ lemmas

  function SheetNames(sheets: seq<Sheet>): seq<string> {
    seq(|sheets|, i requires 0 <= i < |sheets| => sheets[i].name)
  }

  /**
   * The workbook has `InvoiceSummary` exactly when there are summary rows
   * and `ServiceCharges` and `Pivot` exactly when there are charge rows;
   * it fails with no rows at all, or when a summary amount does not convert.
   */
  lemma WorkbookSheets(inv: Vodafone.Invoice, phones: map<string, EmployeeInfo>, categories: map<string, string>,
                       lookup: map<(string, Option<string>), LedgerEntry>)
    requires Vodafone.Widths(inv.summary, 9) && Vodafone.Widths(inv.charges, 7)
    ensures var r := VodafoneWorkbook(inv, phones, categories, lookup);
            r.Ok? ==> SheetNames(r.value) == (if inv.summary == [] then [] else ["InvoiceSummary"])
                                           + (if inv.charges == [] then [] else ["ServiceCharges", "Pivot"])
  {
    if SummarySheets(inv.summary).Ok? {
      ConcatNames(SummarySheets(inv.summary).value, ChargeSheetsOf(inv.charges, phones, categories, lookup),
                  inv.summary != [], inv.charges != []);
    }
  }

  lemma ConcatNames(s: seq<Sheet>, c: seq<Sheet>, summary: bool, charges: bool)
    requires |s| == (if summary then 1 else 0) && (summary ==> s[0].name == "InvoiceSummary")
    requires |c| == (if charges then 2 else 0) && (charges ==> c[0].name == "ServiceCharges" && c[1].name == "Pivot")
    ensures SheetNames(s + c) == (if summary then ["InvoiceSummary"] else []) + (if charges then ["ServiceCharges", "Pivot"] else [])
  {
    var expected := (if summary then ["InvoiceSummary"] else []) + (if charges then ["ServiceCharges", "Pivot"] else []);
    forall k | 0 <= k < |expected|
      ensures SheetNames(s + c)[k] == expected[k]
    {
      if k < |s| {
        assert (s + c)[k] == s[k];
      } else {
        assert (s + c)[k] == c[k - |s|];
      }
    }
  }

  /**
   * The export fails only with the no-sheet error, and fails exactly when
   * both lists are empty or a summary amount does not convert.
   */
  lemma WorkbookFailures(inv: Vodafone.Invoice, phones: map<string, EmployeeInfo>, categories: map<string, string>,
                         lookup: map<(string, Option<string>), LedgerEntry>)
    requires Vodafone.Widths(inv.summary, 9) && Vodafone.Widths(inv.charges, 7)
    ensures var r := VodafoneWorkbook(inv, phones, categories, lookup);
            && (r.Err? ==> r.error == NoSheet)
            && (r.Err? <==>
                  || (inv.summary == [] && inv.charges == [])
                  || (inv.summary != [] && exists c :: 0 <= c < 4 && Conversions(inv.summary)[c].None?))
  {
    if inv.summary != [] {
      CurrencyConverts(SummaryFrame(inv.summary), Conversions(inv.summary), 4);
    }
  }

  /** A converted currency column holds, row by row, the numbers the cleaned texts denote. */
  lemma ConversionValue(rows: seq<seq<string>>, c: nat, i: nat)
    requires Vodafone.Widths(rows, 9) && c < 4 && i < |rows| && Conversions(rows)[c].Some?
    ensures var t := CommaDecimal(rows[i][CurrencyIndices[c]], '.');
            && FloatOf(t).Some?
            && |Conversions(rows)[c].value| == |rows| && Conversions(rows)[c].value[i] == FloatOf(t).value
  {
    var texts := Field(rows, CurrencyIndices[c]);
    assert Conversions(rows)[c] == AsFloats(texts, '.');
    AsFloatsValue(texts, '.', i);
  }

  /** A summary currency amount ends up as the number its cleaned text denotes. */
  lemma SummaryAmount(rows: seq<seq<string>>, c: nat, i: nat)
    requires Vodafone.Widths(rows, 9) && c < 4 && i < |rows| && SummaryConverted(rows).Ok?
    ensures var j := CurrencyIndices[c];
            var col := SummaryConverted(rows).value[j];
            && FloatOf(CommaDecimal(rows[i][j], '.')).Some?
            && |col.cells| == |rows| && col.cells[i] == Num(FloatOf(CommaDecimal(rows[i][j], '.')).value)
  {
    var conv := Conversions(rows);
    CurrencyColumnConverted(SummaryFrame(rows), conv, 4, c);
    ConversionValue(rows, c, i);
  }

  /** The summary's non-currency fields are written as the parsed texts. */
  lemma SummaryText(rows: seq<seq<string>>, j: nat, i: nat)
    requires Vodafone.Widths(rows, 9) && j < 9 && j !in CurrencyIndices && i < |rows| && SummaryConverted(rows).Ok?
    ensures var col := SummaryConverted(rows).value[j];
            |col.cells| == |rows| && col.cells[i] == Text(rows[i][j])
  {
    CurrencyColumnKept(SummaryFrame(rows), Conversions(rows), 4, j);
  }

  /** An amount the parsers' pattern matches always cleans to its value. */
  lemma CleanFloatOfAmount(g: string)
    requires Patterns.AmountShape(g, '.')
    ensures CleanFloat(g) == Some(AmountValue(g, '.'))
  {
    FloatOfAmount(g, '.');
  }

  /** A phone number the phone book knows gets its employee's fields; any other gets "N/A" four times. */
  lemma EmployeeDefaults(phones: map<string, EmployeeInfo>, pn: string)
    ensures pn !in phones ==> forall c :: 0 <= c < 4 ==> EmployeeCells(phones, pn)[c] == Text(NotAvailable)
    ensures pn in phones ==> EmployeeCells(phones, pn)[0] == Text(phones[pn].name)
  {
  }

  /** A (TESZOR, rate) pair the lookup lacks gets "Ismeretlen" for title, VAT code and ledger account. */
  lemma LedgerDefaults(lookup: map<(string, Option<string>), LedgerEntry>, teszor: string, rate: string)
    ensures (teszor, Some(rate)) !in lookup ==> forall c :: 0 <= c < 3 ==> LedgerCells(lookup, teszor, rate)[c] == Text(Unknown)
    ensures (teszor, Some(rate)) in lookup ==> LedgerCells(lookup, teszor, rate)[0] == Text(lookup[(teszor, Some(rate))].title)
  {
  }

  /**
   * Relabelling touches only rows of the "Központi" employee: on those the
   * Axapta name becomes "N/A" and a missing, empty or "N/A" phone number
   * becomes "Központi"; every other cell is kept.
   */
  lemma RelabelOnlyCentral(cells: seq<Cell>, c: nat)
    requires |cells| == 15 && c < 15
    ensures cells[7] != Text(Central) ==> Relabel(cells) == cells
    ensures c != 0 && c != 10 ==> Relabel(cells)[c] == cells[c]
    ensures cells[7] == Text(Central) ==> Relabel(cells)[10] == Text(NotAvailable)
  {
  }

  lemma RelabelPhone(cells: seq<Cell>)
    requires |cells| == 15 && cells[7] == Text(Central)
    ensures Relabel(cells)[0] == if cells[0] in [Null, Text(""), Text(NotAvailable)] then Text(Central) else cells[0]
  {
  }

  /**
   * The pivot's rows come sorted by key, each key once; a key has a row
   * exactly when some charge row with no missing key cell carries it, and
   * that row holds the sums of the key's net and VAT amounts.
   */
  lemma PivotSummarises(cells: seq<seq<Cell>>, k: seq<string>)
    requires forall i :: 0 <= i < |cells| ==> |cells[i]| == 15
    ensures Sorted(PivotOf(Contributions(cells)))
    ensures var rows := Contributions(cells);
            Pivot.Find(PivotOf(rows), k) == if HasKey(rows, k) then Some(Group(k, NetTotal(rows, k), VatTotal(rows, k))) else None
  {
    PivotSorted(Contributions(cells));
    PivotGroups(Contributions(cells), k);
  }

  /** Column `j`, row `i` of the `ServiceCharges` sheet is field `j` of charge row `i` as enriched. */
  lemma ServiceChargesCell(rows: seq<seq<string>>, phones: map<string, EmployeeInfo>, categories: map<string, string>,
                           lookup: map<(string, Option<string>), LedgerEntry>, i: nat, j: nat)
    requires Vodafone.Widths(rows, 7) && i < |rows| && j < 15
    ensures var f := ChargeSheetsOf(rows, phones, categories, lookup)[0].frame;
            && |f| == 15 && f[j].name == ChargeColumns[j]
            && |f[j].cells| == |rows| && f[j].cells[i] == ChargeCells(rows[i], phones, categories, lookup)[j]
  {
    var cells := ChargeRows(rows, phones, categories, lookup);
    assert cells[i] == ChargeCells(rows[i], phones, categories, lookup);
  }
}
