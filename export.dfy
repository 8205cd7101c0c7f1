/**
 * The Volvo and Multialarm exporters: one sheet holding one row per
 * extracted record, its date columns converted where every value
 * parses, and for Volvo the net amount turned into a number with the
 * 27% VAT beside it.
 */
module Export {
  import opened Wrappers
  import opened Patterns
  import opened Numbers
  import opened Invoice
  import opened Workbook
  import Volvo
  import Multialarm

  /** The date columns, in the order the exporters' loop converts them. */
  const DateColumns := ["period_start", "period_end", "invoice_date", "payment_due", "performance_date"]

  /** The columns of a Volvo frame: the record keys, in their order. */
  const VolvoColumns := ["invoice_number", "invoice_date", "payment_due", "performance_date",
                         "period_start", "period_end", "license_plate", "net"]

  const MultialarmColumns := ["invoice_number", "invoice_date", "payment_due", "performance_date",
                              "period_start", "period_end", "license_plate", "net", "vat_percent", "vat_amount"]

  /** The raised `ValueError` of `astype(float)` on a value that is not a number. */
  datatype ExportError = NotAFloat

  /** The four header columns of a frame built from records carrying `hs`. */
  function HeaderColumns(hs: seq<Header>): Frame {
    [ TextColumn("invoice_number", seq(|hs|, i requires 0 <= i < |hs| => hs[i].invoiceNumber)),
      TextColumn("invoice_date", seq(|hs|, i requires 0 <= i < |hs| => hs[i].invoiceDate)),
      TextColumn("payment_due", seq(|hs|, i requires 0 <= i < |hs| => hs[i].paymentDue)),
      TextColumn("performance_date", seq(|hs|, i requires 0 <= i < |hs| => hs[i].performanceDate)) ]
  }

  // ------------------------------------------------------------- Volvo

  /** `pd.DataFrame(data)` for the Volvo records. */
  function VolvoFrame(items: seq<Volvo.Item>): (f: Frame)
    ensures Names(f) == VolvoColumns
  {
    var n := |items|;
    var f := HeaderColumns(seq(n, i requires 0 <= i < n => items[i].header)) + [
      TextColumn("period_start", seq(n, i requires 0 <= i < n => items[i].periodStart)),
      TextColumn("period_end", seq(n, i requires 0 <= i < n => items[i].periodEnd)),
      TextColumn("license_plate", seq(n, i requires 0 <= i < n => items[i].licensePlate)),
      TextColumn("net", seq(n, i requires 0 <= i < n => items[i].net)) ];
    assert Names(f) == VolvoColumns;
    f
  }

  function Nets(items: seq<Volvo.Item>): seq<string> {
    seq(|items|, i requires 0 <= i < |items| => items[i].net)
  }

  /** `(net * 0.27).round(0)` on an exact value. */
  function VatOf(net: real): real {
    RoundHalfEven(net * 27.0 / 100.0) as real
  }

  function Vat(nets: seq<real>): (r: seq<real>)
    ensures |r| == |nets|
  {
    seq(|nets|, i requires 0 <= i < |nets| => VatOf(nets[i]))
  }

  lemma VolvoHasDateColumns(items: seq<Volvo.Item>)
    ensures HasColumns(VolvoFrame(items), DateColumns)
  {
    var names := Names(VolvoFrame(items));
    forall j | 0 <= j < |DateColumns| ensures DateColumns[j] in names {
      assert DateColumns[j] in VolvoColumns;
    }
  }

  /**
   * The sheet `export_volvo_to_excel_bytes` writes: none for no records,
   * the raised error when a net amount does not convert.
   */
  function VolvoSheet(items: seq<Volvo.Item>, parse: string -> Option<Timestamp>): Result<Option<Sheet>, ExportError> {
    if items == [] then Ok(None)
    else
      VolvoHasDateColumns(items);
      var f := DatesUpTo(VolvoFrame(items), DateColumns, |DateColumns|, parse);
      match AsFloats(Nets(items), '.')
      case None => Err(NotAFloat)
      case Some(nets) => Ok(Some(Sheet(DefaultSheet, WithAmounts(f, nets))))
  }

  /** `df["net"] = ...` with the converted amounts, then `df["vat"] = ...`. */
  function WithAmounts(f: Frame, nets: seq<real>): Frame {
    SetColumn(SetColumn(f, "net", NumColumn("net", nets).cells), "vat", NumColumn("vat", Vat(nets)).cells)
  }

  /** The Volvo exporter, with `parse` standing for `pd.to_datetime(_, format="%d-%m-%Y")` on one value. */
  method ExportVolvo(items: seq<Volvo.Item>, parse: string -> Option<Timestamp>) returns (r: Result<Option<Sheet>, ExportError>)
    ensures r == VolvoSheet(items, parse)
  {
    if items == [] {
      return Ok(None);
    }
    VolvoHasDateColumns(items);
    var f := ConvertDateColumns(VolvoFrame(items), DateColumns, parse);
    var nets := AsFloats(Nets(items), '.');
    if nets.None? {
      return Err(NotAFloat);
    }
    r := Ok(Some(Sheet(DefaultSheet, WithAmounts(f, nets.value))));
  }

  /** No records give no workbook; records always give one sheet or the error. */
  lemma VolvoSheetEmpty(items: seq<Volvo.Item>, parse: string -> Option<Timestamp>)
    ensures VolvoSheet(items, parse) == Ok(None) <==> items == []
  {
  }

  /** The written columns: the record keys, then `vat`. */
  lemma VolvoSheetColumns(items: seq<Volvo.Item>, parse: string -> Option<Timestamp>)
    requires VolvoSheet(items, parse).Ok? && VolvoSheet(items, parse).value.Some?
    ensures Names(VolvoSheet(items, parse).value.value.frame) == VolvoColumns + ["vat"]
  {
    VolvoHasDateColumns(items);
    var f := DatesUpTo(VolvoFrame(items), DateColumns, |DateColumns|, parse);
    WithAmountsNames(f, AsFloats(Nets(items), '.').value);
  }

  lemma WithAmountsNames(f: Frame, nets: seq<real>)
    requires Names(f) == VolvoColumns
    ensures Names(WithAmounts(f, nets)) == VolvoColumns + ["vat"]
  {
    WithAmountsColumns(f, nets);
    var g := WithAmounts(f, nets);
    assert Names(g) == VolvoColumns + ["vat"] by {
      assert Names(g)[..8] == Names(f[7 := NumColumn("net", nets)]);
    }
  }

  /** When every net amount has the shape the Volvo parser matches, conversion never raises. */
  lemma VolvoNetsConvert(items: seq<Volvo.Item>)
    requires forall i :: 0 <= i < |items| ==> AmountShape(items[i].net, '.')
    ensures AsFloats(Nets(items), '.').Some?
    ensures forall i :: 0 <= i < |items| ==> AsFloats(Nets(items), '.').value[i] == AmountValue(items[i].net, '.')
  {
    var c := Cleaned(Nets(items), '.');
    forall i | 0 <= i < |items| ensures c[i] == Some(AmountValue(items[i].net, '.')) {
      FloatOfAmount(items[i].net, '.');
    }
  }

  /** On a frame with the Volvo columns, `net` is replaced in place and `vat` is appended. */
  lemma WithAmountsColumns(f: Frame, nets: seq<real>)
    requires Names(f) == VolvoColumns
    ensures var g := WithAmounts(f, nets);
            |g| == 9 && g[..8] == f[7 := NumColumn("net", nets)]
            && g[7] == NumColumn("net", nets) && g[8] == NumColumn("vat", Vat(nets))
  {
    assert Position(VolvoColumns, "net") == Some(7);
    var g := f[7 := NumColumn("net", nets)];
    assert Names(g) == VolvoColumns;
    assert Position(VolvoColumns, "vat") == None;
  }

  /** Where the net amounts convert, the frame gets them as numbers in `net` and their rounded 27% in a new `vat`. */
  lemma VolvoAmountColumns(items: seq<Volvo.Item>, parse: string -> Option<Timestamp>)
    requires items != [] && AsFloats(Nets(items), '.').Some?
    ensures VolvoSheet(items, parse).Ok? && VolvoSheet(items, parse).value.Some?
    ensures var f := VolvoSheet(items, parse).value.value.frame;
            var nets := AsFloats(Nets(items), '.').value;
            |f| == 9 && f[7] == NumColumn("net", nets) && f[8] == NumColumn("vat", Vat(nets))
  {
    VolvoHasDateColumns(items);
    var f := DatesUpTo(VolvoFrame(items), DateColumns, |DateColumns|, parse);
    WithAmountsColumns(f, AsFloats(Nets(items), '.').value);
  }

  /** The VAT of one record: 27% of its amount, rounded to a whole number. */
  lemma VolvoVatValue(items: seq<Volvo.Item>, i: nat)
    requires i < |items| && forall j :: 0 <= j < |items| ==> AmountShape(items[j].net, '.')
    ensures AsFloats(Nets(items), '.').Some?
    ensures Vat(AsFloats(Nets(items), '.').value)[i] == VatOf(AmountValue(items[i].net, '.'))
  {
    VolvoNetsConvert(items);
  }

  /** Every item the Volvo parser returns carries a matched amount. */
  lemma {:induction false} ItemsHaveAmounts(h: Header, pages: seq<Volvo.Page>, n: nat)
    requires n <= |pages|
    ensures forall it :: it in Volvo.ItemsUpTo(h, pages, n) ==> AmountShape(it.net, '.')
  {
    if n > 0 {
      ItemsHaveAmounts(h, pages, n - 1);
      Volvo.PageItemsFromSecondTable(h, pages[n - 1]);
      forall it | it in Volvo.PageItems(h, pages[n - 1]) ensures AmountShape(it.net, '.') {
        var t := pages[n - 1].tables[1];
        var i :| 0 <= i < |t| && Volvo.ItemOf(h, t[i]) == Some(it);
        Volvo.ItemShapes(h, t[i]);
      }
    }
  }

  /** What the Volvo parser returns always exports: the amount conversion never raises. */
  lemma VolvoExtractExports(pages: seq<Volvo.Page>, parse: string -> Option<Timestamp>)
    requires Volvo.Extract(pages).Ok?
    ensures VolvoSheet(Volvo.Extract(pages).value, parse).Ok?
  {
    var h := Volvo.HeaderOf(pages[0]).value;
    var items := Volvo.Extract(pages).value;
    ItemsHaveAmounts(h, pages, |pages|);
    assert forall j :: 0 <= j < |items| ==> items[j] in items;
    VolvoNetsConvert(items);
  }

  // -------------------------------------------------------- Multialarm

  /** `pd.DataFrame(data)` for the Multialarm records. */
  function MultialarmFrame(rows: seq<Multialarm.Row>): (f: Frame)
    ensures Names(f) == MultialarmColumns
  {
    var n := |rows|;
    var f := HeaderColumns(seq(n, i requires 0 <= i < n => rows[i].header)) + [
      TextColumn("period_start", seq(n, i requires 0 <= i < n => rows[i].periodStart)),
      TextColumn("period_end", seq(n, i requires 0 <= i < n => rows[i].periodEnd)),
      TextColumn("license_plate", seq(n, i requires 0 <= i < n => rows[i].licensePlate)),
      NumColumn("net", seq(n, i requires 0 <= i < n => rows[i].net)),
      NumColumn("vat_percent", seq(n, i requires 0 <= i < n => rows[i].vatPercent as real)),
      NumColumn("vat_amount", seq(n, i requires 0 <= i < n => rows[i].vatAmount)) ];
    assert Names(f) == MultialarmColumns;
    f
  }

  lemma MultialarmHasDateColumns(rows: seq<Multialarm.Row>)
    ensures HasColumns(MultialarmFrame(rows), DateColumns)
  {
    var names := Names(MultialarmFrame(rows));
    forall j | 0 <= j < |DateColumns| ensures DateColumns[j] in names {
      assert DateColumns[j] in MultialarmColumns;
    }
  }

  /** The sheet `export_multialarm_to_excel_bytes` writes, none for no records. */
  function MultialarmSheet(rows: seq<Multialarm.Row>, parse: string -> Option<Timestamp>): Option<Sheet> {
    if rows == [] then None
    else
      MultialarmHasDateColumns(rows);
      Some(Sheet(DefaultSheet, DatesUpTo(MultialarmFrame(rows), DateColumns, |DateColumns|, parse)))
  }

  /** The Multialarm exporter, with `parse` standing for `pd.to_datetime(_, format="%Y.%m.%d")` on one value. */
  method ExportMultialarm(rows: seq<Multialarm.Row>, parse: string -> Option<Timestamp>) returns (r: Option<Sheet>)
    ensures r == MultialarmSheet(rows, parse)
  {
    if rows == [] {
      return None;
    }
    MultialarmHasDateColumns(rows);
    var f := ConvertDateColumns(MultialarmFrame(rows), DateColumns, parse);
    r := Some(Sheet(DefaultSheet, f));
  }

  lemma MultialarmSheetEmpty(rows: seq<Multialarm.Row>, parse: string -> Option<Timestamp>)
    ensures MultialarmSheet(rows, parse).None? <==> rows == []
  {
  }

  /**
   * The written sheet keeps the record columns in order, and each column
   * that is not a date column exactly as the records give it.
   */
  lemma MultialarmKeepsValues(rows: seq<Multialarm.Row>, parse: string -> Option<Timestamp>, j: nat)
    requires rows != [] && j < |MultialarmColumns| && MultialarmColumns[j] !in DateColumns
    ensures Names(MultialarmSheet(rows, parse).value.frame) == MultialarmColumns
    ensures MultialarmSheet(rows, parse).value.frame[j] == MultialarmFrame(rows)[j]
  {
    MultialarmHasDateColumns(rows);
    var g := MultialarmFrame(rows);
    assert g[j].name == Names(g)[j];
    DatesKeepOthers(g, DateColumns, |DateColumns|, parse, j);
  }
}
