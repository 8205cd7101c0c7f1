/**
 * The Volvo layout: the invoice number from the first table of page 1,
 * the three header dates from the first page-1 line holding three
 * dd-mm-yyyy dates, then one item per qualifying row of the second table
 * of every page.
 */
module Volvo {
  import opened Wrappers
  import opened PyStr
  import opened Patterns
  import opened Invoice

  /** A table as the PDF reader gives it: rows of cell texts. */
  type Table = seq<seq<string>>

  /** A page: its text (`None` when the reader finds none) and its tables. */
  datatype Page = Page(text: Option<string>, tables: seq<Table>)

  /** One output record: the header fields merged with one table row. */
  datatype Item = Item(header: Header, periodStart: string, periodEnd: string, licensePlate: string, net: string)

  /**
   * The exceptions `process_volvo` can raise on its input: the document
   * has no page, the second row of the first table is empty, or page 1
   * has no text.
   */
  datatype Failure = NoPages | EmptyNumberRow | NoFirstPageText

  // ------------------------------------------------------------ header

  /** The first cell of the second row of the first table, "" when that table has fewer rows. */
  function InvoiceNumberOf(tables: seq<Table>): (r: Result<string, Failure>)
    ensures !(|tables| >= 1 && |tables[0]| >= 2) ==> r == Ok("")
    ensures r.Err? <==> |tables| >= 1 && |tables[0]| >= 2 && tables[0][1] == []
  {
    if |tables| >= 1 && |tables[0]| >= 2 then
      var row := tables[0][1];
      if row == [] then Err(EmptyNumberRow) else Ok(row[0])
    else Ok("")
  }

  predicate HasThreeDates(line: string) {
    |FindAll(DashDate, line)| >= 3
  }

  /** The index of the first line holding at least three dates. */
  function FirstDateLine(lines: seq<string>): (r: Option<nat>)
    ensures r.Some? ==> r.value < |lines| && HasThreeDates(lines[r.value])
    ensures r.Some? ==> forall j :: 0 <= j < r.value ==> !HasThreeDates(lines[j])
    ensures r.None? ==> forall j :: 0 <= j < |lines| ==> !HasThreeDates(lines[j])
  {
    if lines == [] then None
    else if HasThreeDates(lines[0]) then Some(0)
    else
      var rest := FirstDateLine(lines[1..]);
      if rest.Some? then Some(rest.value + 1) else None
  }

  datatype Dates = Dates(invoiceDate: string, paymentDue: string, performanceDate: string)

  /** The first three dates of the first line holding three, or three "" when none does. */
  function HeaderDates(lines: seq<string>): Dates {
    match FirstDateLine(lines)
    case None => Dates("", "", "")
    case Some(i) =>
      var d := FindAll(DashDate, lines[i]);
      Dates(d[0], d[1], d[2])
  }

  /** The header loop of `process_volvo`: stops at the first line holding three dates. */
  method ScanHeaderDates(lines: seq<string>) returns (dates: Dates)
    ensures dates == HeaderDates(lines)
  {
    dates := Dates("", "", "");
    var k := 0;
    while k < |lines|
      invariant k <= |lines|
      invariant forall j :: 0 <= j < k ==> !HasThreeDates(lines[j])
      invariant dates == Dates("", "", "")
    {
      var found := FindAll(DashDate, lines[k]);
      if |found| >= 3 {
        dates := Dates(found[0], found[1], found[2]);
        FirstDateLineIs(lines, k);
        return;
      }
      k := k + 1;
    }
    FirstDateLineNone(lines);
  }

  lemma {:induction false} FirstDateLineIs(lines: seq<string>, k: nat)
    requires k < |lines| && HasThreeDates(lines[k])
    requires forall j :: 0 <= j < k ==> !HasThreeDates(lines[j])
    ensures FirstDateLine(lines) == Some(k)
  {
    if k > 0 {
      assert !HasThreeDates(lines[0]);
      assert forall j :: 0 <= j < k - 1 ==> lines[1..][j] == lines[j + 1];
      FirstDateLineIs(lines[1..], k - 1);
    }
  }

  lemma FirstDateLineNone(lines: seq<string>)
    requires forall j :: 0 <= j < |lines| ==> !HasThreeDates(lines[j])
    ensures FirstDateLine(lines) == None
  {
  }

  /** Lines after the first one holding three dates are never examined. */
  lemma {:induction false} HeaderDatesIgnoreLaterLines(lines: seq<string>, more: seq<string>)
    requires FirstDateLine(lines).Some?
    ensures FirstDateLine(lines + more) == FirstDateLine(lines)
    ensures HeaderDates(lines + more) == HeaderDates(lines)
  {
    var k := FirstDateLine(lines).value;
    assert forall j :: 0 <= j <= k ==> (lines + more)[j] == lines[j];
    FirstDateLineIs(lines + more, k);
  }

  /** The header of the document: from page 1's first table and its text. */
  function HeaderOf(first: Page): Result<Header, Failure> {
    match InvoiceNumberOf(first.tables)
    case Err(e) => Err(e)
    case Ok(number) =>
      if first.text.None? then Err(NoFirstPageText)
      else
        var d := HeaderDates(SplitLines(first.text.value));
        Ok(Header(number, d.invoiceDate, d.paymentDue, d.performanceDate))
  }

  // ------------------------------------------------------------- items

  /**
   * The plate of a row: the text before the first date on the row's
   * second line, with spaces and dashes removed; "" when there is no such
   * text.
   */
  function PlateOf(joined: string): (plate: string)
    ensures ' ' !in plate && '-' !in plate
  {
    var breaks := Split(joined, '\n');
    if |breaks| > 1 then
      match LazyBeforeDate(breaks[1])
      case None => ""
      case Some(g) => CleanPlateHasNoSeparators(g); CleanPlate(g)
    else ""
  }

  /** The last amount on the row, "" when it has none. */
  function LastAmount(flat: string): (r: string)
    ensures r == "" || AmountShape(r, '.')
  {
    var amounts := FindAll(DotAmount, flat);
    if amounts == [] then "" else amounts[|amounts| - 1]
  }

  function NthDate(flat: string, n: nat): (r: string)
    ensures r == "" || DateShape(r)
  {
    var dates := FindAll(DashDate, flat);
    if |dates| > n then dates[n] else ""
  }

  /** `" ".join(row).replace("\n", " ")`. */
  function Flatten(joined: string): (r: string)
    ensures '\n' !in r
  {
    ReplaceCharRemoves(joined, '\n', " ");
    ReplaceChar(joined, '\n', " ")
  }

  /** The item a table row gives: only when its two dates, its plate and its amount are all present. */
  function ItemOf(h: Header, row: seq<string>): Option<Item> {
    var joined := Join(row, " ");
    var flat := Flatten(joined);
    var plate := PlateOf(joined);
    var start := NthDate(flat, 0);
    var end := NthDate(flat, 1);
    var amount := LastAmount(flat);
    if start != "" && plate != "" && end != "" && amount != "" then
      Some(Item(h, start, end, plate, amount))
    else None
  }

  function TableCandidates(h: Header, table: Table): seq<Option<Item>> {
    seq(|table|, i requires 0 <= i < |table| => ItemOf(h, table[i]))
  }

  /** The items of one page: from its second table only, and only when it has one. */
  function PageItems(h: Header, page: Page): seq<Item> {
    if |page.tables| >= 2 then Somes(TableCandidates(h, page.tables[1])) else []
  }

  /** The items of the first `n` pages, page by page. */
  function ItemsUpTo(h: Header, pages: seq<Page>, n: nat): seq<Item>
    requires n <= |pages|
  {
    if n == 0 then [] else ItemsUpTo(h, pages, n - 1) + PageItems(h, pages[n - 1])
  }

  /** What `process_volvo` returns, or the exception it raises. */
  function Extract(pages: seq<Page>): Result<seq<Item>, Failure> {
    if pages == [] then Err(NoPages)
    else match HeaderOf(pages[0])
      case Err(e) => Err(e)
      case Ok(h) => Ok(ItemsUpTo(h, pages, |pages|))
  }

  /** The row loop over one page's second table. */
  method TableItems(h: Header, table: Table) returns (items: seq<Item>)
    ensures items == Somes(TableCandidates(h, table))
  {
    ghost var candidates := TableCandidates(h, table);
    items := [];
    var i := 0;
    while i < |table|
      invariant i <= |table|
      invariant items == Somes(candidates[..i])
    {
      var item := ItemOf(h, table[i]);
      assert candidates[i] == item;
      SomesPrefix(candidates, i);
      if item.Some? {
        items := items + [item.value];
      }
      i := i + 1;
    }
    assert candidates[..|table|] == candidates;
  }

  /** `process_volvo` over the pages the PDF reader gives. */
  method ProcessVolvo(pages: seq<Page>) returns (r: Result<seq<Item>, Failure>)
    ensures r == Extract(pages)
  {
    if |pages| == 0 {
      return Err(NoPages);
    }
    var number := InvoiceNumberOf(pages[0].tables);
    if number.Err? {
      return Err(number.error);
    }
    if pages[0].text.None? {
      return Err(NoFirstPageText);
    }
    var dates := ScanHeaderDates(SplitLines(pages[0].text.value));
    var h := Header(number.value, dates.invoiceDate, dates.paymentDue, dates.performanceDate);
    assert HeaderOf(pages[0]) == Ok(h);
    var data := PagesItems(h, pages);
    return Ok(data);
  }

  /** The page loop of `process_volvo`: the items of every page, in page order. */
  method PagesItems(h: Header, pages: seq<Page>) returns (data: seq<Item>)
    ensures data == ItemsUpTo(h, pages, |pages|)
  {
    data := [];
    var p := 0;
    while p < |pages|
      invariant p <= |pages|
      invariant data == ItemsUpTo(h, pages, p)
    {
      var items: seq<Item> := [];
      if |pages[p].tables| >= 2 {
        items := TableItems(h, pages[p].tables[1]);
      }
      assert items == PageItems(h, pages[p]);
      data := data + items;
      p := p + 1;
    }
  }

  // ------------------------------------------------------------ properties

  /**
   * A row gives an item exactly when its first two dates, its plate and
   * its last amount are all present, and the item then holds exactly
   * those, with the header unchanged.
   */
  lemma ItemOfSpec(h: Header, row: seq<string>)
    ensures var joined := Join(row, " ");
            var flat := Flatten(joined);
            && (ItemOf(h, row).Some? <==>
                  |FindAll(DashDate, flat)| >= 2 && PlateOf(joined) != "" && FindAll(DotAmount, flat) != [])
            && (ItemOf(h, row).Some? ==>
                  var it := ItemOf(h, row).value;
                  && it.header == h
                  && it.periodStart == FindAll(DashDate, flat)[0]
                  && it.periodEnd == FindAll(DashDate, flat)[1]
                  && it.net == FindAll(DotAmount, flat)[|FindAll(DotAmount, flat)| - 1]
                  && it.licensePlate == PlateOf(joined))
  {
    var flat := Flatten(Join(row, " "));
    var dates := FindAll(DashDate, flat);
    var amounts := FindAll(DotAmount, flat);
    if |dates| > 0 { assert DateShape(dates[0]); }
    if |dates| > 1 { assert DateShape(dates[1]); }
    if amounts != [] { assert AmountShape(amounts[|amounts| - 1], '.'); }
  }

  /** Every item has the shapes its fields were matched by: two dates, a plate without separators, an amount. */
  lemma ItemShapes(h: Header, row: seq<string>)
    requires ItemOf(h, row).Some?
    ensures var it := ItemOf(h, row).value;
            && DateShape(it.periodStart) && DateShape(it.periodEnd)
            && |it.licensePlate| > 0 && ' ' !in it.licensePlate && '-' !in it.licensePlate
            && AmountShape(it.net, '.')
  {
  }

  /** A page with fewer than two tables gives nothing. */
  lemma PageItemsNeedTwoTables(h: Header, page: Page)
    requires |page.tables| < 2
    ensures PageItems(h, page) == []
  {
  }

  /**
   * An item of a page is exactly the item of some row of its second
   * table; it carries the document header.
   */
  lemma PageItemsFromSecondTable(h: Header, page: Page)
    ensures forall it :: it in PageItems(h, page) <==>
              |page.tables| >= 2 && exists i :: 0 <= i < |page.tables[1]| && ItemOf(h, page.tables[1][i]) == Some(it)
  {
    if |page.tables| >= 2 {
      var t := page.tables[1];
      SomesMembers(TableCandidates(h, t));
      forall it ensures Some(it) in TableCandidates(h, t) <==> exists i :: 0 <= i < |t| && ItemOf(h, t[i]) == Some(it) {
        CandidateOf(h, t, it);
      }
    }
  }

  lemma CandidateOf(h: Header, t: Table, it: Item)
    ensures Some(it) in TableCandidates(h, t) <==> exists i :: 0 <= i < |t| && ItemOf(h, t[i]) == Some(it)
  {
    if Some(it) in TableCandidates(h, t) {
      CandidateIn(h, t, it);
    }
    if exists i :: 0 <= i < |t| && ItemOf(h, t[i]) == Some(it) {
      var i :| 0 <= i < |t| && ItemOf(h, t[i]) == Some(it);
      CandidateFrom(h, t, i, it);
    }
  }

  lemma CandidateAt(h: Header, t: Table, i: nat)
    requires i < |t|
    ensures |TableCandidates(h, t)| == |t| && TableCandidates(h, t)[i] == ItemOf(h, t[i])
  {
  }

  lemma CandidateIn(h: Header, t: Table, it: Item)
    requires Some(it) in TableCandidates(h, t)
    ensures exists i :: 0 <= i < |t| && ItemOf(h, t[i]) == Some(it)
  {
    var c := TableCandidates(h, t);
    var i :| 0 <= i < |c| && c[i] == Some(it);
    CandidateAt(h, t, i);
  }

  lemma CandidateFrom(h: Header, t: Table, i: nat, it: Item)
    requires i < |t| && ItemOf(h, t[i]) == Some(it)
    ensures Some(it) in TableCandidates(h, t)
  {
    CandidateAt(h, t, i);
  }

  lemma ItemOfKeepsHeader(h: Header, row: seq<string>)
    requires ItemOf(h, row).Some?
    ensures ItemOf(h, row).value.header == h
  {
  }

  /** Every item of the document carries the same header. */
  lemma {:induction false} ItemsShareHeader(h: Header, pages: seq<Page>, n: nat)
    requires n <= |pages|
    ensures forall it :: it in ItemsUpTo(h, pages, n) ==> it.header == h
  {
    if n > 0 {
      ItemsShareHeader(h, pages, n - 1);
      PageItemsFromSecondTable(h, pages[n - 1]);
      forall it | it in PageItems(h, pages[n - 1]) ensures it.header == h {
        var t := pages[n - 1].tables[1];
        var i :| 0 <= i < |t| && ItemOf(h, t[i]) == Some(it);
        ItemOfKeepsHeader(h, t[i]);
      }
    }
  }

  /** The document fails exactly on no pages, an empty number row, or a page 1 without text, in that order. */
  lemma ExtractFailures(pages: seq<Page>)
    ensures Extract(pages) == Err(NoPages) <==> pages == []
    ensures pages != [] ==>
              (Extract(pages) == Err(EmptyNumberRow) <==>
                 |pages[0].tables| >= 1 && |pages[0].tables[0]| >= 2 && pages[0].tables[0][1] == [])
    ensures pages != [] && InvoiceNumberOf(pages[0].tables).Ok? ==>
              (Extract(pages) == Err(NoFirstPageText) <==> pages[0].text.None?)
  {
  }
}
