/**
 * The data frames the exporters build and the sheets they write: a frame
 * is a sequence of named columns of cells, as a pandas `DataFrame` is,
 * and a workbook is the sequence of sheets written into it.
 */
module Workbook {
  import opened Wrappers

  /** A value `pd.to_datetime` produces: a calendar date, or the missing `NaT`. */
  datatype Timestamp = Date(year: int, month: int, day: int) | NaT

  /** One spreadsheet cell: text, a number, a timestamp, or empty (`None`/`NaN`). */
  datatype Cell = Text(text: string) | Num(value: real) | Stamp(time: Timestamp) | Null

  datatype Column = Column(name: string, cells: seq<Cell>)

  type Frame = seq<Column>

  /** A frame written by `to_excel(..., sheet_name=name, index=False)`. */
  datatype Sheet = Sheet(name: string, frame: Frame)

  /** The sheet name `to_excel` uses when none is given. */
  const DefaultSheet := "Sheet1"

  /** A text column. */
  function TextColumn(name: string, values: seq<string>): (c: Column)
    ensures c.name == name && |c.cells| == |values|
    ensures forall i :: 0 <= i < |values| ==> c.cells[i] == Text(values[i])
  {
    Column(name, seq(|values|, i requires 0 <= i < |values| => Text(values[i])))
  }

  function Names(f: Frame): seq<string> {
    seq(|f|, j requires 0 <= j < |f| => f[j].name)
  }

  /** The first position of `x` in `xs`. */
  function Position(xs: seq<string>, x: string): (r: Option<nat>)
    ensures r.Some? ==> r.value < |xs| && xs[r.value] == x
    ensures r.Some? ==> x !in xs[..r.value]
    ensures r.None? ==> x !in xs
  {
    if xs == [] then None
    else if xs[0] == x then Some(0)
    else match Position(xs[1..], x)
      case None => None
      case Some(k) => assert xs[..k + 1] == [xs[0]] + xs[1..][..k]; Some(k + 1)
  }

  /** A number column. */
  function NumColumn(name: string, values: seq<real>): (c: Column)
    ensures c.name == name && |c.cells| == |values|
    ensures forall i :: 0 <= i < |values| ==> c.cells[i] == Num(values[i])
  {
    Column(name, seq(|values|, i requires 0 <= i < |values| => Num(values[i])))
  }

  /** The position of the first column called `name`, which is the one `df[name]` selects. */
  function ColumnIndex(f: Frame, name: string): Option<nat> {
    Position(Names(f), name)
  }

  /** `df[name] = cells`: replaces the column when it exists, appends it otherwise. */
  function SetColumn(f: Frame, name: string, cells: seq<Cell>): (r: Frame)
    ensures ColumnIndex(f, name).Some? ==> Names(r) == Names(f)
    ensures ColumnIndex(f, name).None? ==> Names(r) == Names(f) + [name]
    ensures ColumnIndex(r, name).Some? && r[ColumnIndex(r, name).value] == Column(name, cells)
  {
    match ColumnIndex(f, name)
    case Some(k) =>
      var r := f[k := Column(name, cells)];
      assert Names(r) == Names(f);
      r
    case None =>
      var r := f + [Column(name, cells)];
      assert Names(r) == Names(f) + [name];
      r
  }

  // ------------------------------------------------------------- dates

  /** Every cell is text that `parse` accepts. */
  predicate AllParse(cells: seq<Cell>, parse: string -> Option<Timestamp>) {
    forall i :: 0 <= i < |cells| ==> cells[i].Text? && parse(cells[i].text).Some?
  }

  /**
   * `pd.to_datetime(column, format=...)`, with `parse` converting one
   * value: the whole column converts, or the call raises.
   */
  function ToDatetime(cells: seq<Cell>, parse: string -> Option<Timestamp>): (r: Option<seq<Cell>>)
    ensures r.Some? <==> AllParse(cells, parse)
    ensures r.Some? ==> |r.value| == |cells|
    ensures r.Some? ==> forall i :: 0 <= i < |cells| ==> r.value[i] == Stamp(parse(cells[i].text).value)
  {
    if cells == [] then Some([])
    else
      var last := cells[|cells| - 1];
      match ToDatetime(cells[..|cells| - 1], parse)
      case None => None
      case Some(front) =>
        if last.Text? && parse(last.text).Some? then Some(front + [Stamp(parse(last.text).value)])
        else None
  }

  /**
   * One turn of the exporters' date loop:
   * `try: df[col] = pd.to_datetime(df[col], ...) except: df[col] = df[col]`.
   * A missing column raises `KeyError` outside the `try`, so the column must exist.
   */
  function TryDates(f: Frame, name: string, parse: string -> Option<Timestamp>): (r: Frame)
    requires ColumnIndex(f, name).Some?
    ensures Names(r) == Names(f)
  {
    var k := ColumnIndex(f, name).value;
    match ToDatetime(f[k].cells, parse)
    case None => f
    case Some(stamps) => SetColumn(f, name, stamps)
  }

  predicate HasColumns(f: Frame, names: seq<string>) {
    forall j :: 0 <= j < |names| ==> ColumnIndex(f, names[j]).Some?
  }

  /** The date loop over the first `n` names. */
  function DatesUpTo(f: Frame, names: seq<string>, n: nat, parse: string -> Option<Timestamp>): (r: Frame)
    requires n <= |names| && HasColumns(f, names)
    ensures Names(r) == Names(f)
  {
    if n == 0 then f
    else
      var g := DatesUpTo(f, names, n - 1, parse);
      assert HasColumns(g, names);
      TryDates(g, names[n - 1], parse)
  }

  lemma SameNamesHaveColumns(f: Frame, g: Frame, names: seq<string>)
    requires HasColumns(f, names) && Names(g) == Names(f)
    ensures HasColumns(g, names)
  {
  }

  lemma DatesStep(f: Frame, names: seq<string>, i: nat, parse: string -> Option<Timestamp>)
    requires i < |names| && HasColumns(f, names)
    ensures HasColumns(DatesUpTo(f, names, i, parse), names)
    ensures DatesUpTo(f, names, i + 1, parse) == TryDates(DatesUpTo(f, names, i, parse), names[i], parse)
  {
    SameNamesHaveColumns(f, DatesUpTo(f, names, i, parse), names);
  }

  /** The date loop over all of `names`. */
  method ConvertDateColumns(f: Frame, names: seq<string>, parse: string -> Option<Timestamp>) returns (r: Frame)
    requires HasColumns(f, names)
    ensures r == DatesUpTo(f, names, |names|, parse)
  {
    r := f;
    var i := 0;
    while i < |names|
      invariant i <= |names|
      invariant r == DatesUpTo(f, names, i, parse)
    {
      DatesStep(f, names, i, parse);
      r := TryDates(r, names[i], parse);
      i := i + 1;
    }
  }

  /**
   * A date conversion is all or nothing: the column turns into the
   * parsed timestamps when every value parses, and the frame is left
   * exactly as it was otherwise; other columns never change.
   */
  lemma TryDatesAllOrNothing(f: Frame, name: string, parse: string -> Option<Timestamp>)
    requires ColumnIndex(f, name).Some?
    ensures var k := ColumnIndex(f, name).value;
            var r := TryDates(f, name, parse);
            && (AllParse(f[k].cells, parse) ==>
                  |r[k].cells| == |f[k].cells|
                  && forall i :: 0 <= i < |f[k].cells| ==> r[k].cells[i] == Stamp(parse(f[k].cells[i].text).value))
            && (!AllParse(f[k].cells, parse) ==> r == f)
  {
  }

  lemma TryDatesKeepsOthers(f: Frame, name: string, parse: string -> Option<Timestamp>, j: nat)
    requires ColumnIndex(f, name).Some? && j < |f| && f[j].name != name
    ensures TryDates(f, name, parse)[j] == f[j]
  {
    assert Names(f)[j] == f[j].name;
  }

  /** A column none of the loop's names select comes through the loop unchanged. */
  lemma {:induction false} DatesKeepOthers(f: Frame, names: seq<string>, n: nat, parse: string -> Option<Timestamp>, j: nat)
    requires n <= |names| && HasColumns(f, names) && j < |f| && f[j].name !in names
    ensures DatesUpTo(f, names, n, parse)[j] == f[j]
  {
    if n > 0 {
      DatesKeepOthers(f, names, n - 1, parse, j);
      var g := DatesUpTo(f, names, n - 1, parse);
      assert HasColumns(g, names);
      assert g[j].name == Names(g)[j] == Names(f)[j];
      assert g[j].name != names[n - 1];
      TryDatesKeepsOthers(g, names[n - 1], parse, j);
    }
  }
}
