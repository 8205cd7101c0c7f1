/**
 * The Multialarm layout: labelled header fields found anywhere in the
 * concatenated page text, then three lists of matches (charge lines,
 * billing periods, installation places) paired up by position.
 */
module Multialarm {
  import opened Wrappers
  import opened PyStr
  import opened Patterns
  import opened Numbers
  import opened Invoice

  /** One output record: the header fields merged with one charge line. */
  datatype Row = Row(
    header: Header,
    periodStart: string, periodEnd: string, licensePlate: string,
    net: real, vatPercent: nat, vatAmount: real)

  const InvoiceNumberPattern := Labelled("Számla száma:", Digits)
  const InvoiceDatePattern := Labelled("Számla kelte:", DigitsOrDots)
  const PerformanceDatePattern := Labelled("Teljesítési dátum:", DigitsOrDots)
  const PaymentDuePattern := Labelled("Fizetési határidő:", DigitsOrDots)
  const PeriodPattern := PeriodRange("Időszak:")
  const PlatePattern := AfterLabel("Felszerelési hely:")
  const LinePattern := RestOfLine("Menetlevél + útdíj alapszolgáltatás")

  /** The text of all pages, each non-empty page preceded by a newline. */
  function FullText(pages: seq<string>): string {
    if pages == [] then ""
    else
      var last := pages[|pages| - 1];
      FullText(pages[..|pages| - 1]) + (if last == "" then "" else "\n" + last)
  }

  /** A date group with its trailing dots removed, or "" when the label is missing. */
  function DateField(m: Option<string>): (r: string)
    ensures r == [] || r[|r| - 1] != '.'
  {
    if m.Some? then RStrip(m.value, '.') else ""
  }

  /** A number group, or "" when the label is missing. */
  function NumberField(m: Option<string>): (r: string)
    requires m.Some? ==> Shaped(InvoiceNumberPattern, m.value)
    ensures AllDigits(r) && (r == "" <==> m.None?)
  {
    if m.Some? then m.value else ""
  }

  /**
   * The header fields: the first match of each label anywhere in the
   * text, "" when a label is missing. The number is digits; no date ends
   * in a dot.
   */
  function HeaderOf(text: string): (h: Header)
    ensures AllDigits(h.invoiceNumber)
    ensures h.invoiceNumber == "" <==> Search(InvoiceNumberPattern, text).None?
    ensures h.invoiceDate == [] || h.invoiceDate[|h.invoiceDate| - 1] != '.'
    ensures h.paymentDue == [] || h.paymentDue[|h.paymentDue| - 1] != '.'
    ensures h.performanceDate == [] || h.performanceDate[|h.performanceDate| - 1] != '.'
  {
    Header(
      NumberField(Search(InvoiceNumberPattern, text)),
      DateField(Search(InvoiceDatePattern, text)),
      DateField(Search(PaymentDuePattern, text)),
      DateField(Search(PerformanceDatePattern, text)))
  }

  /** Where the " - " of a billing period sits: right after its first dotted run. */
  function PeriodDash(g: string): nat
    requires PeriodShape(g)
  {
    RunEnd(DigitsOrDots, g, 0)
  }

  lemma NoDashInDotted(t: string)
    requires forall j :: 0 <= j < |t| ==> InClass(DigitsOrDots, t[j])
    ensures !Contains(t, " - ")
  {
    forall j | 0 <= j < |t| ensures !OccursAt(t, " - ", j) {
      assert InClass(DigitsOrDots, t[j]);
      NotOccursAt(t, " - ", j);
    }
  }

  /** `period.split(" - ")` of a matched period yields exactly its two dotted runs. */
  lemma PeriodSplit(g: string)
    requires PeriodShape(g)
    ensures SplitOn(g, " - ") == [g[..PeriodDash(g)], g[PeriodDash(g) + 3..]]
  {
    var k := PeriodDash(g);
    assert OccursAt(g, " - ", k);
    forall j | 0 <= j < k ensures !OccursAt(g, " - ", j) {
      assert InClass(DigitsOrDots, g[j]);
      NotOccursAt(g, " - ", j);
    }
    assert Find(g, " - ") == Some(k);
    NoDashInDotted(g[k + 3..]);
  }

  lemma DottedNoSpace(t: string)
    requires forall j :: 0 <= j < |t| ==> InClass(DigitsOrDots, t[j])
    ensures NoSpace(t) && Strip(t) == t
  {
    StripNoSpace(t);
  }

  lemma PeriodStartStripped(g: string)
    requires PeriodShape(g)
    ensures Strip(g[..PeriodDash(g)]) == g[..PeriodDash(g)]
  {
    DottedNoSpace(g[..PeriodDash(g)]);
  }

  lemma PeriodEndStripped(g: string)
    requires PeriodShape(g)
    ensures Strip(g[PeriodDash(g) + 3..]) == g[PeriodDash(g) + 3..]
  {
    DottedNoSpace(g[PeriodDash(g) + 3..]);
  }

  /**
   * `[p.strip() for p in period.split(" - ")]`: the two dotted runs
   * around the dash.
   */
  function PeriodBounds(g: string): (r: (string, string))
    requires PeriodShape(g)
    ensures r == (g[..PeriodDash(g)], g[PeriodDash(g) + 3..])
  {
    var parts := SplitOn(g, " - ");
    PeriodSplit(g);
    PeriodStartStripped(g);
    PeriodEndStripped(g);
    (Strip(parts[0]), Strip(parts[1]))
  }

  /** The amounts of a charge line: net, VAT percentage and VAT amount. */
  datatype Charge = Charge(net: real, vatPercent: nat, vatAmount: real)

  /**
   * A charge line qualifies when it holds at least four forint amounts and
   * a VAT percentage; its net is the second amount and its VAT the third.
   */
  function ChargeOf(line: string): Option<Charge> {
    var amounts := FindAll(ForintAmount, line);
    var vat := Search(VatPercent, line);
    if |amounts| >= 4 && vat.Some? then
      Some(Charge(AmountValue(amounts[1], ' '), DigitsValue(vat.value), AmountValue(amounts[2], ' ')))
    else None
  }

  /** The row built from one charge line and the period and place at the same index. */
  function RowAt(h: Header, line: string, period: string, plate: string): Option<Row>
    requires PeriodShape(period)
  {
    match ChargeOf(line)
    case None => None
    case Some(c) =>
      var bounds := PeriodBounds(period);
      Some(Row(h, bounds.0, bounds.1, CleanPlate(plate), c.net, c.vatPercent, c.vatAmount))
  }

  predicate AllPeriods(periods: seq<string>) {
    forall i :: 0 <= i < |periods| ==> PeriodShape(periods[i])
  }

  /** What each index `0 .. n-1` gives: a row, or nothing when its charge line does not qualify. */
  function Candidates(h: Header, lines: seq<string>, periods: seq<string>, plates: seq<string>, n: nat): seq<Option<Row>>
    requires n <= |lines| && n <= |periods| && n <= |plates| && AllPeriods(periods)
  {
    seq(n, i requires 0 <= i < n => RowAt(h, lines[i], periods[i], plates[i]))
  }

  /** What `process_multialarm` returns for the given page texts. */
  function Extract(pages: seq<string>): seq<Row> {
    var text := FullText(pages);
    var lines := FindAll(LinePattern, text);
    var periods := FindAll(PeriodPattern, text);
    var plates := FindAll(PlatePattern, text);
    Somes(Candidates(HeaderOf(text), lines, periods, plates, Min(Min(|periods|, |plates|), |lines|)))
  }

  /** The page loop of `process_multialarm`: concatenates the non-empty page texts. */
  method JoinPages(pages: seq<string>) returns (fullText: string)
    ensures fullText == FullText(pages)
  {
    fullText := "";
    var p := 0;
    while p < |pages|
      invariant p <= |pages|
      invariant fullText == FullText(pages[..p])
    {
      assert pages[..p + 1][..p] == pages[..p];
      if pages[p] != "" {
        fullText := fullText + "\n" + pages[p];
      }
      p := p + 1;
    }
    assert pages[..|pages|] == pages;
  }

  /** The row loop of `process_multialarm`: appends the row of every qualifying index below `n`. */
  method PairRows(h: Header, lines: seq<string>, periods: seq<string>, plates: seq<string>, n: nat)
    returns (data: seq<Row>)
    requires n <= |lines| && n <= |periods| && n <= |plates| && AllPeriods(periods)
    ensures data == Somes(Candidates(h, lines, periods, plates, n))
  {
    ghost var candidates := Candidates(h, lines, periods, plates, n);
    data := [];
    var i := 0;
    while i < n
      invariant i <= n
      invariant data == Somes(candidates[..i])
    {
      var row := RowAt(h, lines[i], periods[i], plates[i]);
      assert candidates[i] == row;
      SomesPrefix(candidates, i);
      if row.Some? {
        data := data + [row.value];
      }
      i := i + 1;
    }
    assert candidates[..n] == candidates;
  }

  /** `process_multialarm`: `pages` holds each page's extracted text, "" for none. */
  method ProcessMultialarm(pages: seq<string>) returns (data: seq<Row>)
    ensures data == Extract(pages)
  {
    var fullText := JoinPages(pages);
    var lines := FindAll(LinePattern, fullText);
    var periods := FindAll(PeriodPattern, fullText);
    var plates := FindAll(PlatePattern, fullText);
    var minLen := Min(Min(|periods|, |plates|), |lines|);
    data := PairRows(HeaderOf(fullText), lines, periods, plates, minLen);
  }

  // ------------------------------------------------------------ properties

  /**
   * Rows pair charge lines, periods and places index by index below `n`:
   * there are at most `n`, and a row comes out exactly when it is the one
   * built at some index below `n`.
   */
  lemma RowsArePositional(h: Header, lines: seq<string>, periods: seq<string>, plates: seq<string>, n: nat)
    requires n <= |lines| && n <= |periods| && n <= |plates| && AllPeriods(periods)
    ensures |Somes(Candidates(h, lines, periods, plates, n))| <= n
    ensures forall r :: r in Somes(Candidates(h, lines, periods, plates, n)) <==>
              exists i :: 0 <= i < n && RowAt(h, lines[i], periods[i], plates[i]) == Some(r)
  {
    SomesMembers(Candidates(h, lines, periods, plates, n));
    forall r ensures Some(r) in Candidates(h, lines, periods, plates, n) <==>
                       exists i :: 0 <= i < n && RowAt(h, lines[i], periods[i], plates[i]) == Some(r)
    {
      CandidateOf(h, lines, periods, plates, n, r);
    }
  }

  lemma CandidateOf(h: Header, lines: seq<string>, periods: seq<string>, plates: seq<string>, n: nat, r: Row)
    requires n <= |lines| && n <= |periods| && n <= |plates| && AllPeriods(periods)
    ensures Some(r) in Candidates(h, lines, periods, plates, n) <==>
              exists i :: 0 <= i < n && RowAt(h, lines[i], periods[i], plates[i]) == Some(r)
  {
    if Some(r) in Candidates(h, lines, periods, plates, n) {
      CandidateIn(h, lines, periods, plates, n, r);
    }
    if exists i :: 0 <= i < n && RowAt(h, lines[i], periods[i], plates[i]) == Some(r) {
      var i :| 0 <= i < n && RowAt(h, lines[i], periods[i], plates[i]) == Some(r);
      CandidateFrom(h, lines, periods, plates, n, i, r);
    }
  }

  lemma CandidateFrom(h: Header, lines: seq<string>, periods: seq<string>, plates: seq<string>, n: nat, i: nat, r: Row)
    requires n <= |lines| && n <= |periods| && n <= |plates| && AllPeriods(periods)
    requires i < n && RowAt(h, lines[i], periods[i], plates[i]) == Some(r)
    ensures Some(r) in Candidates(h, lines, periods, plates, n)
  {
    CandidateAt(h, lines, periods, plates, n, i);
  }

  lemma CandidateIn(h: Header, lines: seq<string>, periods: seq<string>, plates: seq<string>, n: nat, r: Row)
    requires n <= |lines| && n <= |periods| && n <= |plates| && AllPeriods(periods)
    requires Some(r) in Candidates(h, lines, periods, plates, n)
    ensures exists i :: 0 <= i < n && RowAt(h, lines[i], periods[i], plates[i]) == Some(r)
  {
    var c := Candidates(h, lines, periods, plates, n);
    var i :| 0 <= i < |c| && c[i] == Some(r);
    CandidateAt(h, lines, periods, plates, n, i);
  }

  lemma CandidateAt(h: Header, lines: seq<string>, periods: seq<string>, plates: seq<string>, n: nat, i: nat)
    requires n <= |lines| && n <= |periods| && n <= |plates| && AllPeriods(periods) && i < n
    ensures |Candidates(h, lines, periods, plates, n)| == n
    ensures Candidates(h, lines, periods, plates, n)[i] == RowAt(h, lines[i], periods[i], plates[i])
  {
  }

  /** The header shared by all rows: every row carries the one built from the whole text. */
  lemma {:induction false} RowsShareHeader(h: Header, lines: seq<string>, periods: seq<string>, plates: seq<string>, n: nat)
    requires n <= |lines| && n <= |periods| && n <= |plates| && AllPeriods(periods)
    ensures forall r :: r in Somes(Candidates(h, lines, periods, plates, n)) ==> r.header == h
  {
    RowsArePositional(h, lines, periods, plates, n);
    forall r | r in Somes(Candidates(h, lines, periods, plates, n)) ensures r.header == h {
      var i :| 0 <= i < n && RowAt(h, lines[i], periods[i], plates[i]) == Some(r);
      RowAtSpec(h, lines[i], periods[i], plates[i]);
    }
  }

  /** A charge line qualifies exactly when it holds at least four forint amounts and a VAT percentage. */
  lemma ChargeOfQualifies(line: string)
    ensures ChargeOf(line).Some? <==> |FindAll(ForintAmount, line)| >= 4 && Search(VatPercent, line).Some?
  {
  }

  /**
   * The net and VAT amount of a qualifying line are the second and third
   * amounts, which always clean to decimal literals.
   */
  lemma ChargeOfAmounts(line: string)
    requires ChargeOf(line).Some?
    ensures var amounts := FindAll(ForintAmount, line);
            && IsDecimalLiteral(CommaDecimal(amounts[1], ' '))
            && IsDecimalLiteral(CommaDecimal(amounts[2], ' '))
            && ChargeOf(line).value.net == DecimalValue(CommaDecimal(amounts[1], ' '))
            && ChargeOf(line).value.vatAmount == DecimalValue(CommaDecimal(amounts[2], ' '))
  {
    var amounts := FindAll(ForintAmount, line);
    AmountCleansToDecimal(amounts[1], ' ');
    AmountCleansToDecimal(amounts[2], ' ');
  }

  /** The VAT percentage has at most two digits. */
  lemma ChargeOfPercentBelow100(line: string)
    requires ChargeOf(line).Some?
    ensures ChargeOf(line).value.vatPercent < 100
  {
    var vat := Search(VatPercent, line);
    assert ChargeOf(line).value.vatPercent == DigitsValue(vat.value);
    assert Shaped(VatPercent, vat.value);
    TwoDigitsBelow100(vat.value);
  }

  /**
   * The row at an index exists exactly when its charge line qualifies, and
   * pairs that line's amounts with the two halves of the period at the
   * same index and the cleaned place.
   */
  lemma RowAtSpec(h: Header, line: string, period: string, plate: string)
    requires PeriodShape(period)
    ensures RowAt(h, line, period, plate).Some? <==> ChargeOf(line).Some?
    ensures RowAt(h, line, period, plate).Some? ==>
              var r := RowAt(h, line, period, plate).value;
              && r.header == h
              && r.periodStart == period[..PeriodDash(period)]
              && r.periodEnd == period[PeriodDash(period) + 3..]
              && ' ' !in r.licensePlate && '-' !in r.licensePlate
              && Charge(r.net, r.vatPercent, r.vatAmount) == ChargeOf(line).value
  {
    CleanPlateHasNoSeparators(plate);
  }

  lemma TwoDigitsBelow100(d: string)
    requires 1 <= |d| <= 2 && AllDigits(d)
    ensures DigitsValue(d) < 100
  {
    if |d| == 2 {
      assert d[..1][..0] == [];
      assert DigitsValue(d[..1]) == d[0] as int - '0' as int;
    } else {
      assert d[..0] == [];
    }
  }
}
