/**
 * The Vodafone layout: a page scanner that reads the invoice number on
 * page index 1, takes summary lines from "SZÁMLA" pages, and accumulates
 * the pages of a charges section (opened by a "KISZÁMLÁZOTT DÍJAK" or
 * "ÜGYFÉLSZINTŰ DÍJAK" heading) until a page holding the section total,
 * whose lines then give the service-charge rows.
 */
module Vodafone {
  import opened Wrappers
  import opened PyStr
  import opened Patterns

  const SummaryStart := "Számlaösszesítő"
  const SummaryEnd := "Egyenlegközlő információ"
  const TariffLabel := "Tarifacsomag:"
  const PhonePattern := PhoneAfterLabel("Telefonszám:")
  const ChargesHeading := "Megnevezés"
  const ChargesTotal := "Kiszámlázott díjak összesen"
  const NumberPattern := LabelledAfterColons("Számlaszám")

  /** Python's `text[s:e]` for indices within the text: empty when `e < s`. */
  function Slice<T>(s: seq<T>, lo: nat, hi: nat): seq<T>
    requires hi <= |s|
  {
    if lo <= hi then s[lo..hi] else []
  }

  // ------------------------------------------------------ summary lines

  /** A line holding one of the four words that mark headings and totals. */
  predicate Noisy(line: string) {
    Contains(line, "összeg") || Contains(line, "Megnevezés") || Contains(line, "Összesen") || Contains(line, SummaryStart)
  }

  predicate HasTeszor(line: string) {
    Search(TeszorCode, line).Some?
  }

  /**
   * The summary row of one line: a line with a TESZOR code split into
   * nine fields from the right, a line without one into eight, with an
   * empty TESZOR field put in at index 4.
   */
  function SummaryRow(line: string): (r: Option<seq<string>>)
    ensures r.Some? ==> |r.value| == 9
  {
    if Noisy(line) then None
    else if HasTeszor(line) then
      var parts := RSplit(line, ' ', 8);
      if |parts| == 9 then Some(parts) else None
    else
      var parts := RSplit(line, ' ', 7);
      if |parts| == 8 then Some(parts[..4] + [""] + parts[4..]) else None
  }

  /** The lines between the summary heading and the balance section, or none when either is missing. */
  function SummaryLines(text: string): seq<string> {
    var s := Find(text, SummaryStart);
    var e := Find(text, SummaryEnd);
    if s.None? || e.None? then [] else Split(Slice(text, s.value, e.value), '\n')
  }

  function SummaryCandidates(lines: seq<string>): seq<Option<seq<string>>> {
    seq(|lines|, i requires 0 <= i < |lines| => SummaryRow(lines[i]))
  }

  /** What `process_invoice_page` appends for one page text. */
  function SummaryRows(text: string): (r: seq<seq<string>>)
    ensures Find(text, SummaryStart).None? || Find(text, SummaryEnd).None? ==> r == []
  {
    Somes(SummaryCandidates(SummaryLines(text)))
  }

  /** `process_invoice_page`. */
  method ProcessInvoicePage(text: string) returns (rows: seq<seq<string>>)
    ensures rows == SummaryRows(text)
  {
    var s := Find(text, SummaryStart);
    var e := Find(text, SummaryEnd);
    if s.None? || e.None? {
      return [];
    }
    var lines := Split(Slice(text, s.value, e.value), '\n');
    ghost var candidates := SummaryCandidates(lines);
    rows := [];
    var i := 0;
    while i < |lines|
      invariant i <= |lines|
      invariant rows == Somes(candidates[..i])
    {
      var row := SummaryRow(lines[i]);
      assert candidates[i] == row;
      SomesPrefix(candidates, i);
      if row.Some? {
        rows := rows + [row.value];
      }
      i := i + 1;
    }
    assert candidates[..|lines|] == candidates;
  }

  // ---------------------------------------------------- service charges

  /**
   * The phone number of a charges section: the first `Telefonszám:` match
   * on the lines before the first line naming the tariff, "N/A" when
   * there is none.
   */
  function PhoneFrom(lines: seq<string>): (p: string)
    ensures p == "N/A" || Shaped(PhonePattern, p)
  {
    if lines == [] || Contains(lines[0], TariffLabel) then "N/A"
    else match Search(PhonePattern, lines[0])
      case Some(g) => g
      case None => PhoneFrom(lines[1..])
  }

  /** The phone loop of `process_service_charges`. */
  method ScanPhone(lines: seq<string>) returns (phone: string)
    ensures phone == PhoneFrom(lines)
  {
    var k := 0;
    while k < |lines|
      invariant k <= |lines|
      invariant PhoneFrom(lines[k..]) == PhoneFrom(lines)
    {
      assert lines[k..][1..] == lines[k + 1..];
      if Contains(lines[k], TariffLabel) {
        return "N/A";
      }
      var m := Search(PhonePattern, lines[k]);
      if m.Some? {
        return m.value;
      }
      k := k + 1;
    }
    return "N/A";
  }

  /** `next(i for i, line in enumerate(lines) if line.strip().startswith(prefix))`, `None` for `StopIteration`. */
  function FirstStarting(lines: seq<string>, prefix: string): (r: Option<nat>)
    ensures r.Some? ==> r.value < |lines| && StartsStripped(lines[r.value], prefix)
    ensures r.Some? ==> forall j :: 0 <= j < r.value ==> !StartsStripped(lines[j], prefix)
    ensures r.None? ==> forall j :: 0 <= j < |lines| ==> !StartsStripped(lines[j], prefix)
  {
    FirstStartingFrom(lines, prefix, 0)
  }

  /** The search of `FirstStarting` from index `i` on. */
  function FirstStartingFrom(lines: seq<string>, prefix: string, i: nat): (r: Option<nat>)
    requires i <= |lines|
    ensures r.Some? ==> i <= r.value < |lines| && StartsStripped(lines[r.value], prefix)
    ensures r.Some? ==> forall j :: i <= j < r.value ==> !StartsStripped(lines[j], prefix)
    ensures r.None? ==> forall j :: i <= j < |lines| ==> !StartsStripped(lines[j], prefix)
    decreases |lines| - i
  {
    if i == |lines| then None
    else if StartsStripped(lines[i], prefix) then Some(i)
    else FirstStartingFrom(lines, prefix, i + 1)
  }

  /** `line.strip().startswith(prefix)`. */
  predicate StartsStripped(line: string, prefix: string) {
    StartsWith(Strip(line), prefix)
  }

  /** The description of a charge: the text before the code's first occurrence, or all of it, stripped. */
  function Description(before: string, teszor: string): string
    requires |teszor| > 0
  {
    if Contains(before, teszor) then Strip(SplitOn(before, teszor)[0]) else Strip(before)
  }

  /**
   * The service-charge row of one line holding a TESZOR code: the line
   * splits into five fields from the right, and the row is the phone,
   * the description, the code, then the four amount fields last to first.
   */
  function ChargeRow(phone: string, line: string): (r: Option<seq<string>>)
    ensures r.Some? ==> |r.value| == 7 && r.value[0] == phone && TeszorShape(r.value[2])
  {
    match Search(TeszorCode, line)
    case None => None
    case Some(t) => ChargeFields(phone, t, RSplit(line, ' ', 4))
  }

  /** The row for code `t` and the pieces of the line split five ways from the right. */
  function ChargeFields(phone: string, t: string, parts: seq<string>): (r: Option<seq<string>>)
    requires TeszorShape(t)
    ensures r.Some? <==> |parts| >= 5
    ensures r.Some? ==> |r.value| == 7 && r.value[0] == phone && r.value[2] == t
  {
    if |parts| < 5 then None
    else Some([phone] + [Description(parts[0], t)] + [t, parts[4], parts[3], parts[2], parts[1]])
  }

  /** The lines strictly between the first table heading and the first total line, or none when either is missing. */
  function ChargeLines(lines: seq<string>): seq<string> {
    var s := FirstStarting(lines, ChargesHeading);
    var e := FirstStarting(lines, ChargesTotal);
    if s.None? || e.None? then [] else Slice(lines, s.value + 1, e.value)
  }

  /** The row of each line, for the section's phone number. */
  function RowOf(phone: string): string -> Option<seq<string>> {
    line => ChargeRow(phone, line)
  }

  function ChargeCandidates(phone: string, lines: seq<string>): seq<Option<seq<string>>> {
    Map(RowOf(phone), lines)
  }

  /** What `process_service_charges` appends for one accumulated section. */
  function ServiceCharges(lines: seq<string>): (r: seq<seq<string>>)
    ensures FirstStarting(lines, ChargesHeading).None? || FirstStarting(lines, ChargesTotal).None? ==> r == []
  {
    Somes(ChargeCandidates(PhoneFrom(lines), ChargeLines(lines)))
  }

  /** The row loop of `process_service_charges` over the candidate lines. */
  method ChargeRowsOf(phone: string, lines: seq<string>) returns (rows: seq<seq<string>>)
    ensures rows == Somes(ChargeCandidates(phone, lines))
  {
    ghost var candidates := ChargeCandidates(phone, lines);
    rows := [];
    var i := 0;
    while i < |lines|
      invariant i <= |lines|
      invariant rows == Somes(candidates[..i])
    {
      var row := ChargeRow(phone, lines[i]);
      assert candidates[i] == row;
      SomesPrefix(candidates, i);
      if row.Some? {
        rows := rows + [row.value];
      }
      i := i + 1;
    }
    assert candidates[..|lines|] == candidates;
  }

  /** `process_service_charges`. */
  method ProcessServiceCharges(lines: seq<string>) returns (rows: seq<seq<string>>)
    ensures rows == ServiceCharges(lines)
  {
    var phone := ScanPhone(lines);
    var s := FirstStarting(lines, ChargesHeading);
    var e := FirstStarting(lines, ChargesTotal);
    if s.None? || e.None? {
      return [];
    }
    rows := ChargeRowsOf(phone, Slice(lines, s.value + 1, e.value));
  }

  // -------------------------------------------------------- page scan

  /** The invoice number on a page: the first line's `Számlaszám` match. */
  function NumberIn(lines: seq<string>): (r: Option<string>)
    ensures r.Some? ==> |r.value| > 0 && AllDigits(r.value)
  {
    if lines == [] then None
    else match Search(NumberPattern, lines[0])
      case Some(g) => Some(g)
      case None => NumberIn(lines[1..])
  }

  /** The number loop of the page scan. */
  method ScanNumber(lines: seq<string>) returns (r: Option<string>)
    ensures r == NumberIn(lines)
  {
    var k := 0;
    while k < |lines|
      invariant k <= |lines|
      invariant NumberIn(lines[k..]) == NumberIn(lines)
    {
      assert lines[k..][1..] == lines[k + 1..];
      var m := Search(NumberPattern, lines[k]);
      if m.Some? {
        return m;
      }
      k := k + 1;
    }
    return None;
  }

  /** The scanner's variables between pages. */
  datatype ScanState = ScanState(
    inService: bool, acc: seq<string>, number: string,
    summary: seq<seq<string>>, charges: seq<seq<string>>)

  const Start := ScanState(false, [], "", [], [])

  /** `lines[0].strip().upper()`. */
  function Heading(lines: seq<string>): string
    requires |lines| > 0
  {
    Upper(Strip(lines[0]))
  }

  predicate Opens(heading: string) {
    heading == "KISZÁMLÁZOTT DÍJAK" || heading == "ÜGYFÉLSZINTŰ DÍJAK"
  }

  predicate AnyContains(lines: seq<string>, t: string) {
    exists k :: 0 <= k < |lines| && Contains(lines[k], t)
  }

  /** The invoice number after page `i` with the given lines. */
  function NextNumber(number: string, i: nat, lines: seq<string>): string {
    if i == 1 && number == "" then
      var n := NumberIn(lines);
      if n.Some? then n.value else number
    else number
  }

  /** One iteration of the page loop on page `i` with text `text`. */
  function Step(st: ScanState, i: nat, text: string): ScanState {
    if text == "" then st
    else
      var lines := Split(text, '\n');
      var heading := Heading(lines);
      var inService := Opens(heading) || st.inService;
      var acc := if inService then st.acc + lines else st.acc;
      var flush := inService && AnyContains(lines, ChargesTotal);
      ScanState(
        inService && !flush,
        if flush then [] else acc,
        NextNumber(st.number, i, lines),
        if heading == "SZÁMLA" then st.summary + SummaryRows(text) else st.summary,
        if flush then st.charges + ServiceCharges(acc) else st.charges)
  }

  /** The state after the first `n` pages. */
  function ScanUpTo(pages: seq<string>, n: nat): ScanState
    requires n <= |pages|
  {
    if n == 0 then Start else Step(ScanUpTo(pages, n - 1), n - 1, pages[n - 1])
  }

  datatype Invoice = Invoice(invoiceNumber: string, summary: seq<seq<string>>, charges: seq<seq<string>>)

  /** What `process_vodafone` returns; `pages` holds each page's text, "" for none. */
  function Extract(pages: seq<string>): Invoice {
    var st := ScanUpTo(pages, |pages|);
    Invoice(st.number, st.summary, st.charges)
  }

  /** `process_vodafone`'s page loop. */
  method ProcessVodafone(pages: seq<string>) returns (r: Invoice)
    ensures r == Extract(pages)
  {
    var summaryRows: seq<seq<string>> := [];
    var chargeRows: seq<seq<string>> := [];
    var invoiceNumber := "";
    var inService := false;
    var acc: seq<string> := [];
    var i := 0;
    while i < |pages|
      invariant i <= |pages|
      invariant ScanState(inService, acc, invoiceNumber, summaryRows, chargeRows) == ScanUpTo(pages, i)
    {
      var text := pages[i];
      if text != "" {
        var lines := Split(text, '\n');
        var heading := Upper(Strip(lines[0]));
        if i == 1 && invoiceNumber == "" {
          var n := ScanNumber(lines);
          if n.Some? {
            invoiceNumber := n.value;
          }
        }
        if Opens(heading) {
          inService := true;
          acc := acc + lines;
        } else if inService {
          acc := acc + lines;
        }
        if inService && AnyContains(lines, ChargesTotal) {
          var rows := ProcessServiceCharges(acc);
          chargeRows := chargeRows + rows;
          inService := false;
          acc := [];
        }
        if heading == "SZÁMLA" {
          var rows := ProcessInvoicePage(text);
          summaryRows := summaryRows + rows;
        }
      }
      i := i + 1;
    }
    r := Invoice(invoiceNumber, summaryRows, chargeRows);
  }

  // ------------------------------------------------- summary properties

  /** A kept summary line never holds a noise word. */
  lemma SummaryRowNotNoisy(line: string)
    requires SummaryRow(line).Some?
    ensures !Noisy(line)
  {
  }

  /** A clean line with a TESZOR code is kept exactly when it has at least eight spaces. */
  lemma SummaryRowKeptWithCode(line: string)
    requires !Noisy(line) && HasTeszor(line)
    ensures SummaryRow(line).Some? <==> Count(line, ' ') >= 8
  {
    RSplitShape(line, ' ', 8);
  }

  /** A clean line without a TESZOR code is kept exactly when it has at least seven spaces. */
  lemma SummaryRowKeptWithoutCode(line: string)
    requires !Noisy(line) && !HasTeszor(line)
    ensures SummaryRow(line).Some? <==> Count(line, ' ') >= 7
  {
    RSplitShape(line, ' ', 7);
  }

  /** The fields of a row with a TESZOR code join back, with spaces, into its line. */
  lemma SummaryRowRejoinsWithCode(line: string)
    requires SummaryRow(line).Some? && HasTeszor(line)
    ensures Join(SummaryRow(line).value, " ") == line
  {
    RSplitJoin(line, ' ', 8);
  }

  /** A row without a TESZOR code has an empty field 4, and its other fields join back into its line. */
  lemma SummaryRowRejoinsWithoutCode(line: string)
    requires SummaryRow(line).Some? && !HasTeszor(line)
    ensures SummaryRow(line).value[4] == ""
    ensures Join(SummaryRow(line).value[..4] + SummaryRow(line).value[5..], " ") == line
  {
    var parts := RSplit(line, ' ', 7);
    var r := parts[..4] + [""] + parts[4..];
    assert r[..4] + r[5..] == parts;
    RSplitJoin(line, ' ', 7);
  }

  /** The summary rows of a page are exactly the rows of its summary lines, in order of the lines. */
  lemma SummaryRowsFromLines(text: string)
    ensures forall r :: r in SummaryRows(text) <==>
              exists i :: 0 <= i < |SummaryLines(text)| && SummaryRow(SummaryLines(text)[i]) == Some(r)
  {
    var lines := SummaryLines(text);
    var c := SummaryCandidates(lines);
    SomesMembers(c);
    forall r ensures Some(r) in c <==> exists i :: 0 <= i < |lines| && SummaryRow(lines[i]) == Some(r) {
      if Some(r) in c {
        var i :| 0 <= i < |c| && c[i] == Some(r);
        assert SummaryRow(lines[i]) == Some(r);
      }
      if exists i :: 0 <= i < |lines| && SummaryRow(lines[i]) == Some(r) {
        var i :| 0 <= i < |lines| && SummaryRow(lines[i]) == Some(r);
        assert c[i] == Some(r);
      }
    }
  }

  /** Every summary row has nine fields. */
  lemma SummaryRowsHaveNineFields(text: string)
    ensures forall r :: r in SummaryRows(text) ==> |r| == 9
  {
    SummaryRowsFromLines(text);
  }

  // ------------------------------------------- service-charge properties

  /** The phone is the first match on a line before any tariff line. */
  lemma {:induction false} PhoneIsFirstMatch(lines: seq<string>, i: nat)
    requires i < |lines|
    requires forall j :: 0 <= j <= i ==> !Contains(lines[j], TariffLabel)
    requires forall j :: 0 <= j < i ==> Search(PhonePattern, lines[j]).None?
    requires Search(PhonePattern, lines[i]).Some?
    ensures PhoneFrom(lines) == Search(PhonePattern, lines[i]).value
  {
    if i > 0 {
      assert !Contains(lines[0], TariffLabel) && Search(PhonePattern, lines[0]).None?;
      assert forall j :: 0 <= j < |lines| - 1 ==> lines[1..][j] == lines[j + 1];
      PhoneIsFirstMatch(lines[1..], i - 1);
    }
  }

  /** A tariff line reached before any match leaves the phone "N/A", even when that line has a match. */
  lemma {:induction false} PhoneStopsAtTariff(lines: seq<string>, i: nat)
    requires i < |lines| && Contains(lines[i], TariffLabel)
    requires forall j :: 0 <= j < i ==> !Contains(lines[j], TariffLabel) && Search(PhonePattern, lines[j]).None?
    ensures PhoneFrom(lines) == "N/A"
  {
    if i > 0 {
      assert !Contains(lines[0], TariffLabel) && Search(PhonePattern, lines[0]).None?;
      assert forall j :: 0 <= j < |lines| - 1 ==> lines[1..][j] == lines[j + 1];
      PhoneStopsAtTariff(lines[1..], i - 1);
    }
  }

  /** Without a match the phone is "N/A". */
  lemma {:induction false} PhoneWithoutMatch(lines: seq<string>)
    requires forall j :: 0 <= j < |lines| ==> Search(PhonePattern, lines[j]).None?
    ensures PhoneFrom(lines) == "N/A"
  {
    if lines != [] && !Contains(lines[0], TariffLabel) {
      assert forall j :: 0 <= j < |lines| - 1 ==> lines[1..][j] == lines[j + 1];
      PhoneWithoutMatch(lines[1..]);
    }
  }

  /** The description is the stripped text before the code's first occurrence. */
  lemma DescriptionBeforeCode(before: string, teszor: string)
    requires |teszor| > 0 && Contains(before, teszor)
    ensures Description(before, teszor) == Strip(before[..Find(before, teszor).value])
  {
  }

  /** A line gives a charge row exactly when it holds a TESZOR code and at least four spaces. */
  lemma ChargeRowKept(phone: string, line: string)
    ensures ChargeRow(phone, line).Some? <==> HasTeszor(line) && Count(line, ' ') >= 4
  {
    RSplitShape(line, ' ', 4);
  }

  /**
   * A charge row holds the line's first TESZOR code and the description
   * taken from the text before the last four fields.
   */
  lemma ChargeRowCode(phone: string, line: string)
    requires ChargeRow(phone, line).Some?
    ensures ChargeRow(phone, line).value[2] == Search(TeszorCode, line).value
    ensures ChargeRow(phone, line).value[1] == Description(RSplit(line, ' ', 4)[0], ChargeRow(phone, line).value[2])
  {
    var t := Search(TeszorCode, line).value;
    assert ChargeRow(phone, line) == ChargeFields(phone, t, RSplit(line, ' ', 4));
  }

  /** The text before the amounts and the four amount fields, last to first, join back into the line. */
  lemma ChargeRowRejoins(phone: string, line: string)
    requires ChargeRow(phone, line).Some?
    ensures var r := ChargeRow(phone, line).value;
            Join([RSplit(line, ' ', 4)[0], r[6], r[5], r[4], r[3]], " ") == line
  {
    RSplitJoin(line, ' ', 4);
    var parts := RSplit(line, ' ', 4);
    assert |parts| == 5;
    assert parts == [parts[0], parts[1], parts[2], parts[3], parts[4]];
  }

  /** The four amount fields of a charge row hold no space. */
  lemma ChargeRowAmountsHaveNoSpace(phone: string, line: string)
    requires ChargeRow(phone, line).Some?
    ensures forall k :: 3 <= k < 7 ==> ' ' !in ChargeRow(phone, line).value[k]
  {
    var t := Search(TeszorCode, line).value;
    var parts := RSplit(line, ' ', 4);
    RSplitShape(line, ' ', 4);
    assert ChargeRow(phone, line) == ChargeFields(phone, t, parts);
    assert ChargeRow(phone, line).value == [phone, Description(parts[0], t), t, parts[4], parts[3], parts[2], parts[1]];
  }

  /** The candidate lines are those strictly between the two markers. */
  lemma ChargeLinesBetweenMarkers(lines: seq<string>, k: nat)
    requires k < |ChargeLines(lines)|
    ensures var s := FirstStarting(lines, ChargesHeading);
            var e := FirstStarting(lines, ChargesTotal);
            && s.Some? && e.Some? && s.value + 1 + k < e.value
            && ChargeLines(lines)[k] == lines[s.value + 1 + k]
  {
  }

  /**
   * Line `k` lies strictly between the first table heading and the first
   * total line (and so within the lines).
   */
  predicate StrictlyBetween(lines: seq<string>, k: int) {
    var s := FirstStarting(lines, ChargesHeading);
    var e := FirstStarting(lines, ChargesTotal);
    s.Some? && e.Some? && s.value < k < e.value && k < |lines|
  }

  /**
   * A service-charge row is exactly the row of some line strictly between
   * the first table heading and the first total line, carrying the
   * section's phone number.
   */
  lemma ServiceChargesFromBetween(lines: seq<string>)
    ensures forall r :: r in ServiceCharges(lines) <==>
              exists k :: StrictlyBetween(lines, k) && ChargeRow(PhoneFrom(lines), lines[k]) == Some(r)
  {
    forall r | r in ServiceCharges(lines)
      ensures exists k :: StrictlyBetween(lines, k) && ChargeRow(PhoneFrom(lines), lines[k]) == Some(r)
    {
      ServiceChargeFrom(lines, r);
    }
    forall r, k | StrictlyBetween(lines, k) && ChargeRow(PhoneFrom(lines), lines[k]) == Some(r)
      ensures r in ServiceCharges(lines)
    {
      ServiceChargeTo(lines, k, r);
    }
  }

  /** The row of a qualifying line strictly between the two markers is a service-charge row. */
  lemma ServiceChargeTo(lines: seq<string>, k: nat, r: seq<string>)
    requires StrictlyBetween(lines, k) && ChargeRow(PhoneFrom(lines), lines[k]) == Some(r)
    ensures r in ServiceCharges(lines)
  {
    ServiceChargesSliced(lines);
    ChargeCandidateAt(PhoneFrom(lines), lines, k);
    KeptInSlice(ChargeCandidates(PhoneFrom(lines), lines), FirstStarting(lines, ChargesHeading).value + 1, FirstStarting(lines, ChargesTotal).value, k, r);
  }

  /** With both markers found, the service charges are those of the candidates strictly between them. */
  lemma ServiceChargesSliced(lines: seq<string>)
    requires FirstStarting(lines, ChargesHeading).Some? && FirstStarting(lines, ChargesTotal).Some?
    ensures ServiceCharges(lines)
            == Somes(Slice(ChargeCandidates(PhoneFrom(lines), lines), FirstStarting(lines, ChargesHeading).value + 1, FirstStarting(lines, ChargesTotal).value))
  {
    ServiceChargesOfSlice(lines);
    CandidatesBetween(lines, PhoneFrom(lines));
  }

  /** With both markers found, the service charges are those of the lines strictly between them. */
  lemma ServiceChargesOfSlice(lines: seq<string>)
    requires FirstStarting(lines, ChargesHeading).Some? && FirstStarting(lines, ChargesTotal).Some?
    ensures ServiceCharges(lines)
            == Somes(ChargeCandidates(PhoneFrom(lines), Slice(lines, FirstStarting(lines, ChargesHeading).value + 1, FirstStarting(lines, ChargesTotal).value)))
  {
    ChargeLinesAre(lines);
  }

  /** `CandidatesSliced` for the slice between the two markers. */
  lemma CandidatesBetween(lines: seq<string>, phone: string)
    requires FirstStarting(lines, ChargesHeading).Some? && FirstStarting(lines, ChargesTotal).Some?
    ensures ChargeCandidates(phone, Slice(lines, FirstStarting(lines, ChargesHeading).value + 1, FirstStarting(lines, ChargesTotal).value))
            == Slice(ChargeCandidates(phone, lines), FirstStarting(lines, ChargesHeading).value + 1, FirstStarting(lines, ChargesTotal).value)
  {
    CandidatesSliced(phone, lines, FirstStarting(lines, ChargesHeading).value + 1, FirstStarting(lines, ChargesTotal).value);
  }

  /** With both markers found, the candidate lines are the slice between them. */
  lemma ChargeLinesAre(lines: seq<string>)
    requires FirstStarting(lines, ChargesHeading).Some? && FirstStarting(lines, ChargesTotal).Some?
    ensures FirstStarting(lines, ChargesTotal).value < |lines|
    ensures ChargeLines(lines) == Slice(lines, FirstStarting(lines, ChargesHeading).value + 1, FirstStarting(lines, ChargesTotal).value)
  {
  }

  /** The candidates of a slice of the lines are that slice of the lines' candidates. */
  lemma CandidatesSliced(phone: string, lines: seq<string>, lo: nat, hi: nat)
    ensures hi <= |lines| ==> ChargeCandidates(phone, Slice(lines, lo, hi)) == Slice(ChargeCandidates(phone, lines), lo, hi)
  {
    MapSliced(RowOf(phone), lines, lo, hi);
  }

  /** Mapping a slice gives the slice of the mapped sequence. */
  lemma MapSliced<A, B>(f: A -> B, xs: seq<A>, lo: nat, hi: nat)
    ensures hi <= |xs| ==> Map(f, Slice(xs, lo, hi)) == Slice(Map(f, xs), lo, hi)
  {
    if hi <= |xs| {
      var a := Map(f, Slice(xs, lo, hi));
      var b := Slice(Map(f, xs), lo, hi);
      forall j | 0 <= j < |a|
        ensures a[j] == b[j]
      {
        var k := lo + j;
        assert Slice(xs, lo, hi)[j] == xs[k];
        assert b[j] == Map(f, xs)[k];
      }
    }
  }

  /** A value present at index `k` of `c`, with `lo <= k < hi`, is kept from the slice. */
  lemma KeptInSlice<T>(c: seq<Option<T>>, lo: nat, hi: nat, k: nat, x: T)
    ensures lo <= k < hi <= |c| && c[k] == Some(x) ==> x in Somes(Slice(c, lo, hi))
  {
    if lo <= k < hi <= |c| && c[k] == Some(x) {
      var j := k - lo;
      assert Slice(c, lo, hi)[j] == c[k];
      SomeKept(Slice(c, lo, hi), j, x);
    }
  }

  /** A value kept from a slice of `c` is present at some index of `c` inside the slice. */
  lemma IndexInSlice<T>(c: seq<Option<T>>, lo: nat, hi: nat, x: T) returns (k: nat)
    ensures hi <= |c| && x in Somes(Slice(c, lo, hi)) ==> lo <= k < hi && c[k] == Some(x)
  {
    k := 0;
    if hi <= |c| {
      var j := SomeIndex(Slice(c, lo, hi), x);
      k := lo + j;
    }
  }

  /** A service-charge row is the row of some line strictly between the two markers. */
  lemma ServiceChargeFrom(lines: seq<string>, r: seq<string>)
    requires r in ServiceCharges(lines)
    ensures exists k :: StrictlyBetween(lines, k) && ChargeRow(PhoneFrom(lines), lines[k]) == Some(r)
  {
    var k := ServiceChargeIndex(lines, r);
    ChargeCandidateAt(PhoneFrom(lines), lines, k);
  }

  /** The index, strictly between the two markers, of the candidate a service-charge row comes from. */
  lemma ServiceChargeIndex(lines: seq<string>, r: seq<string>) returns (k: nat)
    requires r in ServiceCharges(lines)
    ensures StrictlyBetween(lines, k)
    ensures ChargeCandidates(PhoneFrom(lines), lines)[k] == Some(r)
  {
    assert FirstStarting(lines, ChargesHeading).Some? && FirstStarting(lines, ChargesTotal).Some?;
    ServiceChargesSliced(lines);
    k := IndexInSlice(ChargeCandidates(PhoneFrom(lines), lines), FirstStarting(lines, ChargesHeading).value + 1, FirstStarting(lines, ChargesTotal).value, r);
  }

  lemma ChargeCandidateAt(phone: string, lines: seq<string>, i: nat)
    requires i < |lines|
    ensures |ChargeCandidates(phone, lines)| == |lines|
    ensures ChargeCandidates(phone, lines)[i] == ChargeRow(phone, lines[i])
  {
  }

  /** Every service-charge row has seven fields. */
  lemma ServiceChargesHaveSevenFields(lines: seq<string>)
    ensures forall r :: r in ServiceCharges(lines) ==> |r| == 7
  {
    forall r | r in ServiceCharges(lines)
      ensures |r| == 7
    {
      ServiceChargeFrom(lines, r);
    }
  }

  // -------------------------------------------------- scan properties

  /** The accumulator is empty whenever the scanner is outside a charges section. */
  predicate IdleIsEmpty(st: ScanState) {
    !st.inService ==> st.acc == []
  }

  lemma StepKeepsIdleEmpty(st: ScanState, i: nat, text: string)
    requires IdleIsEmpty(st)
    ensures IdleIsEmpty(Step(st, i, text))
  {
  }

  lemma {:induction false} ScanKeepsIdleEmpty(pages: seq<string>, n: nat)
    requires n <= |pages|
    ensures IdleIsEmpty(ScanUpTo(pages, n))
  {
    if n > 0 {
      ScanKeepsIdleEmpty(pages, n - 1);
      StepKeepsIdleEmpty(ScanUpTo(pages, n - 1), n - 1, pages[n - 1]);
    }
  }

  /** An empty page changes nothing. */
  lemma StepSkipsEmptyPage(st: ScanState, i: nat)
    ensures Step(st, i, "") == st
  {
  }

  /**
   * A page inside a charges section, or one opening it, is appended to
   * the accumulator; when it holds no total line the section goes on.
   */
  lemma StepAccumulates(st: ScanState, i: nat, text: string)
    requires text != "" && (st.inService || Opens(Heading(Split(text, '\n'))))
    requires !AnyContains(Split(text, '\n'), ChargesTotal)
    ensures Step(st, i, text).inService
    ensures Step(st, i, text).acc == st.acc + Split(text, '\n')
    ensures Step(st, i, text).charges == st.charges
  {
  }

  /**
   * A page holding a total line inside a charges section processes the
   * accumulated lines once, including its own, and resets the section.
   */
  lemma StepFlushes(st: ScanState, i: nat, text: string)
    requires text != "" && (st.inService || Opens(Heading(Split(text, '\n'))))
    requires AnyContains(Split(text, '\n'), ChargesTotal)
    ensures !Step(st, i, text).inService && Step(st, i, text).acc == []
    ensures Step(st, i, text).charges == st.charges + ServiceCharges(st.acc + Split(text, '\n'))
  {
  }

  /** Outside a charges section, a page that does not open one leaves the section state and charges alone. */
  lemma StepOutsideSection(st: ScanState, i: nat, text: string)
    requires IdleIsEmpty(st) && !st.inService
    requires text == "" || !Opens(Heading(Split(text, '\n')))
    ensures !Step(st, i, text).inService && Step(st, i, text).acc == []
    ensures Step(st, i, text).charges == st.charges
  {
  }

  /** Summary rows come only from pages headed "SZÁMLA". */
  lemma StepSummary(st: ScanState, i: nat, text: string)
    ensures Step(st, i, text).summary ==
              if text != "" && Heading(Split(text, '\n')) == "SZÁMLA" then st.summary + SummaryRows(text) else st.summary
  {
  }

  /** The number the scan holds after `n` pages: read from page index 1 only. */
  function NumberAfter(pages: seq<string>, n: nat): string
    requires n <= |pages|
  {
    if n >= 2 && pages[1] != "" && NumberIn(Split(pages[1], '\n')).Some?
    then NumberIn(Split(pages[1], '\n')).value
    else ""
  }

  lemma {:induction false} ScanNumberFromSecondPage(pages: seq<string>, n: nat)
    requires n <= |pages|
    ensures ScanUpTo(pages, n).number == NumberAfter(pages, n)
  {
    if n > 0 {
      ScanNumberFromSecondPage(pages, n - 1);
      StepNumber(ScanUpTo(pages, n - 1), n - 1, pages[n - 1]);
      NumberAfterStep(pages, n);
    }
  }

  /** Page `n - 1` moves `NumberAfter` on exactly as one step of the scan moves the number. */
  lemma NumberAfterStep(pages: seq<string>, n: nat)
    requires 0 < n <= |pages|
    ensures NumberAfter(pages, n) ==
              if pages[n - 1] == "" then NumberAfter(pages, n - 1)
              else NextNumber(NumberAfter(pages, n - 1), n - 1, Split(pages[n - 1], '\n'))
  {
  }

  /** Only a non-empty page can change the number, and only as `NextNumber` says. */
  lemma StepNumber(st: ScanState, i: nat, text: string)
    ensures Step(st, i, text).number == if text == "" then st.number else NextNumber(st.number, i, Split(text, '\n'))
  {
  }

  /** The invoice number is the first `Számlaszám` match of page index 1, "" when there is none. */
  lemma InvoiceNumberFromSecondPage(pages: seq<string>)
    ensures Extract(pages).invoiceNumber == NumberAfter(pages, |pages|)
  {
    ScanNumberFromSecondPage(pages, |pages|);
  }

  /** Every row has `n` fields. */
  predicate Widths(rows: seq<seq<string>>, n: nat) {
    forall i :: 0 <= i < |rows| ==> |rows[i]| == n
  }

  lemma StepKeepsSummaryWidth(st: ScanState, i: nat, text: string)
    requires Widths(st.summary, 9)
    ensures Widths(Step(st, i, text).summary, 9)
  {
    StepSummary(st, i, text);
    if text != "" && Heading(Split(text, '\n')) == "SZÁMLA" {
      SummaryRowsHaveNineFields(text);
      WidthsConcat(st.summary, SummaryRows(text), 9);
    }
  }

  lemma WidthsConcat(a: seq<seq<string>>, b: seq<seq<string>>, n: nat)
    requires Widths(a, n)
    requires forall r :: r in b ==> |r| == n
    ensures Widths(a + b, n)
  {
    forall i | |a| <= i < |a + b|
      ensures |(a + b)[i]| == n
    {
      assert (a + b)[i] == b[i - |a|];
    }
  }

  /** The accumulated lines a page's step processes when it flushes. */
  function StepLines(st: ScanState, text: string): seq<string>
    requires text != ""
  {
    var lines := Split(text, '\n');
    if Opens(Heading(lines)) || st.inService then st.acc + lines else st.acc
  }

  lemma StepCharges(st: ScanState, i: nat, text: string)
    ensures Step(st, i, text).charges == st.charges
            || (text != "" && Step(st, i, text).charges == st.charges + ServiceCharges(StepLines(st, text)))
  {
  }

  lemma StepKeepsChargeWidth(st: ScanState, i: nat, text: string)
    requires Widths(st.charges, 7)
    ensures Widths(Step(st, i, text).charges, 7)
  {
    StepCharges(st, i, text);
    if text != "" {
      ServiceChargesHaveSevenFields(StepLines(st, text));
      WidthsConcat(st.charges, ServiceCharges(StepLines(st, text)), 7);
    }
  }

  lemma {:induction false} ScanKeepsSummaryWidth(pages: seq<string>, n: nat)
    requires n <= |pages|
    ensures Widths(ScanUpTo(pages, n).summary, 9)
  {
    if n > 0 {
      ScanKeepsSummaryWidth(pages, n - 1);
      StepKeepsSummaryWidth(ScanUpTo(pages, n - 1), n - 1, pages[n - 1]);
    }
  }

  lemma {:induction false} ScanKeepsChargeWidth(pages: seq<string>, n: nat)
    requires n <= |pages|
    ensures Widths(ScanUpTo(pages, n).charges, 7)
  {
    if n > 0 {
      ScanKeepsChargeWidth(pages, n - 1);
      StepKeepsChargeWidth(ScanUpTo(pages, n - 1), n - 1, pages[n - 1]);
    }
  }

  /** Every extracted summary row has nine fields, every charge row seven. */
  lemma ExtractRowWidths(pages: seq<string>)
    ensures Widths(Extract(pages).summary, 9) && Widths(Extract(pages).charges, 7)
  {
    ScanKeepsSummaryWidth(pages, |pages|);
    ScanKeepsChargeWidth(pages, |pages|);
  }
}
