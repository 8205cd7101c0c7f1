/**
 * The in-memory decisions of the Aerozone invoice router: which uploaded
 * invoices are listed as complete (grouped per partner) and which as
 * incomplete, and how an upload of several files is validated and
 * summarised.
 */
module Aerozone {
  import opened Wrappers
  import opened PyStr

  datatype EmailType = To | Cc | Bcc

  datatype PartnerEmail = PartnerEmail(id: int, email: string, kind: EmailType)

  datatype Partner = Partner(id: int, name: string, taxNumber: string, contact: Option<string>, emails: seq<PartnerEmail>)

  datatype Status = Pending | Ready

  /** A row of `uploaded_invoices` with its partner loaded, when it has one. */
  datatype UploadedInvoice = UploadedInvoice(id: int, filename: string, ownTaxId: Option<string>, partnerTaxId: Option<string>,
                                             blobUrl: Option<string>, status: Status, uploadedAt: string, partner: Option<Partner>)

  /** The partner's addresses of one type, in their order. */
  function EmailsOfType(emails: seq<PartnerEmail>, kind: EmailType): (r: seq<PartnerEmail>)
    ensures |r| <= |emails|
    ensures forall e :: e in r <==> e in emails && e.kind == kind
  {
    if emails == [] then []
    else
      var last := emails[|emails| - 1];
      EmailsOfType(emails[..|emails| - 1], kind) + (if last.kind == kind then [last] else [])
  }

  /** A partner is there and has at least one "to" address: the test both routers make. */
  predicate Complete(inv: UploadedInvoice) {
    inv.partner.Some? && EmailsOfType(inv.partner.value.emails, To) != []
  }

  lemma CompleteMeansToAddress(inv: UploadedInvoice)
    ensures Complete(inv) <==> inv.partner.Some? && exists e :: e in inv.partner.value.emails && e.kind == To
  {
    if inv.partner.Some? {
      var ts := EmailsOfType(inv.partner.value.emails, To);
      if ts != [] {
        assert ts[0] in ts;
      }
    }
  }

  // ------------------------------------------------------------ listing

  /** The invoice fields the listing returns. */
  datatype Entry = Entry(id: int, filename: string, ownTaxId: Option<string>, partnerTaxId: Option<string>,
                         blobUrl: Option<string>, status: Status, uploadedAt: string)

  /** An entry of `incomplete`: the fields and the partner data, `None` without a partner. */
  datatype IncompleteEntry = IncompleteEntry(entry: Entry, partnerData: Option<Partner>)

  /** A value of `partner_invoice_map`: the partner's data and its invoices. */
  datatype CompleteGroup = CompleteGroup(partnerData: Partner, invoices: seq<Entry>)

  datatype Listing = Listing(complete: seq<CompleteGroup>, incomplete: seq<IncompleteEntry>)

  function EntryOf(inv: UploadedInvoice): Entry {
    Entry(inv.id, inv.filename, inv.ownTaxId, inv.partnerTaxId, inv.blobUrl, inv.status, inv.uploadedAt)
  }

  /** The position of the partner's group; the dictionary's keys are the partner ids. */
  function GroupIndex(gs: seq<CompleteGroup>, pid: int): (r: Option<nat>)
    ensures r.Some? ==> r.value < |gs| && gs[r.value].partnerData.id == pid
    ensures r.None? ==> forall k :: 0 <= k < |gs| ==> gs[k].partnerData.id != pid
  {
    if gs == [] then None
    else if gs[|gs| - 1].partnerData.id == pid then Some(|gs| - 1)
    else GroupIndex(gs[..|gs| - 1], pid)
  }

  /** One turn of the listing loop. */
  function ListStep(l: Listing, inv: UploadedInvoice): Listing {
    if Complete(inv) then
      var p := inv.partner.value;
      match GroupIndex(l.complete, p.id)
      case None => l.(complete := l.complete + [CompleteGroup(p, [EntryOf(inv)])])
      case Some(k) =>
        var g := l.complete[k];
        l.(complete := l.complete[k := g.(invoices := g.invoices + [EntryOf(inv)])])
    else l.(incomplete := l.incomplete + [IncompleteEntry(EntryOf(inv), inv.partner)])
  }

  /** What `get_uploaded_invoices` returns for the invoices in the order the query yields them. */
  function ListingOf(invs: seq<UploadedInvoice>): Listing {
    if invs == [] then Listing([], [])
    else ListStep(ListingOf(invs[..|invs| - 1]), invs[|invs| - 1])
  }

  /** The listing loop. */
  method ListInvoices(invs: seq<UploadedInvoice>) returns (l: Listing)
    ensures l == ListingOf(invs)
  {
    var complete: seq<CompleteGroup> := [];
    var incomplete: seq<IncompleteEntry> := [];
    for i := 0 to |invs|
      invariant Listing(complete, incomplete) == ListingOf(invs[..i])
    {
      var inv := invs[i];
      assert invs[..i + 1][..i] == invs[..i];
      if Complete(inv) {
        var p := inv.partner.value;
        var k := GroupIndex(complete, p.id);
        if k.None? {
          complete := complete + [CompleteGroup(p, [EntryOf(inv)])];
        } else {
          var g := complete[k.value];
          complete := complete[k.value := g.(invoices := g.invoices + [EntryOf(inv)])];
        }
      } else {
        incomplete := incomplete + [IncompleteEntry(EntryOf(inv), inv.partner)];
      }
    }
    assert invs[..|invs|] == invs;
    l := Listing(complete, incomplete);
  }

  // ---------------------------------------------- reference definitions

  /** The incomplete invoices, in order: those without a partner or without a "to" address. */
  function IncompleteOf(invs: seq<UploadedInvoice>): seq<IncompleteEntry> {
    if invs == [] then []
    else
      var last := invs[|invs| - 1];
      IncompleteOf(invs[..|invs| - 1]) + (if Complete(last) then [] else [IncompleteEntry(EntryOf(last), last.partner)])
  }

  predicate CompleteFor(inv: UploadedInvoice, pid: int) {
    Complete(inv) && inv.partner.value.id == pid
  }

  /** The entries of the complete invoices of partner `pid`, in order. */
  function EntriesFor(invs: seq<UploadedInvoice>, pid: int): seq<Entry> {
    if invs == [] then []
    else
      var last := invs[|invs| - 1];
      EntriesFor(invs[..|invs| - 1], pid) + (if CompleteFor(last, pid) then [EntryOf(last)] else [])
  }

  predicate HasCompleteFor(invs: seq<UploadedInvoice>, pid: int) {
    exists i :: 0 <= i < |invs| && CompleteFor(invs[i], pid)
  }

  /** The position of the first complete invoice of partner `pid`. */
  function FirstFor(invs: seq<UploadedInvoice>, pid: int): (r: nat)
    requires HasCompleteFor(invs, pid)
    ensures r < |invs| && CompleteFor(invs[r], pid)
    ensures forall i :: 0 <= i < r ==> !CompleteFor(invs[i], pid)
  {
    var front := invs[..|invs| - 1];
    if HasCompleteFor(front, pid) then
      var r := FirstFor(front, pid);
      assert forall i :: 0 <= i < r ==> front[i] == invs[i];
      r
    else
      assert forall i :: 0 <= i < |invs| - 1 ==> front[i] == invs[i];
      |invs| - 1
  }

  lemma HasCompleteForSnoc(invs: seq<UploadedInvoice>, pid: int)
    requires invs != []
    ensures HasCompleteFor(invs, pid) <==> HasCompleteFor(invs[..|invs| - 1], pid) || CompleteFor(invs[|invs| - 1], pid)
  {
    var front := invs[..|invs| - 1];
    if HasCompleteFor(invs, pid) && !CompleteFor(invs[|invs| - 1], pid) {
      var i :| 0 <= i < |invs| && CompleteFor(invs[i], pid);
      assert front[i] == invs[i];
    }
    if HasCompleteFor(front, pid) {
      var i :| 0 <= i < |front| && CompleteFor(front[i], pid);
      assert invs[i] == front[i];
    }
  }

  predicate DistinctPartners(gs: seq<CompleteGroup>) {
    forall j, k :: 0 <= j < k < |gs| ==> gs[j].partnerData.id != gs[k].partnerData.id
  }

  function EntryCount(gs: seq<CompleteGroup>): nat {
    if gs == [] then 0 else EntryCount(gs[..|gs| - 1]) + |gs[|gs| - 1].invoices|
  }

  // ------------------------------------------------------ listing lemmas

  /** `incomplete` holds exactly the invoices that are not complete, in order. */
  lemma {:induction false} ListingIncomplete(invs: seq<UploadedInvoice>)
    ensures ListingOf(invs).incomplete == IncompleteOf(invs)
  {
    if invs != [] {
      ListingIncomplete(invs[..|invs| - 1]);
    }
  }

  /**
   * There is one group per partner that has a complete invoice, and none
   * for any other partner.
   */
  lemma {:induction false} ListingGroupKeys(invs: seq<UploadedInvoice>, pid: int)
    ensures DistinctPartners(ListingOf(invs).complete)
    ensures GroupIndex(ListingOf(invs).complete, pid).Some? <==> HasCompleteFor(invs, pid)
  {
    if invs != [] {
      var front := invs[..|invs| - 1];
      var last := invs[|invs| - 1];
      ListingGroupKeys(front, pid);
      HasCompleteForSnoc(invs, pid);
      if Complete(last) {
        var q := last.partner.value.id;
        ListingGroupKeys(front, q);
        var gs := ListingOf(front).complete;
        var r := ListingOf(invs).complete;
        if GroupIndex(gs, q).None? {
          assert r == gs + [CompleteGroup(last.partner.value, [EntryOf(last)])];
          if pid == q {
            assert r[|gs|].partnerData.id == pid;
          } else {
            if GroupIndex(r, pid).Some? {
              assert gs[GroupIndex(r, pid).value] == r[GroupIndex(r, pid).value];
            }
            if GroupIndex(gs, pid).Some? {
              assert r[GroupIndex(gs, pid).value] == gs[GroupIndex(gs, pid).value];
            }
          }
        } else {
          var k := GroupIndex(gs, q).value;
          assert forall j :: 0 <= j < |r| ==> r[j].partnerData.id == gs[j].partnerData.id;
          if GroupIndex(r, pid).Some? {
            assert gs[GroupIndex(r, pid).value].partnerData.id == pid;
          }
          if GroupIndex(gs, pid).Some? {
            assert r[GroupIndex(gs, pid).value].partnerData.id == pid;
          }
        }
      }
    }
  }

  lemma EntriesForNone(invs: seq<UploadedInvoice>, pid: int)
    requires !HasCompleteFor(invs, pid)
    ensures EntriesFor(invs, pid) == []
  {
    if invs != [] {
      HasCompleteForSnoc(invs, pid);
      EntriesForNone(invs[..|invs| - 1], pid);
    }
  }

  /**
   * Each group holds exactly its partner's complete invoices, in the order
   * they were read, and takes its partner data from the first of them.
   */
  lemma {:induction false} ListingGroups(invs: seq<UploadedInvoice>, k: nat)
    requires k < |ListingOf(invs).complete|
    ensures var g := ListingOf(invs).complete[k];
            && HasCompleteFor(invs, g.partnerData.id)
            && g.invoices == EntriesFor(invs, g.partnerData.id)
            && g.partnerData == invs[FirstFor(invs, g.partnerData.id)].partner.value
  {
    var front := invs[..|invs| - 1];
    var last := invs[|invs| - 1];
    var gs := ListingOf(front).complete;
    var r := ListingOf(invs).complete;
    var pid := r[k].partnerData.id;
    HasCompleteForSnoc(invs, pid);
    if !Complete(last) {
      ListingGroups(front, k);
    } else {
      var q := last.partner.value.id;
      ListingGroupKeys(front, q);
      match GroupIndex(gs, q)
      case None =>
        if k < |gs| {
          ListingGroups(front, k);
        } else {
          EntriesForNone(front, q);
        }
      case Some(m) =>
        ListingGroups(front, k);
    }
  }

  /** Groups come in the order their partners first appear. */
  lemma {:induction false} ListingOrder(invs: seq<UploadedInvoice>, j: nat, k: nat)
    requires j < k < |ListingOf(invs).complete|
    ensures var gs := ListingOf(invs).complete;
            HasCompleteFor(invs, gs[j].partnerData.id) && HasCompleteFor(invs, gs[k].partnerData.id)
            && FirstFor(invs, gs[j].partnerData.id) < FirstFor(invs, gs[k].partnerData.id)
  {
    var front := invs[..|invs| - 1];
    var gs := ListingOf(front).complete;
    var r := ListingOf(invs).complete;
    var a, b := r[j].partnerData.id, r[k].partnerData.id;
    ListingSnoc(invs, j);
    ListingSnoc(invs, k);
    if k == |gs| {
      ListingGroupKeys(front, b);
      ListingGroups(front, j);
      FirstForSnoc(invs, a);
      FirstForLast(invs, b);
    } else {
      ListingOrder(front, j, k);
      FirstForSnoc(invs, a);
      FirstForSnoc(invs, b);
    }
  }

  /** A group of the longer listing is one of the shorter, or the one group the last invoice opened. */
  lemma ListingSnoc(invs: seq<UploadedInvoice>, idx: nat)
    requires invs != [] && idx < |ListingOf(invs).complete|
    ensures var gs := ListingOf(invs[..|invs| - 1]).complete;
            var r := ListingOf(invs).complete;
            && (idx < |gs| ==> r[idx].partnerData == gs[idx].partnerData)
            && (idx >= |gs| ==>
                  && idx == |gs| && Complete(invs[|invs| - 1])
                  && r[idx].partnerData == invs[|invs| - 1].partner.value
                  && GroupIndex(gs, r[idx].partnerData.id).None?)
  {
  }

  /** An invoice appended after a partner's first complete one leaves that position alone. */
  lemma FirstForSnoc(invs: seq<UploadedInvoice>, pid: int)
    requires invs != [] && HasCompleteFor(invs[..|invs| - 1], pid)
    ensures HasCompleteFor(invs, pid) && FirstFor(invs, pid) == FirstFor(invs[..|invs| - 1], pid)
  {
    HasCompleteForSnoc(invs, pid);
  }

  lemma FirstForLast(invs: seq<UploadedInvoice>, pid: int)
    requires invs != [] && !HasCompleteFor(invs[..|invs| - 1], pid) && CompleteFor(invs[|invs| - 1], pid)
    ensures HasCompleteFor(invs, pid) && FirstFor(invs, pid) == |invs| - 1
  {
    HasCompleteForSnoc(invs, pid);
  }

  /** Every invoice is listed once: the groups' entries and the incomplete entries together number the invoices. */
  lemma {:induction false} ListingCountsEveryInvoice(invs: seq<UploadedInvoice>)
    ensures EntryCount(ListingOf(invs).complete) + |ListingOf(invs).incomplete| == |invs|
  {
    if invs != [] {
      var front := invs[..|invs| - 1];
      var last := invs[|invs| - 1];
      ListingCountsEveryInvoice(front);
      var gs := ListingOf(front).complete;
      if Complete(last) {
        match GroupIndex(gs, last.partner.value.id)
        case None =>
          assert (gs + [CompleteGroup(last.partner.value, [EntryOf(last)])])[..|gs|] == gs;
        case Some(m) =>
          var g := gs[m];
          EntryCountUpdate(gs, m, g.(invoices := g.invoices + [EntryOf(last)]));
      }
    }
  }

  lemma {:induction false} EntryCountUpdate(gs: seq<CompleteGroup>, m: nat, g: CompleteGroup)
    requires m < |gs|
    ensures EntryCount(gs[m := g]) == EntryCount(gs) - |gs[m].invoices| + |g.invoices|
  {
    var front := gs[..|gs| - 1];
    if m < |gs| - 1 {
      assert gs[m := g][..|gs| - 1] == front[m := g];
      EntryCountUpdate(front, m, g);
    } else {
      assert gs[m := g][..|gs| - 1] == front;
    }
  }

  // ------------------------------------------------------------- upload

  /** A file of the upload request: its name, its declared content type and its bytes. */
  datatype UploadFile = UploadFile(filename: string, contentType: string, content: seq<bv8>)

  datatype UploadError = UploadError(filename: string, error: string)

  /** The response of `upload_invoice`; `errors` is empty when every file was saved. */
  datatype UploadResult = UploadResult(success: bool, message: string, errors: seq<UploadError>)

  const OnlyPdf := "Csak PDF fájl tölthető fel!"
  const NoneSaved := "Egyik számlát sem sikerült elmenteni."
  const SomeNotSaved := "Néhány számlát nem sikerült elmenteni."
  const AllSaved := "Az összes számla sikeresen elmentve."

  /** The content type is `application/pdf` and the lower-cased name ends in ".pdf". */
  predicate IsPdf(f: UploadFile) {
    f.contentType == "application/pdf" && EndsWithIgnoringCase(f.filename, ".pdf")
  }

  /**
   * The error the `i`-th file adds, if any. `save(i, f)` stands for the
   * `try` block run on that file: reading its bytes, extracting the tax
   * ids, looking up the partner, uploading the blob and committing the
   * row; it gives the text of the exception raised, or `None`. It takes
   * the file's position because its outcome may depend on what the saves
   * of the earlier files left behind.
   */
  function FileError(i: nat, f: UploadFile, save: (nat, UploadFile) -> Option<string>): Option<UploadError> {
    if !IsPdf(f) then Some(UploadError(f.filename, OnlyPdf))
    else match save(i, f)
      case None => None
      case Some(e) => Some(UploadError(f.filename, e))
  }

  function FileErrors(files: seq<UploadFile>, save: (nat, UploadFile) -> Option<string>): (r: seq<Option<UploadError>>)
    ensures |r| == |files| && forall i :: 0 <= i < |files| ==> r[i] == FileError(i, files[i], save)
  {
    seq(|files|, i requires 0 <= i < |files| => FileError(i, files[i], save))
  }

  function UploadErrors(files: seq<UploadFile>, save: (nat, UploadFile) -> Option<string>): seq<UploadError> {
    Somes(FileErrors(files, save))
  }

  /** The response chosen from the errors collected. */
  function UploadSummary(files: seq<UploadFile>, errors: seq<UploadError>): UploadResult {
    if errors != [] && |errors| == |files| then UploadResult(false, NoneSaved, errors)
    else if errors != [] then UploadResult(false, SomeNotSaved, errors)
    else UploadResult(true, AllSaved, [])
  }

  /** The upload loop and its response. */
  method UploadInvoices(files: seq<UploadFile>, save: (nat, UploadFile) -> Option<string>) returns (r: UploadResult)
    ensures r == UploadSummary(files, UploadErrors(files, save))
  {
    var errors: seq<UploadError> := [];
    ghost var candidates := FileErrors(files, save);
    for i := 0 to |files|
      invariant errors == Somes(candidates[..i])
    {
      SomesPrefix(candidates, i);
      var f := files[i];
      if !IsPdf(f) {
        errors := errors + [UploadError(f.filename, OnlyPdf)];
        continue;
      }
      var e := save(i, f);
      if e.Some? {
        errors := errors + [UploadError(f.filename, e.value)];
      }
    }
    assert candidates[..|files|] == candidates;
    if errors != [] && |errors| == |files| {
      r := UploadResult(false, NoneSaved, errors);
    } else if errors != [] {
      r := UploadResult(false, SomeNotSaved, errors);
    } else {
      r := UploadResult(true, AllSaved, []);
    }
  }

  /** The upload succeeds exactly when every file is a PDF and is saved. */
  lemma UploadSucceeds(files: seq<UploadFile>, save: (nat, UploadFile) -> Option<string>)
    ensures var r := UploadSummary(files, UploadErrors(files, save));
            r.success <==> forall i :: 0 <= i < |files| ==> IsPdf(files[i]) && save(i, files[i]).None?
    ensures var r := UploadSummary(files, UploadErrors(files, save));
            r.success <==> r.errors == []
  {
    var c := FileErrors(files, save);
    SomesEmpty(c);
    forall i | 0 <= i < |files|
      ensures c[i].None? <==> IsPdf(files[i]) && save(i, files[i]).None?
    {
    }
  }

  /** "Egyik számlát sem…" is the message exactly when there were files and every one of them failed. */
  lemma UploadNoneSaved(files: seq<UploadFile>, save: (nat, UploadFile) -> Option<string>)
    ensures var r := UploadSummary(files, UploadErrors(files, save));
            r.message == NoneSaved <==> files != [] && forall i :: 0 <= i < |files| ==> FileError(i, files[i], save).Some?
  {
    var c := FileErrors(files, save);
    SomesFull(c);
    SomesEmpty(c);
  }

  /** The errors are those of the failing files, in order; a file that is not a PDF is reported as such. */
  lemma UploadErrorsOfFiles(files: seq<UploadFile>, save: (nat, UploadFile) -> Option<string>, i: nat)
    requires i < |files|
    ensures forall e :: e in UploadErrors(files, save) <==> exists j :: 0 <= j < |files| && FileError(j, files[j], save) == Some(e)
    ensures !IsPdf(files[i]) ==> UploadError(files[i].filename, OnlyPdf) in UploadErrors(files, save)
    ensures IsPdf(files[i]) && save(i, files[i]).Some? ==> UploadError(files[i].filename, save(i, files[i]).value) in UploadErrors(files, save)
  {
    var c := FileErrors(files, save);
    SomesMembers(c);
    forall e ensures Some(e) in c <==> exists j :: 0 <= j < |files| && FileError(j, files[j], save) == Some(e) {
      if Some(e) in c {
        var j :| 0 <= j < |c| && c[j] == Some(e);
        assert FileError(j, files[j], save) == Some(e);
      }
    }
    assert c[i] == FileError(i, files[i], save);
  }

  /** No value is present exactly when the present values are none. */
  lemma {:induction false} SomesEmpty<T>(s: seq<Option<T>>)
    ensures Somes(s) == [] <==> forall i :: 0 <= i < |s| ==> s[i].None?
  {
    if s != [] {
      var front := s[..|s| - 1];
      SomesEmpty(front);
      assert forall i :: 0 <= i < |front| ==> front[i] == s[i];
    }
  }

  /** All the values are present exactly when none is dropped. */
  lemma {:induction false} SomesFull<T>(s: seq<Option<T>>)
    ensures |Somes(s)| == |s| <==> forall i :: 0 <= i < |s| ==> s[i].Some?
  {
    if s != [] {
      var front := s[..|s| - 1];
      SomesFull(front);
      assert forall i :: 0 <= i < |front| ==> front[i] == s[i];
    }
  }
}
