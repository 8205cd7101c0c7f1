/**
 * Sending the complete invoices: one e-mail per partner with a "to"
 * address, carrying every invoice of that partner whose PDF could be
 * downloaded, and the summary of what was sent and what failed.
 */
module AerozoneSend {
  import opened Wrappers
  import opened PyStr
  import opened Numbers
  import opened Aerozone

  /** A value of the sending loop's `partner_invoice_map`: the partner and its addresses as first seen, and its invoices. */
  datatype SendGroup = SendGroup(partner: Partner, toEmails: seq<PartnerEmail>, ccEmails: seq<PartnerEmail>,
                                 invoices: seq<UploadedInvoice>)

  function SendIndex(gs: seq<SendGroup>, pid: int): (r: Option<nat>)
    ensures r.Some? ==> r.value < |gs| && gs[r.value].partner.id == pid
    ensures r.None? ==> forall k :: 0 <= k < |gs| ==> gs[k].partner.id != pid
  {
    if gs == [] then None
    else if gs[|gs| - 1].partner.id == pid then Some(|gs| - 1)
    else SendIndex(gs[..|gs| - 1], pid)
  }

  /** One turn of the grouping loop: invoices without a partner or without a "to" address are skipped. */
  function SendStep(gs: seq<SendGroup>, inv: UploadedInvoice): seq<SendGroup> {
    if !Complete(inv) then gs
    else
      var p := inv.partner.value;
      match SendIndex(gs, p.id)
      case None => gs + [SendGroup(p, EmailsOfType(p.emails, To), EmailsOfType(p.emails, Cc), [inv])]
      case Some(k) => gs[k := gs[k].(invoices := gs[k].invoices + [inv])]
  }

  function SendGroupsOf(invs: seq<UploadedInvoice>): seq<SendGroup> {
    if invs == [] then [] else SendStep(SendGroupsOf(invs[..|invs| - 1]), invs[|invs| - 1])
  }

  /** The grouping loop of `send_complete_invoices`. */
  method GroupForSending(invs: seq<UploadedInvoice>) returns (gs: seq<SendGroup>)
    ensures gs == SendGroupsOf(invs)
  {
    gs := [];
    for i := 0 to |invs|
      invariant gs == SendGroupsOf(invs[..i])
    {
      assert invs[..i + 1][..i] == invs[..i];
      var inv := invs[i];
      if inv.partner.None? {
        continue;
      }
      var p := inv.partner.value;
      var toEmails := EmailsOfType(p.emails, To);
      var ccEmails := EmailsOfType(p.emails, Cc);
      if toEmails == [] {
        continue;
      }
      var k := SendIndex(gs, p.id);
      if k.None? {
        gs := gs + [SendGroup(p, toEmails, ccEmails, [inv])];
      } else {
        gs := gs[k.value := gs[k.value].(invoices := gs[k.value].invoices + [inv])];
      }
    }
    assert invs[..|invs|] == invs;
  }

  function EntriesOf(invs: seq<UploadedInvoice>): (r: seq<Entry>)
    ensures |r| == |invs| && forall i :: 0 <= i < |invs| ==> r[i] == EntryOf(invs[i])
  {
    seq(|invs|, i requires 0 <= i < |invs| => EntryOf(invs[i]))
  }

  /** The sending groups and the listing's complete groups are the same partners, in the same order, with the same invoices. */
  predicate SameGroups(s: seq<SendGroup>, l: seq<CompleteGroup>) {
    |s| == |l| && forall k :: 0 <= k < |s| ==> s[k].partner == l[k].partnerData && EntriesOf(s[k].invoices) == l[k].invoices
  }

  lemma {:induction false} SameIndex(s: seq<SendGroup>, l: seq<CompleteGroup>, pid: int)
    requires SameGroups(s, l)
    ensures SendIndex(s, pid) == GroupIndex(l, pid)
  {
    if s != [] {
      var n := |s| - 1;
      assert SameGroups(s[..n], l[..n]) by {
        forall k | 0 <= k < n ensures s[..n][k].partner == l[..n][k].partnerData && EntriesOf(s[..n][k].invoices) == l[..n][k].invoices {
          assert s[..n][k] == s[k] && l[..n][k] == l[k];
        }
      }
      SameIndex(s[..n], l[..n], pid);
    }
  }

  lemma EntriesOfSnoc(invs: seq<UploadedInvoice>, inv: UploadedInvoice)
    ensures EntriesOf(invs + [inv]) == EntriesOf(invs) + [EntryOf(inv)]
  {
  }

  /**
   * The groups an e-mail goes to are exactly the listing's complete
   * groups: the same partners in the same order with the same invoices.
   */
  lemma {:induction false} SendGroupsAreListed(invs: seq<UploadedInvoice>)
    ensures SameGroups(SendGroupsOf(invs), ListingOf(invs).complete)
  {
    if invs != [] {
      var front := invs[..|invs| - 1];
      var last := invs[|invs| - 1];
      SendGroupsAreListed(front);
      var s := SendGroupsOf(front);
      var l := ListingOf(front).complete;
      if Complete(last) {
        var p := last.partner.value;
        SameIndex(s, l, p.id);
        match SendIndex(s, p.id)
        case None =>
          assert EntriesOf([last]) == [EntryOf(last)];
        case Some(k) =>
          EntriesOfSnoc(s[k].invoices, last);
      }
    }
  }

  /** Every invoice grouped for sending is complete and belongs to its group's partner. */
  lemma {:induction false} SendGroupsOnlyComplete(invs: seq<UploadedInvoice>, k: nat, m: nat)
    requires k < |SendGroupsOf(invs)| && m < |SendGroupsOf(invs)[k].invoices|
    ensures CompleteFor(SendGroupsOf(invs)[k].invoices[m], SendGroupsOf(invs)[k].partner.id)
  {
    var front := invs[..|invs| - 1];
    var last := invs[|invs| - 1];
    var s := SendGroupsOf(front);
    if Complete(last) {
      match SendIndex(s, last.partner.value.id)
      case None =>
        if k < |s| { SendGroupsOnlyComplete(front, k, m); }
      case Some(j) =>
        if k != j || m < |s[j].invoices| { SendGroupsOnlyComplete(front, k, m); }
    } else {
      SendGroupsOnlyComplete(front, k, m);
    }
  }

  /** A partner's addresses are those of the first invoice grouped under it. */
  lemma {:induction false} SendGroupAddresses(invs: seq<UploadedInvoice>, k: nat)
    requires k < |SendGroupsOf(invs)|
    ensures var g := SendGroupsOf(invs)[k];
            && HasCompleteFor(invs, g.partner.id)
            && g.partner == invs[FirstFor(invs, g.partner.id)].partner.value
            && g.toEmails == EmailsOfType(g.partner.emails, To)
            && g.ccEmails == EmailsOfType(g.partner.emails, Cc)
  {
    SendGroupsAreListed(invs);
    ListingGroups(invs, k);
    SendGroupEmails(invs, k);
  }

  lemma {:induction false} SendGroupEmails(invs: seq<UploadedInvoice>, k: nat)
    requires k < |SendGroupsOf(invs)|
    ensures var g := SendGroupsOf(invs)[k];
            g.toEmails == EmailsOfType(g.partner.emails, To) && g.ccEmails == EmailsOfType(g.partner.emails, Cc)
  {
    var front := invs[..|invs| - 1];
    var last := invs[|invs| - 1];
    var s := SendGroupsOf(front);
    if Complete(last) {
      match SendIndex(s, last.partner.value.id)
      case None =>
        if k < |s| { SendGroupEmails(front, k); }
      case Some(j) =>
        SendGroupEmails(front, k);
    } else {
      SendGroupEmails(front, k);
    }
  }

  // ------------------------------------------------------------- sending

  datatype Attachment = Attachment(name: string, contentType: string, content: seq<bv8>)

  datatype Failure = Failure(partner: string, error: string)

  /** An entry of `sent`: the partner, its "to" addresses and the attached file names. */
  datatype Delivery = Delivery(partner: string, emails: seq<string>, invoices: seq<string>)

  /** The arguments of `send_email_with_attachment`. */
  datatype Mail = Mail(toEmails: seq<string>, ccEmails: seq<string>, subject: string, html: string, plainText: string,
                       attachments: seq<Attachment>)

  datatype SendResult = SendResult(success: bool, sent: seq<Delivery>, failed: seq<Failure>, message: string)

  const DownloadFailed := "Nem sikerült a PDF-et letölteni: "
  const NothingToSend := "Nincs letölthető számla."
  const MailFailed := "E-mail küldési hiba: "

  function Addresses(es: seq<PartnerEmail>): (r: seq<string>)
    ensures |r| == |es| && forall i :: 0 <= i < |es| ==> r[i] == es[i].email
  {
    seq(|es|, i requires 0 <= i < |es| => es[i].email)
  }

  function AttachmentNames(atts: seq<Attachment>): (r: seq<string>)
    ensures |r| == |atts| && forall i :: 0 <= i < |atts| ==> r[i] == atts[i].name
  {
    seq(|atts|, i requires 0 <= i < |atts| => atts[i].name)
  }

  /** The mail body: the message in a paragraph, each "\r\n", then "\n", then "\r" replaced by `<br>`. */
  function Html(message: string): string {
    "<p>" + ReplaceAll(ReplaceAll(ReplaceAll(message, "\r\n", "<br>"), "\n", "<br>"), "\r", "<br>") + "</p>"
  }

  /** The attachments and the download failures of one group. */
  datatype Collected = Collected(attachments: seq<Attachment>, failed: seq<Failure>)

  /**
   * The download loop over a group's invoices. `download` stands for
   * `download_pdf_from_blob`: the bytes, or the text of the exception.
   */
  function Collect(invs: seq<UploadedInvoice>, partner: string, download: UploadedInvoice -> Result<seq<bv8>, string>): Collected {
    if invs == [] then Collected([], [])
    else
      var c := Collect(invs[..|invs| - 1], partner, download);
      var inv := invs[|invs| - 1];
      match download(inv)
      case Err(e) => c.(failed := c.failed + [Failure(partner, DownloadFailed + inv.filename + " (" + e + ")")])
      case Ok(bytes) => c.(attachments := c.attachments + [Attachment(inv.filename, "application/pdf", bytes)])
  }

  datatype Outcome = Outcome(sent: seq<Delivery>, failed: seq<Failure>)

  function MailOf(g: SendGroup, subject: string, message: string, atts: seq<Attachment>): Mail {
    Mail(Addresses(g.toEmails), Addresses(g.ccEmails), subject, Html(message), message, atts)
  }

  /**
   * What sending one group adds to `sent` and `failed`. `deliver` stands
   * for the `try` block that sends the mail, deletes the blobs and the
   * rows and commits: `None`, or the text of the exception raised.
   */
  function GroupOutcome(g: SendGroup, subject: string, message: string,
                        download: UploadedInvoice -> Result<seq<bv8>, string>,
                        deliver: (SendGroup, Mail) -> Option<string>): Outcome {
    var c := Collect(g.invoices, g.partner.name, download);
    if c.attachments == [] then Outcome([], c.failed + [Failure(g.partner.name, NothingToSend)])
    else match deliver(g, MailOf(g, subject, message, c.attachments))
      case None => Outcome([Delivery(g.partner.name, Addresses(g.toEmails), AttachmentNames(c.attachments))], c.failed)
      case Some(e) => Outcome([], c.failed + [Failure(g.partner.name, MailFailed + e)])
  }

  function Outcomes(gs: seq<SendGroup>, subject: string, message: string,
                    download: UploadedInvoice -> Result<seq<bv8>, string>,
                    deliver: (SendGroup, Mail) -> Option<string>): Outcome {
    if gs == [] then Outcome([], [])
    else
      var t := Outcomes(gs[..|gs| - 1], subject, message, download, deliver);
      var o := GroupOutcome(gs[|gs| - 1], subject, message, download, deliver);
      Outcome(t.sent + o.sent, t.failed + o.failed)
  }

  /** `str(n)`. */
  function NatString(n: nat): (r: string)
    ensures |r| > 0 && AllDigits(r)
  {
    var d := ['0' + (n % 10) as char];
    if n < 10 then d else NatString(n / 10) + d
  }

  function SendResultOf(gs: seq<SendGroup>, subject: string, message: string,
                        download: UploadedInvoice -> Result<seq<bv8>, string>,
                        deliver: (SendGroup, Mail) -> Option<string>): SendResult {
    var t := Outcomes(gs, subject, message, download, deliver);
    SendResult(|t.failed| == 0, t.sent, t.failed,
               NatString(|t.sent|) + " email elküldve, " + NatString(|t.failed|) + " hibás.")
  }

  /** The downloads of one group, appending failures to `failed`. */
  method CollectAttachments(invs: seq<UploadedInvoice>, partner: string, download: UploadedInvoice -> Result<seq<bv8>, string>,
                            failed0: seq<Failure>) returns (attachments: seq<Attachment>, failed: seq<Failure>)
    ensures attachments == Collect(invs, partner, download).attachments
    ensures failed == failed0 + Collect(invs, partner, download).failed
  {
    attachments, failed := [], failed0;
    for m := 0 to |invs|
      invariant attachments == Collect(invs[..m], partner, download).attachments
      invariant failed == failed0 + Collect(invs[..m], partner, download).failed
    {
      assert invs[..m + 1][..m] == invs[..m];
      var inv := invs[m];
      var pdf := download(inv);
      if pdf.Err? {
        failed := failed + [Failure(partner, DownloadFailed + inv.filename + " (" + pdf.error + ")")];
        continue;
      }
      attachments := attachments + [Attachment(inv.filename, "application/pdf", pdf.value)];
    }
    assert invs[..|invs|] == invs;
  }

  /** `send_complete_invoices` after the query. */
  method SendInvoices(invs: seq<UploadedInvoice>, subject: string, message: string,
                      download: UploadedInvoice -> Result<seq<bv8>, string>,
                      deliver: (SendGroup, Mail) -> Option<string>) returns (r: SendResult)
    ensures r == SendResultOf(SendGroupsOf(invs), subject, message, download, deliver)
  {
    var groups := GroupForSending(invs);
    var sent: seq<Delivery> := [];
    var failed: seq<Failure> := [];
    for k := 0 to |groups|
      invariant Outcome(sent, failed) == Outcomes(groups[..k], subject, message, download, deliver)
    {
      assert groups[..k + 1][..k] == groups[..k];
      sent, failed := SendGroupMail(groups[k], subject, message, download, deliver, sent, failed);
    }
    assert groups[..|groups|] == groups;
    r := SendResult(|failed| == 0, sent, failed, NatString(|sent|) + " email elküldve, " + NatString(|failed|) + " hibás.");
  }

  /** One turn of the group loop: the downloads, then the mail, or the reason none was sent. */
  method SendGroupMail(g: SendGroup, subject: string, message: string,
                       download: UploadedInvoice -> Result<seq<bv8>, string>,
                       deliver: (SendGroup, Mail) -> Option<string>,
                       sent0: seq<Delivery>, failed0: seq<Failure>) returns (sent: seq<Delivery>, failed: seq<Failure>)
    ensures sent == sent0 + GroupOutcome(g, subject, message, download, deliver).sent
    ensures failed == failed0 + GroupOutcome(g, subject, message, download, deliver).failed
  {
    var toAddresses := Addresses(g.toEmails);
    var ccAddresses := Addresses(g.ccEmails);
    var name := g.partner.name;
    ghost var c := Collect(g.invoices, name, download);
    var attachments;
    attachments, failed := CollectAttachments(g.invoices, name, download, failed0);
    sent := sent0;
    if attachments == [] {
      failed := failed + [Failure(name, NothingToSend)];
      assert failed == failed0 + (c.failed + [Failure(name, NothingToSend)]);
      return;
    }
    var html := Html(message);
    var e := deliver(g, Mail(toAddresses, ccAddresses, subject, html, message, attachments));
    if e.None? {
      sent := sent + [Delivery(name, toAddresses, AttachmentNames(attachments))];
    } else {
      failed := failed + [Failure(name, MailFailed + e.value)];
      assert failed == failed0 + (c.failed + [Failure(name, MailFailed + e.value)]);
    }
  }

  // ------------------------------------------------------------- lemmas

  /** The body holds no carriage return and no line feed. */
  lemma HtmlHasNoLineBreaks(message: string)
    ensures '\r' !in Html(message) && '\n' !in Html(message)
  {
    var s1 := ReplaceAll(message, "\r\n", "<br>");
    var s2 := ReplaceAll(s1, "\n", "<br>");
    var s3 := ReplaceAll(s2, "\r", "<br>");
    ReplaceAllRemoves(s1, '\n', "<br>");
    ReplaceAllRemoves(s2, '\r', "<br>");
    ReplaceAllKeepsOut(s2, "\r", "<br>", '\n');
    assert Html(message) == "<p>" + s3 + "</p>";
  }

  /** A message without line breaks is put in the paragraph as it is. */
  lemma HtmlKeepsPlainText(message: string)
    requires '\r' !in message && '\n' !in message
    ensures Html(message) == "<p>" + message + "</p>"
  {
    ReplaceAllAbsent(message, "\r\n", "<br>");
    ReplaceAllAbsent(message, "\n", "<br>");
    ReplaceAllAbsent(message, "\r", "<br>");
  }

  /** A group's downloads give one attachment or one failure per invoice, the attachments in invoice order. */
  lemma {:induction false} CollectSplits(invs: seq<UploadedInvoice>, partner: string,
                                         download: UploadedInvoice -> Result<seq<bv8>, string>)
    ensures var c := Collect(invs, partner, download);
            |c.attachments| + |c.failed| == |invs|
    ensures Collect(invs, partner, download).failed == [] <==> forall i :: 0 <= i < |invs| ==> download(invs[i]).Ok?
    ensures Collect(invs, partner, download).attachments == [] <==> forall i :: 0 <= i < |invs| ==> download(invs[i]).Err?
  {
    if invs != [] {
      var front := invs[..|invs| - 1];
      CollectSplits(front, partner, download);
      assert forall i :: 0 <= i < |front| ==> front[i] == invs[i];
    }
  }

  /** The attachments are named after the invoices whose PDF downloaded, in order. */
  lemma {:induction false} CollectNames(invs: seq<UploadedInvoice>, partner: string,
                                        download: UploadedInvoice -> Result<seq<bv8>, string>)
    ensures AttachmentNames(Collect(invs, partner, download).attachments) == DownloadedNames(invs, download)
  {
    if invs != [] {
      CollectNames(invs[..|invs| - 1], partner, download);
    }
  }

  /** The file names of the invoices `download` returns bytes for. */
  function DownloadedNames(invs: seq<UploadedInvoice>, download: UploadedInvoice -> Result<seq<bv8>, string>): seq<string> {
    if invs == [] then []
    else
      var inv := invs[|invs| - 1];
      DownloadedNames(invs[..|invs| - 1], download) + (if download(inv).Ok? then [inv.filename] else [])
  }

  /**
   * A group none of whose PDFs downloads gets no e-mail: its outcome does
   * not depend on `deliver`, nothing is sent, and its last failure is
   * "Nincs letölthető számla.".
   */
  lemma NoAttachmentNoMail(g: SendGroup, subject: string, message: string,
                           download: UploadedInvoice -> Result<seq<bv8>, string>,
                           deliver1: (SendGroup, Mail) -> Option<string>, deliver2: (SendGroup, Mail) -> Option<string>)
    requires forall i :: 0 <= i < |g.invoices| ==> download(g.invoices[i]).Err?
    ensures GroupOutcome(g, subject, message, download, deliver1) == GroupOutcome(g, subject, message, download, deliver2)
    ensures var o := GroupOutcome(g, subject, message, download, deliver1);
            o.sent == [] && o.failed != [] && o.failed[|o.failed| - 1] == Failure(g.partner.name, NothingToSend)
  {
    CollectSplits(g.invoices, g.partner.name, download);
  }

  /**
   * A group is sent when at least one of its PDFs downloads and delivery
   * succeeds; the entry lists the partner's "to" addresses and the files
   * that downloaded.
   */
  lemma GroupSent(g: SendGroup, subject: string, message: string,
                  download: UploadedInvoice -> Result<seq<bv8>, string>, deliver: (SendGroup, Mail) -> Option<string>)
    ensures var c := Collect(g.invoices, g.partner.name, download);
            var o := GroupOutcome(g, subject, message, download, deliver);
            o.sent != [] <==> c.attachments != [] && deliver(g, MailOf(g, subject, message, c.attachments)).None?
    ensures var o := GroupOutcome(g, subject, message, download, deliver);
            o.sent != [] ==> o.sent == [Delivery(g.partner.name, Addresses(g.toEmails), DownloadedNames(g.invoices, download))]
  {
    CollectNames(g.invoices, g.partner.name, download);
  }

  /** A group adds no failure exactly when every PDF downloads, there is one, and delivery succeeds. */
  lemma GroupClean(g: SendGroup, subject: string, message: string,
                   download: UploadedInvoice -> Result<seq<bv8>, string>, deliver: (SendGroup, Mail) -> Option<string>)
    ensures var c := Collect(g.invoices, g.partner.name, download);
            GroupOutcome(g, subject, message, download, deliver).failed == [] <==>
              && g.invoices != []
              && (forall i :: 0 <= i < |g.invoices| ==> download(g.invoices[i]).Ok?)
              && deliver(g, MailOf(g, subject, message, c.attachments)).None?
  {
    CollectSplits(g.invoices, g.partner.name, download);
  }

  predicate Clean(g: SendGroup, subject: string, message: string,
                  download: UploadedInvoice -> Result<seq<bv8>, string>, deliver: (SendGroup, Mail) -> Option<string>) {
    GroupOutcome(g, subject, message, download, deliver).failed == []
  }

  /** The result is a success exactly when no group records a failure. */
  lemma {:induction false} SendSucceeds(gs: seq<SendGroup>, subject: string, message: string,
                                        download: UploadedInvoice -> Result<seq<bv8>, string>,
                                        deliver: (SendGroup, Mail) -> Option<string>)
    ensures SendResultOf(gs, subject, message, download, deliver).success <==>
              forall k :: 0 <= k < |gs| ==> Clean(gs[k], subject, message, download, deliver)
  {
    OutcomesClean(gs, subject, message, download, deliver);
  }

  lemma {:induction false} OutcomesClean(gs: seq<SendGroup>, subject: string, message: string,
                                         download: UploadedInvoice -> Result<seq<bv8>, string>,
                                         deliver: (SendGroup, Mail) -> Option<string>)
    ensures Outcomes(gs, subject, message, download, deliver).failed == [] <==>
              forall k :: 0 <= k < |gs| ==> Clean(gs[k], subject, message, download, deliver)
  {
    if gs != [] {
      var front := gs[..|gs| - 1];
      OutcomesClean(front, subject, message, download, deliver);
      assert forall k :: 0 <= k < |front| ==> front[k] == gs[k];
    }
  }

  /** At most one e-mail goes out per partner. */
  lemma {:induction false} OneMailPerGroup(gs: seq<SendGroup>, subject: string, message: string,
                                           download: UploadedInvoice -> Result<seq<bv8>, string>,
                                           deliver: (SendGroup, Mail) -> Option<string>)
    ensures |Outcomes(gs, subject, message, download, deliver).sent| <= |gs|
  {
    if gs != [] {
      OneMailPerGroup(gs[..|gs| - 1], subject, message, download, deliver);
    }
  }

  /** `str(n)` reads back as `n`. */
  lemma {:induction false} NatStringValue(n: nat)
    ensures DigitsValue(NatString(n)) == n
  {
    var d := ['0' + (n % 10) as char];
    if n >= 10 {
      NatStringValue(n / 10);
      var s := NatString(n / 10) + d;
      assert s[..|s| - 1] == NatString(n / 10);
    }
  }
}
