/** What the Multialarm and Volvo layouts share: the header fields every row carries, and plate cleaning. */
module Invoice {
  import opened PyStr

  /** The header fields merged into every row of one invoice. */
  datatype Header = Header(invoiceNumber: string, invoiceDate: string, paymentDue: string, performanceDate: string)

  /** `plate.replace(" ", "").replace("-", "")`. */
  function CleanPlate(plate: string): string {
    ReplaceChar(ReplaceChar(plate, ' ', ""), '-', "")
  }

  /** A cleaned plate holds neither spaces nor dashes. */
  lemma CleanPlateHasNoSeparators(plate: string)
    ensures ' ' !in CleanPlate(plate) && '-' !in CleanPlate(plate)
  {
    ReplaceCharRemoves(plate, ' ', "");
    ReplaceCharKeepsOut(ReplaceChar(plate, ' ', ""), '-', "", ' ');
    ReplaceCharRemoves(ReplaceChar(plate, ' ', ""), '-', "");
  }

  /** Cleaning keeps a plate that has no spaces or dashes as it is. */
  lemma CleanPlateKeepsClean(plate: string)
    requires ' ' !in plate && '-' !in plate
    ensures CleanPlate(plate) == plate
  {
    ReplaceCharAbsent(plate, ' ', "");
    ReplaceCharAbsent(plate, '-', "");
  }
}
