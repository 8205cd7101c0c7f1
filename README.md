# Invoice extraction and delivery, modelled in Dafny

This project models the invoice-handling core of a FastAPI back office. It covers four things:

- **Readers.** Three invoice layouts are read from their PDF text: Multialarm (line-based regexes over the joined page text), Volvo (header dates from page 1, items from the second table of every page) and Vodafone (the `Számlaösszesítő` summary block and the per-phone `Kiszámlázott díjak` service charges, the latter gathered across pages).
- **Exporters.** The readers' rows become spreadsheet sheets. Date columns are converted all-or-nothing. Amounts are cleaned from Hungarian notation (`1.234,56`). Volvo rows get a 27 % VAT column, rounded half to even. Vodafone rows are enriched from three lookup tables and summarised in a pivot sheet.
- **Lookup tables.** The phone-book map, the TESZOR-to-category map and the `(TESZOR, VAT rate)` ledger lookup are built from database rows.
- **Aerozone router.** The invoice listing groups complete invoices by partner. The upload checks every file and reports per-file errors. The send step groups complete invoices per partner, downloads the attachments, sends one mail per partner and reports what was sent and what failed.

The readers, the export loops and the router loops are methods with `while`/`for` loops. Each is proved equal to a specification function, and the properties below are proved as lemmas about those functions.

Modules:

- `Wrappers`: `Option`, `Result`, `Somes`, `AllPresent`.
- `PyStr`: the Python `str` operations used, such as `strip`, `split`, `rsplit`, `find`, `replace`, `upper` and `splitlines`.
- `Patterns`: each regular expression the readers use, as a deterministic matcher, with `re.search` and `re.findall` semantics.
- `Numbers`: `float()` of decimal literals, the Hungarian amount clean-up, and rounding half to even.
- `Invoice`, `Multialarm`, `Volvo`, `Vodafone`: the readers.
- `Workbook`: frames, cells and the date loop.
- `Export`: the Volvo and Multialarm exporters.
- `Mapping`: the lookup tables.
- `Pivot`: `pivot_table` with `aggfunc="sum"`.
- `VodafoneExport`: the Vodafone exporter.
- `Aerozone` and `AerozoneSend`: the router.

Where the code and its description disagree, the model follows the code:

- The Vodafone service-charge reader names its four trailing fields in the opposite order from the line. The exporter's column names reverse them again. The model is positional: it keeps the fields in the order the code appends them.
- The `Számlaszám` search runs for the page with index 1 only, so the invoice number is never taken from page 1.
- The pivot is keyed by `(phone, employee, cost centre, Axapta name, monogram, VAT rate, title, VAT code, ledger account)`. `pivot_table` drops every row whose key has an empty value, and the model does the same.

## Model

| member | source | states |
|---|---|---|
| Multialarm.JoinPages | services/invoice_processor.py:8-13 | the joined text is every non-empty page's text, each preceded by a newline, in page order |
| Multialarm.HeaderOf | services/invoice_processor.py:15-27 | the invoice number is all digits, and empty exactly when no `Számla száma:` label is followed by optional whitespace and a run of digits; the three dates never end in a dot |
| Multialarm.PeriodSplit | services/invoice_processor.py:54 | splitting a matched period on " - " gives exactly its two dotted runs |
| Multialarm.PeriodBounds | services/invoice_processor.py:54 | the stripped halves of a period are its two dotted runs, unchanged by `strip` |
| Multialarm.PairRows | services/invoice_processor.py:43-65 | the row loop yields, in index order, the row of every index below `min_len` whose charge line qualifies |
| Multialarm.ProcessMultialarm | services/invoice_processor.py:6-67 | `process_multialarm` returns exactly the rows of the specification `Extract` |
| Multialarm.RowsArePositional | services/invoice_processor.py:37-65 | there are at most `min_len` rows; a row is present exactly when some index pairs a qualifying charge line with its period and plate |
| Multialarm.RowsShareHeader | services/invoice_processor.py:56-57 | every row carries the header read from the whole text |
| Multialarm.ChargeOfQualifies | services/invoice_processor.py:47-50 | a charge line qualifies exactly when it has at least four forint amounts and a VAT percentage |
| Multialarm.ChargeOfAmounts | services/invoice_processor.py:51-53 | net is the value of the second amount and VAT amount the value of the third, with separators removed |
| Multialarm.ChargeOfPercentBelow100 | services/invoice_processor.py:48-52 | the VAT percentage has at most two digits, so it is below 100 |
| Multialarm.RowAtSpec | services/invoice_processor.py:50-64 | an index gives a row exactly when its charge line qualifies; the row holds the period halves, the cleaned plate and the amounts |
| Invoice.CleanPlateHasNoSeparators | services/invoice_processor.py:55 | a cleaned plate contains no space and no dash |
| Invoice.CleanPlateKeepsClean | services/invoice_processor.py:55 | cleaning leaves a plate without spaces or dashes unchanged |
| Volvo.InvoiceNumberOf | services/invoice_processor.py:78-81 | the number is "" when the first table has fewer than two rows; it fails exactly when that row is empty |
| Volvo.FirstDateLine | services/invoice_processor.py:85-89 | the first line holding three dd-mm-yyyy dates, or none when no line does |
| Volvo.ScanHeaderDates | services/invoice_processor.py:83-89 | the date loop yields the first three dates of the first line holding three, "" otherwise |
| Volvo.HeaderDatesIgnoreLaterLines | services/invoice_processor.py:89 | lines after the first line holding three dates never change the header dates |
| Volvo.PlateOf | services/invoice_processor.py:107-115 | the plate contains no space and no dash |
| Volvo.Flatten | services/invoice_processor.py:104 | the flattened row has no newline |
| Volvo.TableItems | services/invoice_processor.py:103-135 | the row loop yields, in order, the item of every qualifying row |
| Volvo.ProcessVolvo | services/invoice_processor.py:70-137 | `process_volvo` returns the specification `Extract`, including its failures |
| Volvo.PagesItems | services/invoice_processor.py:98-135 | the page loop yields the items of every page in page order, each page's from its second table |
| Volvo.ItemOfSpec | services/invoice_processor.py:119-135 | a row gives an item exactly when it has two dates, a plate and an amount; the item holds the first two dates, the last amount and the plate |
| Volvo.ItemShapes | services/invoice_processor.py:110-124 | every item's dates are dd-mm-yyyy, its plate is non-empty without separators, its net is an amount |
| Volvo.PageItemsNeedTwoTables | services/invoice_processor.py:100 | a page with fewer than two tables gives no item |
| Volvo.PageItemsFromSecondTable | services/invoice_processor.py:98-103 | an item of a page is exactly the item of some row of its second table |
| Volvo.ItemsShareHeader | services/invoice_processor.py:91-96 | every item of the document carries the same header |
| Volvo.ExtractFailures | services/invoice_processor.py:75-84 | the reader fails exactly on no pages, an empty second row of the first table, or a page 1 without text, in that order |
| Vodafone.SummaryRow | services/invoice_processor.py:158-167 | a kept summary line always gives nine fields |
| Vodafone.SummaryRows | services/invoice_processor.py:147-150 | without both markers the page gives no summary row |
| Vodafone.ProcessInvoicePage | services/invoice_processor.py:146-167 | the page loop yields exactly the specification's summary rows |
| Vodafone.SummaryRowNotNoisy | services/invoice_processor.py:152-156 | no kept line contains one of the four skipped words |
| Vodafone.SummaryRowKeptWithCode | services/invoice_processor.py:159-162 | a line with a TESZOR code is kept exactly when it has at least eight spaces |
| Vodafone.SummaryRowKeptWithoutCode | services/invoice_processor.py:163-167 | a line without a TESZOR code is kept exactly when it has at least seven spaces |
| Vodafone.SummaryRowRejoinsWithCode | services/invoice_processor.py:160-162 | the nine fields joined by spaces give back the line |
| Vodafone.SummaryRowRejoinsWithoutCode | services/invoice_processor.py:164-167 | field 4 is the inserted empty TESZOR; the other eight joined give back the line |
| Vodafone.SummaryRowsFromLines | services/invoice_processor.py:151-167 | a summary row is exactly the row of some kept line between the two markers |
| Vodafone.SummaryRowsHaveNineFields | services/invoice_processor.py:160-167 | every summary row has nine fields |
| Vodafone.PhoneFrom | services/invoice_processor.py:170-177 | the phone is "N/A" or a 36-prefixed eleven-digit number |
| Vodafone.ScanPhone | services/invoice_processor.py:170-177 | the phone loop yields the specification's phone |
| Vodafone.PhoneIsFirstMatch | services/invoice_processor.py:174-177 | the phone is the match on the first matching line when no earlier line names a tariff |
| Vodafone.PhoneStopsAtTariff | services/invoice_processor.py:172-173 | a tariff line before any match leaves "N/A" |
| Vodafone.PhoneWithoutMatch | services/invoice_processor.py:170-177 | without any matching line the phone is "N/A" |
| Vodafone.FirstStarting | services/invoice_processor.py:180-189 | the first line whose stripped text starts with the prefix, or none when no line does |
| Vodafone.ChargeRow | services/invoice_processor.py:194-221 | a kept line gives seven fields: the phone first, a TESZOR code third |
| Vodafone.ChargeRowsOf | services/invoice_processor.py:193-221 | the charge loop yields the row of every qualifying line, in order |
| Vodafone.ServiceCharges | services/invoice_processor.py:179-191 | without both markers the block gives no charge row |
| Vodafone.ProcessServiceCharges | services/invoice_processor.py:169-221 | the function yields exactly the specification's charge rows |
| Vodafone.DescriptionBeforeCode | services/invoice_processor.py:205-209 | when the code is in the text before the amounts, the description is the stripped text before its first occurrence |
| Vodafone.ChargeRowKept | services/invoice_processor.py:194-201 | a line gives a row exactly when it has a TESZOR code and at least four spaces |
| Vodafone.ChargeRowCode | services/invoice_processor.py:198-209 | field 2 is the first TESZOR match and field 1 the description of the text before the amounts |
| Vodafone.ChargeRowRejoins | services/invoice_processor.py:199-203 | the text before the amounts and the four amounts joined by spaces give back the line |
| Vodafone.ChargeRowAmountsHaveNoSpace | services/invoice_processor.py:199 | the four amount fields contain no space |
| Vodafone.ChargeLinesBetweenMarkers | services/invoice_processor.py:193 | the lines examined are exactly those strictly between the two markers |
| Vodafone.ServiceChargesFromBetween | services/invoice_processor.py:193-221 | a charge row is exactly the row of some line strictly between the two markers, carrying the section's phone |
| Vodafone.ServiceChargesHaveSevenFields | services/invoice_processor.py:211-221 | every charge row has seven fields |
| Vodafone.NumberIn | services/invoice_processor.py:236-240 | an invoice number found is non-empty and all digits |
| Vodafone.ScanNumber | services/invoice_processor.py:236-240 | the number loop yields the number of the first matching line |
| Vodafone.ProcessVodafone | services/invoice_processor.py:140-263 | the page loop returns exactly the specification `Extract` |
| Vodafone.ScanKeepsIdleEmpty | services/invoice_processor.py:225-254 | outside a service section the line accumulator is always empty |
| Vodafone.StepSkipsEmptyPage | services/invoice_processor.py:229-231 | a page without text changes nothing |
| Vodafone.StepAccumulates | services/invoice_processor.py:242-247 | a section page without the total line adds its lines to the accumulator |
| Vodafone.StepFlushes | services/invoice_processor.py:249-254 | a section page with the total line adds the accumulated block's charges and closes the section |
| Vodafone.StepOutsideSection | services/invoice_processor.py:242-254 | a page outside a section that opens none adds no charge |
| Vodafone.StepSummary | services/invoice_processor.py:256-257 | only pages headed SZÁMLA add summary rows |
| Vodafone.InvoiceNumberFromSecondPage | services/invoice_processor.py:235-240 | the invoice number comes only from the page with index 1 |
| Vodafone.ScanKeepsSummaryWidth | services/invoice_processor.py:146-257 | after every page, every summary row has nine fields |
| Vodafone.ScanKeepsChargeWidth | services/invoice_processor.py:169-254 | after every page, every charge row has seven fields |
| Vodafone.ExtractRowWidths | services/invoice_processor.py:259-263 | the result's summary rows have nine fields and its charge rows seven |
| Workbook.ToDatetime | utils/excel_export.py:18 | the column converts exactly when every value parses, each into its parsed timestamp |
| Workbook.ConvertDateColumns | utils/excel_export.py:10-20 | the date loop gives the frame of the specification's date loop |
| Workbook.TryDatesAllOrNothing | utils/excel_export.py:17-20 | a column converts completely, or the frame stays exactly as it was |
| Workbook.DatesKeepOthers | utils/excel_export.py:10-20 | a column the loop does not name comes through unchanged |
| Numbers.AmountCleansToDecimal | utils/excel_export.py:22-27 | removing the grouping separator and turning the comma into a point gives a decimal literal |
| Numbers.FloatOfAmount | utils/excel_export.py:22-27 | `float` of a cleaned amount is its exact value |
| Numbers.RoundHalfEven | utils/excel_export.py:28 | the integer nearest the value, the even one at a tie |
| Export.VolvoFrame | utils/excel_export.py:9 | the frame's columns are the record fields in row order |
| Export.ExportVolvo | utils/excel_export.py:6-33 | the exporter gives the specification's sheet |
| Export.VolvoSheetEmpty | utils/excel_export.py:7-8 | there is no sheet exactly when there is no item |
| Export.VolvoSheetColumns | utils/excel_export.py:9-28 | the sheet's columns are the item fields followed by `vat` |
| Export.VolvoNetsConvert | utils/excel_export.py:22-27 | every net read by the reader converts, to its exact amount |
| Export.VolvoAmountColumns | utils/excel_export.py:22-28 | `net` holds each item's amount and `vat` the rounded 27 % of it |
| Export.VolvoVatValue | utils/excel_export.py:28 | each VAT cell is the net times 0.27, rounded half to even |
| Export.VolvoExtractExports | utils/excel_export.py:22-27 | the items read from any document export without a conversion error |
| Export.ExportMultialarm | utils/excel_export.py:36-57 | the exporter gives the specification's sheet |
| Export.MultialarmSheetEmpty | utils/excel_export.py:37-38 | there is no sheet exactly when there is no row |
| Export.MultialarmKeepsValues | utils/excel_export.py:40-54 | the columns are the row fields, and a column the loop does not name is written unchanged |
| Mapping.PhoneUserMap | utils/mapping_helpers.py:11 | the map exists exactly when every phone-book row has an employee |
| Mapping.PhoneUserMapKeys | utils/mapping_helpers.py:11 | its keys are exactly the rows' phone numbers |
| Mapping.PhoneUserMapLastWins | utils/mapping_helpers.py:11 | each number maps to the employee of its last row |
| Mapping.ReadOf | utils/mapping_helpers.py:26-34 | each flattened field is present exactly when its relation is |
| Mapping.FlattenMappings | utils/mapping_helpers.py:23-35 | the loop flattens every mapping row, in order |
| Mapping.CategoryMapKeys | utils/mapping_helpers.py:37-41 | the keys are exactly the codes of rows with a code and a title |
| Mapping.CategoryMapLastWins | utils/mapping_helpers.py:37-41 | a code maps to the title of its last qualifying row |
| Mapping.MappingLookupKeys | utils/mapping_helpers.py:42-50 | the keys are exactly the (code, rate) pairs of rows with a code, a VAT code and a title |
| Mapping.MappingLookupLastWins | utils/mapping_helpers.py:42-50 | a key maps to the entry of its last qualifying row |
| Mapping.LookupCodesAreCategorised | utils/mapping_helpers.py:37-50 | every code in the lookup also has a category |
| Mapping.LookupEntriesAreFilled | utils/mapping_helpers.py:42-50 | every lookup entry has a non-empty title and VAT code |
| VodafoneExport.ConvertSummary | utils/excel_export.py:102-114 | the conversion loop gives the specification's converted summary, an error included |
| VodafoneExport.CurrencyConverts | utils/excel_export.py:102-114 | the conversion succeeds exactly when all four amount columns convert; otherwise it raises the float error |
| VodafoneExport.CurrencyColumnConverted | utils/excel_export.py:108-114 | each converted column holds the converted values under its own name |
| VodafoneExport.CurrencyColumnKept | utils/excel_export.py:87-114 | the five text columns are kept as they were |
| VodafoneExport.ConversionValue | utils/excel_export.py:108-114 | each converted amount is `float` of the cleaned text |
| VodafoneExport.SummaryAmount | utils/excel_export.py:102-114 | a converted amount cell holds `float` of the row's cleaned field |
| VodafoneExport.SummaryText | utils/excel_export.py:87-100 | a text cell holds the row's field unchanged |
| VodafoneExport.CleanFloat | utils/excel_export.py:76-81 | a value converts exactly when its cleaned text is a decimal literal |
| VodafoneExport.CleanFloatOfAmount | utils/excel_export.py:76-81 | a dotted amount cleans to its exact value |
| VodafoneExport.EmployeeDefaults | utils/excel_export.py:131-142 | an unknown phone gets "N/A" in all four employee columns; a known one gets the employee's name |
| VodafoneExport.LedgerDefaults | utils/excel_export.py:63-74 | an unknown (TESZOR, rate) gets "Ismeretlen" in all three columns; a known one gets its title |
| VodafoneExport.ChargeCells | utils/excel_export.py:119-152 | each enriched charge row has fifteen cells |
| VodafoneExport.ServiceChargesCell | utils/excel_export.py:119-154 | the ServiceCharges sheet has fifteen named columns, each cell the one computed from its row |
| VodafoneExport.RelabelOnlyCentral | utils/excel_export.py:157-163 | only rows of the central employee change; their Axapta name becomes "N/A"; no other column changes |
| VodafoneExport.RelabelPhone | utils/excel_export.py:157-162 | a central row's phone becomes "Központi" exactly when it was empty, "" or "N/A" |
| VodafoneExport.PivotSummarises | utils/excel_export.py:165-182 | the pivot is sorted by key, and a key's group exists exactly when some row has it, carrying that key's totals |
| VodafoneExport.ChargeSheets | utils/excel_export.py:154-183 | the charge rows give the ServiceCharges sheet and then the Pivot sheet |
| VodafoneExport.SummarySheets | utils/excel_export.py:86-116 | summary rows give one InvoiceSummary sheet, none without rows |
| VodafoneExport.ExportVodafone | utils/excel_export.py:60-186 | the exporter gives the specification's workbook; a summary amount that does not convert ends the `with` block without a sheet, so it fails with the no-sheet error |
| VodafoneExport.WorkbookSheets | utils/excel_export.py:85-186 | the workbook's sheets are InvoiceSummary, ServiceCharges and Pivot, each present exactly when its rows are |
| VodafoneExport.WorkbookFailures | utils/excel_export.py:85-186 | the export fails only with the no-sheet error, and fails exactly when both lists are empty or a summary amount does not convert |
| Pivot.PivotSorted | utils/excel_export.py:166-182 | the pivot's groups are in ascending key order |
| Pivot.PivotGroups | utils/excel_export.py:166-182 | a key has a group exactly when some row has it; the group's sums are that key's net and VAT totals |
| Pivot.PivotRows | utils/excel_export.py:166-182 | every pivot group's key occurs in some row, and the group holds that key's net and VAT totals |
| Aerozone.EmailsOfType | routers/aerozone.py:60 | the filtered addresses are exactly the partner's addresses of that type |
| Aerozone.CompleteMeansToAddress | routers/aerozone.py:55-62 | an invoice is complete exactly when it has a partner with a "to" address |
| Aerozone.ListInvoices | routers/aerozone.py:50-109 | the listing loop gives the specification's listing |
| Aerozone.ListingIncomplete | routers/aerozone.py:78-103 | `incomplete` holds exactly the invoices that are not complete, in order, with their partner data |
| Aerozone.ListingGroupKeys | routers/aerozone.py:62-66 | there is one group per partner, and a partner has one exactly when it has a complete invoice |
| Aerozone.ListingGroups | routers/aerozone.py:63-77 | a group holds exactly its partner's complete invoices, in order, with the partner data of the first |
| Aerozone.ListingOrder | routers/aerozone.py:105 | groups are in the order of each partner's first complete invoice |
| Aerozone.ListingCountsEveryInvoice | routers/aerozone.py:52-103 | every invoice is listed exactly once |
| Aerozone.UploadInvoices | routers/aerozone.py:118-176 | the upload loop gives the specification's response |
| Aerozone.FileErrors | routers/aerozone.py:120-161 | each file gets the error the check or the save of that file, at its position, gives it |
| Aerozone.UploadSucceeds | routers/aerozone.py:163-176 | the upload succeeds exactly when every file is a PDF and saves, and then reports no error |
| Aerozone.UploadNoneSaved | routers/aerozone.py:163-168 | the "none saved" message appears exactly when there are files and every one fails |
| Aerozone.UploadErrorsOfFiles | routers/aerozone.py:124-161 | the errors are exactly the per-file errors; a non-PDF file gets the PDF-only error, and a failed save its message |
| AerozoneSend.GroupForSending | routers/aerozone.py:191-209 | the grouping loop gives the specification's groups |
| AerozoneSend.SendGroupsAreListed | routers/aerozone.py:191-209 | the send groups equal the listing's complete groups: same partners, same invoices, same order |
| AerozoneSend.SendGroupsOnlyComplete | routers/aerozone.py:195-202 | every invoice sent is complete and belongs to its group's partner |
| AerozoneSend.SendGroupAddresses | routers/aerozone.py:199-208 | a group's partner is that of its first invoice; its to and cc lists are the partner's addresses of those types |
| AerozoneSend.Addresses | routers/aerozone.py:215-216 | the address list is the emails' addresses, in order |
| AerozoneSend.HtmlHasNoLineBreaks | routers/aerozone.py:248 | the HTML body contains no carriage return and no newline |
| AerozoneSend.HtmlKeepsPlainText | routers/aerozone.py:248 | a message without line breaks is only wrapped in a paragraph |
| AerozoneSend.CollectAttachments | routers/aerozone.py:220-239 | the download loop gives the specification's attachments and appends its failures |
| AerozoneSend.CollectSplits | routers/aerozone.py:220-239 | each invoice gives one attachment or one failure; none fail exactly when all download |
| AerozoneSend.CollectNames | routers/aerozone.py:233-239 | the attachments are named after the downloaded invoices, in order |
| AerozoneSend.NoAttachmentNoMail | routers/aerozone.py:240-244 | a group with nothing downloaded sends no mail and ends with the nothing-to-send failure |
| AerozoneSend.GroupSent | routers/aerozone.py:246-275 | a group is sent exactly when something downloaded and the mail goes out; it lists the addresses and the downloaded names |
| AerozoneSend.GroupClean | routers/aerozone.py:211-280 | a group records no failure exactly when it has invoices, all download, and the mail goes out |
| AerozoneSend.SendInvoices | routers/aerozone.py:186-286 | the send endpoint gives the specification's result |
| AerozoneSend.SendGroupMail | routers/aerozone.py:214-280 | one turn of the group loop appends exactly that group's deliveries and failures |
| AerozoneSend.SendSucceeds | routers/aerozone.py:282 | the result is a success exactly when no group records a failure |
| AerozoneSend.OneMailPerGroup | routers/aerozone.py:211-275 | at most one delivery per partner group |
| AerozoneSend.NatString | routers/aerozone.py:285 | the count is written as a non-empty digit string |
| AerozoneSend.NatStringValue | routers/aerozone.py:285 | the digit string reads back as the count |

## Left out

- PDF text and table extraction (`pdfplumber`): pages are inputs. A page is its text, "" or `None` when there is none, plus, for Volvo, its tables as cell texts. A `None` table cell, on which `" ".join` raises, is not modelled.
- Regular expressions: each expression is a hand-written matcher for that one expression. `\d` is an ASCII digit and `\s` is Python's whitespace set. `\b` and `\w` use ASCII letters, digits, `_` and the Latin letters Hungarian needs, not every Unicode word character.
- `float()` is modelled only on plain decimal literals (`-?digits[.digits]`, surrounding whitespace allowed). Exponents, `inf`, `nan` and underscores are treated as failures, though Python accepts them.
- Floating point: amounts are exact rational values. Binary rounding and the inexactness of `* 0.27` are not modelled.
- `pd.to_datetime`'s format parsing is the parameter `parse`. The model captures only that a column converts completely or is kept.
- Workbook bytes: `to_excel`, `openpyxl` and `BytesIO` are modelled as the list of sheets written. Column dtypes and cell formatting are not modelled.
- VodafoneExport.ExportVodafone: when a summary amount does not convert, the result is the no-sheet error only; the `ValueError` that Python keeps as that error's context is not part of it.
- VodafoneExport.PivotSummarises: a kept charge line can carry an amount field that is not a number (`a`, say), which `_clean_float` turns into `None`. When every cell of `NetAmount` or of `VATAmount` is empty that way, what `pivot_table` does with the all-empty value column is not modelled: the model sums the missing cells as 0 in every group.
- `VodafoneExport.ExportVodafone`: requires nine-field summary rows and seven-field charge rows, where pandas would raise. `Vodafone.ExtractRowWidths` proves the reader never produces anything else.
- `PyStr.Upper`: Python's special upper-casing cases (such as `ß` to `SS`) are not modelled; only one-to-one letters are. `lower()` in the PDF check covers ASCII letters only.
- Database access, blob storage, the mail service and PDF tax-id extraction are function parameters:
  - the upload's save step is `save`, given the file's position and the file with its bytes, which returns the exception message or nothing;
  - the blob download is `download`;
  - `send_email_with_attachment`, together with the blob and row deletion and the commit, is `deliver`.
  Rollback, transactions and `session.refresh` are not modelled.
- Base64 encoding of attachments: an attachment keeps its bytes.
- The upload's success response has no `errors` key. The model returns an empty list there.
- `print` calls, `async`/`await`, authentication dependencies and HTTP routing are not modelled.
- The `delete_invoices` endpoint and the rest of the repository are not part of this model.
