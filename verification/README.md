# Temple management: reports, exports and screen transitions, in Dafny

This project models the computational core of the Sentraya Perumal temple
management web application. The application is an Angular front end over a
document store that holds villages, devotees, tax/donation/petty-cash masters,
and tax, donation, interest and payment entries.

The model covers:

- **Records** (`models.dfy`): the stored documents as datatypes. Status
  (Active/Inactive) and tax type (Full/Half) are enumerations. `WithId<T>`
  pairs a record with its store identifier.
- **Reducers** (`aggregate.dfy`, `totals.dfy`): filter, map and sum over
  snapshots, and the totals every screen derives from them.
- **Overall report** (`ledger.dfy`, `lexorder.dfy`):
  - The ledger maps tax, donation and payment entries to
    `{date, type, name, amount}` rows. Payments are forced to `-|amount|`.
  - The ledger is sorted newest first by a stable sort over a lexicographic
    date order.
  - The net balance is computed separately from the three totals.
- **Tax report** (`taxreport.dfy`):
  - The Active-devotee name set, and the year and Active filter.
  - The paid and pending sub-totals.
  - The year drop-down: "All Years", then each year present, newest first.
- **Dashboard** (`dashboard.dfy`): the six cards, and how the tax card relates
  to the tax report.
- **Donation and payment reports** (`reports.dfy`): their unfiltered totals,
  and the column lists each report hands to the exporter.
- **Export service** (`export.dfy`, `text.dfy`):
  - Cell normalisation and the rows × columns projection shared by the
    spreadsheet, the PDF and the printed page.
  - HTML escaping, proved equal to a per-character mapping and inverted by a
    decoder.
- **Screen transitions**:
  - The status toggle and the save/reset pattern of the master screens
    (`masters.dfy`, `forms.dfy`).
  - The tax-entry form's cascading village/devotee selection and its reset
    (`taxentry.dfy`).
  - The language service's dictionaries, fallback chain and persisted choice
    (`language.dfy`).

Everything is an immutable datatype plus pure functions. Inputs arrive as
parameters rather than through subscriptions:

- store snapshots;
- the outcome of the store's `add` (`Stored` or `Failed`);
- the current time and date;
- the value read from local storage.

## Model

| member | source | states |
|---|---|---|
| Models.Toggle | src/app/pages/devotees/devotees.component.ts:96 | the next status always differs from the current one: Active becomes Inactive and Inactive becomes Active |
| Models.ToggleInvolution | src/app/pages/devotees/devotees.component.ts:96 | toggling twice gives back the original status |
| Totals.PaidTaxTotal | src/app/pages/overall-report/overall-report.component.ts:38 | the tax total is the sum of amounts over the paid entries only |
| Totals.PendingEntryAddsNothing | src/app/pages/dashboard/dashboard.component.ts:43 | an unpaid entry, wherever it sits in the snapshot, adds nothing to the paid tax total |
| Totals.PaidEntryAddsAmount | src/app/pages/dashboard/dashboard.component.ts:43 | a paid entry raises the paid tax total by exactly its amount |
| Totals.InterestIgnoresPrincipal | src/app/pages/dashboard/dashboard.component.ts:53 | two interest snapshots with the same interest amounts have the same total, whatever their principal amounts |
| Totals.ArrivalOrderIrrelevant | src/app/pages/dashboard/dashboard.component.ts:41-60 | reordering a snapshot changes none of the paid tax, donation, interest and payment totals |
| Aggregate.SumPermutation | src/app/pages/dashboard/dashboard.component.ts:48 | sums are invariant under any permutation of the snapshot |
| Aggregate.FilterIsSubsequence | src/app/pages/tax-report/tax-report.component.ts:66-70 | a filter keeps an order-preserving subsequence of its input |
| Aggregate.SumSplit | src/app/pages/tax-report/tax-report.component.ts:71-72 | the sums over a predicate and over its complement add up to the full sum |
| Aggregate.FilteredTotalAtMost | src/app/pages/tax-report/tax-report.component.ts:66-71 | with non-negative amounts, a total over a filtered snapshot never exceeds the total over the whole snapshot |
| LexOrder.LexReflexive | src/app/pages/overall-report/overall-report.component.ts:71 | the date order puts every date at or before itself |
| LexOrder.LexTotal | src/app/pages/overall-report/overall-report.component.ts:71 | any two dates are comparable |
| LexOrder.LexAntisymmetric | src/app/pages/overall-report/overall-report.component.ts:71 | two dates each at or before the other are equal |
| LexOrder.LexTransitive | src/app/pages/overall-report/overall-report.component.ts:71 | the date order is transitive |
| Ledger.Abs | src/app/pages/overall-report/overall-report.component.ts:70 | the magnitude is non-negative and equals the value or its negation |
| Ledger.PaymentRow | src/app/pages/overall-report/overall-report.component.ts:70 | a payment row's amount is never positive and has the stored amount's magnitude |
| Ledger.PaymentSignIgnored | src/app/pages/overall-report/overall-report.component.ts:70 | flipping the sign of a stored payment does not change its ledger row |
| Ledger.Insert | src/app/pages/overall-report/overall-report.component.ts:71 | inserting a row adds exactly that row to the multiset of rows |
| Ledger.SortNewestFirst | src/app/pages/overall-report/overall-report.component.ts:71 | sorting keeps the length and the multiset of rows |
| Ledger.InsertKeepsOrder | src/app/pages/overall-report/overall-report.component.ts:71 | inserting into a newest-first list keeps it newest first |
| Ledger.SortIsNewestFirst | src/app/pages/overall-report/overall-report.component.ts:71 | the sorted ledger has every date at or after each later date |
| Ledger.InsertOnDate | src/app/pages/overall-report/overall-report.component.ts:71 | an insertion places the row ahead of all rows of its own date, leaving their order |
| Ledger.SortKeepsTies | src/app/pages/overall-report/overall-report.component.ts:71 | the sort is stable: for every date, the rows of that date keep their merged order |
| Ledger.StableSortMembers | src/app/pages/overall-report/overall-report.component.ts:71 | two lists with the same rows per date hold the same rows |
| Ledger.StableSortHeadDates | src/app/pages/overall-report/overall-report.component.ts:71 | two stable newest-first sorts of the same rows start with rows of the same date |
| Ledger.StableSortHeads | src/app/pages/overall-report/overall-report.component.ts:71 | two stable newest-first sorts of the same rows start with the same row |
| Ledger.StableSortTails | src/app/pages/overall-report/overall-report.component.ts:71 | after their common first row, two stable sorts remain stable sorts of the same rows |
| Ledger.StableSortUnique | src/app/pages/overall-report/overall-report.component.ts:71 | there is exactly one stable newest-first arrangement of a list of rows |
| Ledger.BuildTransactions | src/app/pages/overall-report/overall-report.component.ts:67-72 | the ledger length is the sum of the three snapshot lengths, and the ledger is a permutation of the tax, donation and payment rows concatenated |
| Ledger.MergedRowFromEntries | src/app/pages/overall-report/overall-report.component.ts:68-71 | every row of the concatenation comes from an entry of its own kind, as the next row describes |
| Ledger.LedgerOrder | src/app/pages/overall-report/overall-report.component.ts:67-72 | the ledger is that unique stable newest-first order of tax rows, then donation rows, then payment rows |
| Ledger.LedgerRows | src/app/pages/overall-report/overall-report.component.ts:68-70 | every tax row (paid or not) and every donation row carries an entry's date, devotee name and stored amount; every payment row is non-positive, with a payment's date, payee and negated magnitude |
| Ledger.MergedTotal | src/app/pages/overall-report/overall-report.component.ts:68-71 | the merged rows total all tax amounts plus all donations minus all payment magnitudes |
| Ledger.LedgerTotal | src/app/pages/overall-report/overall-report.component.ts:67-72 | sorting leaves that total unchanged |
| Ledger.NetVersusLedger | src/app/pages/overall-report/overall-report.component.ts:63-72 | the ledger total differs from the net by the pending tax plus the gap between stored payment amounts and their magnitudes; with every entry paid and no negative payment the two are equal |
| Ledger.NothingPending | src/app/pages/overall-report/overall-report.component.ts:38 | when every entry is paid, the pending tax sum is zero |
| Ledger.NonNegativeMagnitudes | src/app/pages/overall-report/overall-report.component.ts:70 | for non-negative stored payments, the magnitudes sum to the stored amounts |
| Ledger.InitialOverall | src/app/pages/overall-report/overall-report.component.ts:16-30 | the report starts consistent: zero totals and an empty ledger |
| Ledger.OnTaxEntries | src/app/pages/overall-report/overall-report.component.ts:36-41 | the tax feed keeps its snapshot and the other totals, and preserves consistency: paid-only tax total, net from the three totals, ledger rebuilt |
| Ledger.OnDonationEntries | src/app/pages/overall-report/overall-report.component.ts:45-50 | the donation feed keeps its snapshot and the other totals, and preserves consistency |
| Ledger.OnPaymentEntries | src/app/pages/overall-report/overall-report.component.ts:54-59 | the payment feed keeps its snapshot and the other totals, and preserves consistency; the payment total uses stored amounts |
| Ledger.TaxRedeliveryIdempotent | src/app/pages/overall-report/overall-report.component.ts:36-41 | delivering the same tax snapshot twice gives the same report as delivering it once |
| Ledger.DonationRedeliveryIdempotent | src/app/pages/overall-report/overall-report.component.ts:45-50 | the same for the donation snapshot |
| Ledger.PaymentRedeliveryIdempotent | src/app/pages/overall-report/overall-report.component.ts:54-59 | the same for the payment snapshot |
| Ledger.TaxFeedForgetsEarlierState | src/app/pages/overall-report/overall-report.component.ts:36-72 | two earlier states that agree on the donation and payment snapshots and their totals give the same report after the same tax snapshot: the earlier tax snapshot, tax total, net and ledger leave no trace |
| Ledger.DonationFeedForgetsEarlierState | src/app/pages/overall-report/overall-report.component.ts:45-72 | the same for the donation feed: only the tax and payment snapshots and totals of the earlier state matter |
| Ledger.PaymentFeedForgetsEarlierState | src/app/pages/overall-report/overall-report.component.ts:54-72 | the same for the payment feed: only the tax and donation snapshots and totals of the earlier state matter |
| TaxReport.ActiveNames | src/app/pages/tax-report/tax-report.component.ts:38 | a name is in the set exactly when some Active devotee has it as taxperson name |
| TaxReport.VisibleEntries | src/app/pages/tax-report/tax-report.component.ts:66-70 | the visible rows are exactly the entries whose devotee name is Active and whose year matches the selection (any year when none is selected) |
| TaxReport.VisibleKeepsOrder | src/app/pages/tax-report/tax-report.component.ts:66-70 | the visible rows keep the order of the snapshot |
| TaxReport.VisibleRowsResolve | src/app/pages/tax-report/tax-report.component.ts:37-70 | every visible row names an Active devotee; a row of the selected year is hidden exactly when every devotee of its name is Inactive |
| TaxReport.InsertYear | src/app/pages/tax-report/tax-report.component.ts:47-48 | adding a year to a strictly descending list keeps it strictly descending; its members are the old ones plus that year |
| TaxReport.DistinctYears | src/app/pages/tax-report/tax-report.component.ts:47-48 | the years are strictly descending and are exactly the years of the entries |
| TaxReport.DescendingUnique | src/app/pages/tax-report/tax-report.component.ts:47-48 | two strictly descending lists with the same members are equal, so any deduplicate-then-sort gives the same list |
| TaxReport.YearOptions | src/app/pages/tax-report/tax-report.component.ts:45-50 | "All Years" comes first; the other options have distinct, strictly descending years, each captioned with its decimal text, and list exactly the years in the entries |
| TaxReport.YearsListed | src/app/pages/tax-report/tax-report.component.ts:47-49 | the options after the sentinel list exactly the given years |
| TaxReport.InitialTaxReport | src/app/pages/tax-report/tax-report.component.ts:19-25 | the initial screen is consistent |
| TaxReport.Recompute | src/app/pages/tax-report/tax-report.component.ts:65-73 | paid and pending totals are the sums over the visible paid and unpaid rows, they add up to the visible total, and the inputs are left alone |
| TaxReport.OnDevotees | src/app/pages/tax-report/tax-report.component.ts:37-40 | the devotee feed replaces the Active set and preserves consistency |
| TaxReport.OnTaxEntries | src/app/pages/tax-report/tax-report.component.ts:43-52 | the tax feed keeps the snapshot, rebuilds the year options and leaves the screen consistent |
| TaxReport.OnYearChange | src/app/pages/tax-report/tax-report.component.ts:56-59 | only the selected year changes among the inputs; every visible row matches that year and an Active name |
| TaxReport.EmptyView | src/app/pages/tax-report/tax-report.component.ts:65-73 | no entries or no Active names give an empty view with both totals 0 |
| Text.NatToString | src/app/pages/tax-report/tax-report.component.ts:49 | the decimal text of a number is a non-empty run of digits |
| Text.IntToStringRoundTrip | src/app/pages/tax-report/tax-report.component.ts:49 | reading back the decimal text gives the number |
| Text.IntToStringInjective | src/app/pages/tax-report/tax-report.component.ts:49 | distinct years get distinct captions |
| Dashboard.InitialDashboard | src/app/pages/dashboard/dashboard.component.ts:16-21 | every card starts at 0 |
| Dashboard.OnDevotees | src/app/pages/dashboard/dashboard.component.ts:36 | the devotee count is the snapshot length; no other card changes |
| Dashboard.OnVillages | src/app/pages/dashboard/dashboard.component.ts:39 | the village count is the snapshot length; no other card changes |
| Dashboard.OnTaxEntries | src/app/pages/dashboard/dashboard.component.ts:42-44 | the tax card is the sum over paid entries, with no devotee-status filter; no other card changes |
| Dashboard.OnDonationEntries | src/app/pages/dashboard/dashboard.component.ts:47-49 | the donation card sums every donation; no other card changes |
| Dashboard.OnInterestEntries | src/app/pages/dashboard/dashboard.component.ts:52-54 | the interest card sums interest amounts only; no other card changes |
| Dashboard.OnPaymentEntries | src/app/pages/dashboard/dashboard.component.ts:57-59 | the expense card sums stored payment amounts as they are; no other card changes |
| Dashboard.FeedOrderIrrelevant | src/app/pages/dashboard/dashboard.component.ts:34-61 | once all six feeds have delivered, the cards depend only on the snapshots, not on the delivery order or the earlier state |
| Dashboard.EmptySnapshotsShowZero | src/app/pages/dashboard/dashboard.component.ts:16-21 | empty snapshots leave every card at 0 |
| Dashboard.ReportPaidWithinDashboard | src/app/pages/tax-report/tax-report.component.ts:71 | with non-negative amounts, the tax report's paid total never exceeds the dashboard tax card over the same snapshot |
| Dashboard.ReportPaidEqualsDashboard | src/app/pages/tax-report/tax-report.component.ts:66-71 | with no year selected and every entry's devotee Active, the report's paid total equals the dashboard tax card |
| Dashboard.DeactivationHidesFromReport | src/app/pages/devotees/devotees.component.ts:95-98 | deactivating the only Active devotee of a name hides every tax entry of that name from the tax report, whatever year is selected, while the dashboard tax card, which never reads devotees, still counts every paid entry |
| Reports.InitialReport | src/app/pages/donation-report/donation-report.component.ts:16-17 | a report starts with no rows and a zero total |
| Reports.OnDonationEntries | src/app/pages/donation-report/donation-report.component.ts:28-31 | the rows shown are the snapshot, in order; the total sums every donation; an empty snapshot gives 0 |
| Reports.OnPaymentEntries | src/app/pages/payment-report/payment-report.component.ts:28-31 | the rows shown are the snapshot, in order; the total sums stored amounts without magnitudes; an empty snapshot gives 0 |
| Reports.DonationFiguresAgree | src/app/pages/donation-report/donation-report.component.ts:30 | over one snapshot, the donation report, the dashboard donation card and a consistent overall report show the same total |
| Reports.PaymentFiguresAgree | src/app/pages/payment-report/payment-report.component.ts:30 | over one snapshot, the payment report, the dashboard expense card and a consistent overall report show the same total |
| Reports.PdfRowsAreRecordCells | src/app/core/export.service.ts:37 | every PDF body row is the row of cells of the matching record |
| Reports.DonationCells | src/app/pages/donation-report/donation-report.component.ts:18-24 | a donation exports as devotee, donation type, amount, date and notes |
| Reports.PaymentCells | src/app/pages/payment-report/payment-report.component.ts:18-24 | a payment exports as payee, category, stored amount, date and notes |
| Reports.TaxEntryCells | src/app/pages/tax-report/tax-report.component.ts:26-32 | a tax entry exports as devotee, village, year, amount and a boolean paid cell |
| Reports.TransactionCells | src/app/pages/overall-report/overall-report.component.ts:22-27 | a ledger row exports as date, type label, name and signed amount |
| Reports.DonationPdf | src/app/pages/donation-report/donation-report.component.ts:34-36 | the donation PDF has one five-cell row per shown entry, holding that entry's fields |
| Reports.PaymentPdf | src/app/pages/payment-report/payment-report.component.ts:34-36 | the payment PDF has one five-cell row per shown entry, with the amount as stored |
| Reports.TaxReportPdf | src/app/pages/tax-report/tax-report.component.ts:61-63 | the tax report PDF has one row per visible entry, holding that entry's fields |
| Reports.OverallPdf | src/app/pages/overall-report/overall-report.component.ts:74-76 | the overall PDF has one row per ledger row, holding that row's fields |
| Reports.ReportHeadersDistinct | src/app/pages/overall-report/overall-report.component.ts:22-27 | the headers of each report are distinct, so no spreadsheet column overwrites another |
| Reports.ReportHeadersAreKeys | src/app/pages/overall-report/overall-report.component.ts:22-27 | no report has a `__proto__` or array-index header, so every header becomes a spreadsheet key and the keys keep column order |
| Export.AsValue | src/app/core/export.service.ts:84 | a cell turned back into a value is primitive |
| Export.CellValue | src/app/core/export.service.ts:82-86 | undefined and null give the empty string; booleans, numbers and strings pass unchanged; any other value gives its serialised text |
| Export.MissingFieldIsEmpty | src/app/core/export.service.ts:83 | a key the record lacks exports as an empty cell |
| Export.Head | src/app/core/export.service.ts:36 | the header row lists the column headers in order |
| Export.RowCells | src/app/core/export.service.ts:37 | cell j of a row is the normalised value of the record's field for column j |
| Export.Body | src/app/core/export.service.ts:37 | the body has one row per record and one cell per column, and cell (i, j) is record i's field for column j |
| Export.ExportPdf | src/app/core/export.service.ts:30-43 | the PDF carries the title, a single header row of the column headers, and that body |
| Export.ExcelRecordKeys | src/app/core/export.service.ts:16-21 | a spreadsheet record has exactly the column headers as keys, except `__proto__`, whose assignment the inherited accessor swallows |
| Export.IndexKeysFacts | src/app/core/export.service.ts:16-21 | the record lists its array-index headers (such as "2024") first, each once, in ascending numeric order |
| Export.NamedKeysFacts | src/app/core/export.service.ts:16-21 | after them come exactly the other headers except `__proto__`, each once |
| Export.ExcelKeyOrderKeys | src/app/core/export.service.ts:16-21 | the listed key order holds exactly the record's keys, each once, array indices first and ascending |
| Export.ExcelKeyOrderIsHead | src/app/core/export.service.ts:16-24 | with distinct headers, none `__proto__` or an array index, the record lists its keys in column order, the same header row as the PDF |
| Export.RepeatedHeaderKeepsFirstSlot | src/app/core/export.service.ts:18-20 | a repeated header keeps the key slot of its first column but the cell of its last |
| Export.IndexHeaderListedFirst | src/app/core/export.service.ts:18-20 | a year used as a header is listed ahead of a named header assigned before it |
| Export.ExcelRecordCell | src/app/core/export.service.ts:18-20 | under each header other than `__proto__` sits the cell of the last column carrying that header |
| Export.ExcelRows | src/app/core/export.service.ts:16-22 | the spreadsheet has one record per input row |
| Export.ExcelAgreesWithPdf | src/app/core/export.service.ts:15-43 | with distinct headers, spreadsheet record i maps header j to PDF cell (i, j), for every header but `__proto__` |
| Export.ReplaceAppend | src/app/core/export.service.ts:89-94 | replacing a character in a concatenation replaces it in each part |
| Export.ReplaceSingle | src/app/core/export.service.ts:89-94 | replacing in a one-character string gives the replacement or the character |
| Export.EscapeOneChar | src/app/core/export.service.ts:88-95 | the five passes map one character to its entity, or leave it |
| Export.EscapeAmpersand | src/app/core/export.service.ts:90 | `&` becomes `&amp;` and later passes leave that alone |
| Export.EscapeMarkupChar | src/app/core/export.service.ts:91-94 | each of `<`, `>`, `"` and `'` becomes its own entity |
| Export.EscapeOrdinaryChar | src/app/core/export.service.ts:89-94 | any other character is left unchanged |
| Export.ReplaceAbsent | src/app/core/export.service.ts:89-94 | replacing a character that does not occur changes nothing |
| Export.EscapeAppend | src/app/core/export.service.ts:88-95 | escaping distributes over concatenation |
| Export.EscapeHtmlIsPerChar | src/app/core/export.service.ts:88-95 | because `&` is replaced first, the chained replacements equal escaping each character on its own |
| Export.EscapeEachHasNoMarkup | src/app/core/export.service.ts:91-94 | a per-character escape contains no raw `<`, `>`, `"` or `'` |
| Export.EscapeHtmlHasNoMarkup | src/app/core/export.service.ts:88-95 | escaped text contains no raw `<`, `>`, `"` or `'` |
| Export.EscapePlainText | src/app/core/export.service.ts:89-94 | text with none of the five special characters is left unchanged |
| Export.PlainEachUnchanged | src/app/core/export.service.ts:89-94 | the per-character escape is the identity on such text |
| Export.TagEscaped | src/app/core/export.service.ts:91-92 | a tag around a plain word prints as `&lt;word&gt;` |
| Export.UnescapeStep | src/app/core/export.service.ts:88-95 | decoding an escaped character followed by any text gives the character, then the decoding of that text |
| Export.UnescapeEscapeEach | src/app/core/export.service.ts:88-95 | decoding undoes the per-character escape |
| Export.UnescapeEscape | src/app/core/export.service.ts:88-95 | decoding undoes escaping, so escaping loses nothing |
| Export.PrintTable | src/app/core/export.service.ts:45-71 | the page title and the heading are both the escaped title, equal to the per-character escape, which decodes to the title and holds no raw markup character; the head is the headers' `<th>` cells; the body prints the escaped cells of the shared projection |
| Export.PrintBodyUsesProjection | src/app/core/export.service.ts:47-49 | the printed body renders exactly the PDF body cells |
| Export.HeaderNotEscaped | src/app/core/export.service.ts:46 | a header goes into its `<th>` unescaped |
| Export.HeadHtmlAppend | src/app/core/export.service.ts:46 | the head of two column lists joined is the two heads joined |
| Export.HeadersVerbatim | src/app/core/export.service.ts:46 | for any column list, header j appears verbatim between `<th>` tags, after the heads of the earlier columns and before those of the later ones |
| Export.TagFieldPrintsEscaped | src/app/core/export.service.ts:48 | a field holding a tag such as `<script>` prints with both brackets as entities and the word unchanged |
| Export.SingleCellBody | src/app/core/export.service.ts:47-49 | a one-row, one-column table prints one row holding the escaped text of its cell |
| Language.TamilCoversEnglish | src/app/core/language.service.ts:9-126 | every key of the English table is in the Tamil table |
| Language.EnglishCoversTamil | src/app/core/language.service.ts:9-126 | every key of the Tamil table is in the English table |
| Language.Translate | src/app/core/language.service.ts:146-149 | the current language's text if defined; else, for a name every object inherits from `Object.prototype`, that inherited member; else the English text if defined; else the key itself |
| Language.NoKeyIsInherited | src/app/core/language.service.ts:9-126 | neither dictionary defines a name inherited from `Object.prototype`, so none hides one |
| Language.TranslateNeverFallsBack | src/app/core/language.service.ts:146-149 | a known key is always shown in the current language; an inherited name yields its inherited member, not text; any other key is shown as itself |
| Language.ReadStoredLanguage | src/app/core/language.service.ts:151-154 | Tamil exactly when the stored value is "ta"; English for any other value or none |
| Language.NewLanguageService | src/app/core/language.service.ts:130 | construction starts in Tamil exactly when the stored value is "ta", and does not write the slot |
| Language.SetLanguage | src/app/core/language.service.ts:141-144 | after the switch the current language is the chosen one and its code is stored |
| Language.ChoicePersists | src/app/core/language.service.ts:130-154 | a new service over the stored slot starts in the language last chosen |
| Forms.SaveForm | src/app/pages/devotees/devotees.component.ts:58-93 | a save that runs to completion: an invalid form writes nothing and only sets the required-fields error; a valid form adds one record, and then either resets to the defaults, closes and reports success, or keeps the form and reports the failure; saving is never left in progress |
| Masters.ToggleStatus | src/app/pages/devotees/devotees.component.ts:95-98 | the update targets the item's own id and flips its status both ways |
| Masters.ApplyUpdate | src/app/pages/devotees/devotees.component.ts:97 | a partial update changes only the documents with its id, through the status writer, and keeps length and ids |
| Masters.ToggleTwiceRestores | src/app/pages/devotees/devotees.component.ts:95-98 | toggling a document twice restores the snapshot, for any status field that reads back what was written and keeps the rest of the record |
| Masters.PutDevoteeStatus | src/app/pages/devotees/devotees.component.ts:97 | writing a devotee's status sets it and changes no other field |
| Masters.PutTaxMasterStatus | src/app/pages/tax-master/tax-master.component.ts:79 | writing a tax master's status sets it and changes no other field |
| Masters.PutDonationMasterStatus | src/app/pages/donation-master/donation-master.component.ts:74 | writing a donation type's status sets it and changes no other field |
| Masters.PutPettyCashMasterStatus | src/app/pages/pettycash-master/pettycash-master.component.ts:74 | writing an issue type's status sets it and changes no other field |
| Masters.ToggleDevoteeOnlyStatus | src/app/pages/devotees/devotees.component.ts:95-98 | toggling a devotee changes its status, no other field of it, and no other document |
| Masters.DevoteeToggleTwice | src/app/pages/devotees/devotees.component.ts:96 | toggling a devotee twice restores the snapshot |
| Masters.TaxMasterToggleTwice | src/app/pages/tax-master/tax-master.component.ts:77-80 | toggling a tax master twice restores the snapshot |
| Masters.DonationMasterToggleTwice | src/app/pages/donation-master/donation-master.component.ts:72-75 | toggling a donation type twice restores the snapshot |
| Masters.PettyCashMasterToggleTwice | src/app/pages/pettycash-master/pettycash-master.component.ts:72-75 | toggling an issue type twice restores the snapshot |
| Masters.DevoteeFormDefaults | src/app/pages/devotees/devotees.component.ts:41-49 | the empty devotee form has tax type Full and status Active and is not valid |
| Masters.SaveDevotee | src/app/pages/devotees/devotees.component.ts:58-93 | a devotee is added exactly when the form is valid and the store accepts it, as the form's fields plus the creation time; then the form resets and closes, otherwise it is kept |
| Masters.DevoteeNoDoubleAdd | src/app/pages/devotees/devotees.component.ts:75-83 | after a stored devotee, a save started after that one completed adds nothing |
| Masters.TaxMasterFormDefaults | src/app/pages/tax-master/tax-master.component.ts:37-42 | the empty tax form has amount 0, type Full, interest 0 and status Active, and is not valid |
| Masters.SaveTaxMaster | src/app/pages/tax-master/tax-master.component.ts:50-75 | a tax configuration is added exactly when its amount is at least 1 and the store accepts it; then the form resets to its defaults and closes, otherwise it is kept |
| Masters.TaxMasterNoDoubleAdd | src/app/pages/tax-master/tax-master.component.ts:66 | after a stored configuration, a save started after that one completed adds nothing |
| Masters.DonationMasterFormDefaults | src/app/pages/donation-master/donation-master.component.ts:35-39 | the empty donation-type form has empty type and description and status Active, and is not valid |
| Masters.SaveDonationMaster | src/app/pages/donation-master/donation-master.component.ts:47-70 | a donation type is added exactly when it is non-empty and the store accepts it; then the form resets and closes, otherwise it is kept |
| Masters.DonationMasterNoDoubleAdd | src/app/pages/donation-master/donation-master.component.ts:61 | after a stored donation type, a save started after that one completed adds nothing |
| Masters.PettyCashMasterFormDefaults | src/app/pages/pettycash-master/pettycash-master.component.ts:35-39 | the empty issue-type form has empty type and description and status Active, and is not valid |
| Masters.SavePettyCashMaster | src/app/pages/pettycash-master/pettycash-master.component.ts:47-70 | an issue type is added exactly when it is non-empty and the store accepts it; then the form resets and closes, otherwise it is kept |
| Masters.PettyCashMasterNoDoubleAdd | src/app/pages/pettycash-master/pettycash-master.component.ts:61 | after a stored issue type, a save started after that one completed adds nothing |
| TaxEntryForm.NewEntryForm | src/app/pages/tax-entry/tax-entry.component.ts:44-52 | the new form holds the current year, today's date, amount 0, unpaid and tax type Full, and is not valid |
| TaxEntryForm.OnVillageChange | src/app/pages/tax-entry/tax-entry.component.ts:62-65 | the narrowed list holds exactly the devotees of the chosen village; the devotee choice is cleared, the tax type set to Full, and other fields kept |
| TaxEntryForm.VillageListKeepsOrder | src/app/pages/tax-entry/tax-entry.component.ts:63 | the narrowed list keeps the order of the devotee snapshot |
| TaxEntryForm.FindByName | src/app/pages/tax-entry/tax-entry.component.ts:68 | the first devotee with that name, and none exactly when no devotee has it |
| TaxEntryForm.OnDevoteeChange | src/app/pages/tax-entry/tax-entry.component.ts:67-72 | a match in the narrowed list copies its village and tax type into the form; no match leaves the screen unchanged |
| TaxEntryForm.VillageThenDevotee | src/app/pages/tax-entry/tax-entry.component.ts:62-72 | choosing a village then one of its devotees leaves that village in the form, with the tax type of a devotee of that name there |
| TaxEntryForm.DevoteeOfOtherVillageIgnored | src/app/pages/tax-entry/tax-entry.component.ts:68-69 | a devotee of that name living elsewhere is not found, so the form stays as the village change left it |
| TaxEntryForm.SaveEntry | src/app/pages/tax-entry/tax-entry.component.ts:74-95 | an entry is added exactly when the form is valid and the store accepts it; an invalid form only sets the error; a stored entry clears village, devotee, amount and paid, resets the tax type, keeps year and date and empties the narrowed list; a refused add keeps the form |
| TaxEntryForm.EntryNoDoubleAdd | src/app/pages/tax-entry/tax-entry.component.ts:86-87 | after a stored entry, a save started after that one completed adds nothing |

## Left out

- Store I/O and subscriptions: each feed is a snapshot parameter, and each handler is a pure function of the latest snapshot.
- The store's `add` and `update` calls: the outcome of `add` is a parameter; `update` is modelled as a partial write applied to a snapshot (`Masters.ApplyUpdate`).
- The spreadsheet, PDF and print libraries, `window.open` and the file names: the model stops at the projected header and body and at the interpolated page strings.
- Export.ExcelKeyOrder: the spreadsheet library takes its header row from the record's key order, which is modelled; that it writes no header row at all for an export with no rows is library behaviour outside this model, while the PDF head keeps its header row.
- `JSON.stringify`: a composite value carries its serialised text. The shapes on which it fails are not values of the model: a BigInt or a cyclic value, where it throws, and a function or a symbol, where it returns `undefined` and the cell is not a string.
- Forms.SaveForm: a save is one atomic step. The screens have no guard against a second save issued while the store's `add` is still pending; such a save still sees the valid, un-reset form and adds a second record. The `*NoDoubleAdd` lemmas therefore speak only of a save started after the previous one completed.
- Language.Translate: an inherited member is returned by name (`Inherited`); what the template then shows for a function or for `Object.prototype` is presentation and is not modelled.
- `Intl.NumberFormat` currency display on the dashboard: presentation only.
- Floating-point amounts: amounts, years and percentages are unbounded integers, so double rounding is not modelled.
- Cleared number inputs: the tax-entry year and amount and the tax-master amount are integers, so the `null` a cleared number input produces, which `Validators.required` rejects, is not represented; the validity rules cover only the values the fields can hold.
- `localeCompare`: dates compare lexicographically, character by character, which is how ISO `YYYY-MM-DD` strings sort.
- Local storage: only the decoding rule and the stored slot are modelled.
- The `options` list of the language service: a fixed pair of labels with no logic.
- `markAllAsTouched`, `console.error` and the HTML templates: presentation and logging.
- `deleteItem` on the tax-entry screen: a single store call with no computation.
- The export column lists of the master screens, the tax-entry screen and the devotee list: they use the same exporter as the reports, whose column lists are modelled.
- The village master, donation, interest and payment entry screens, the login and routing, and the application shell: CRUD forms, authentication and navigation, with no computation beyond the shared save pattern.
- Whether the Tamil texts are faithful translations of the English ones: the two dictionaries are transcribed as lookup functions, and only their key sets are compared.

## Notes on the model

- The overall report's ledger sort is modelled as a stable sort. The sort the screen calls is stable, so rows of the same date keep their merged order: tax, then donations, then payments, each in feed order. `Ledger.LedgerOrder` and `Ledger.StableSortUnique` pin down that order. A reading that leaves the tie order open is weaker than what the code does.
- The printed page escapes the title and every body cell, but the column headers go into the page as given, for any column list (`Export.HeadersVerbatim`).
- The overall report's net uses only paid tax and stored payment amounts, while its ledger holds every tax entry and negated payment magnitudes. `Ledger.NetVersusLedger` states the exact difference.
