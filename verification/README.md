# Inventory report: a verified model in Dafny

A shipment header and a list of inventory line items become two report payloads: a PDF
table (handed to jsPDF and jspdf-autotable) and an Excel sheet (handed to SheetJS). The
model covers the deterministic logic that decides what those payloads contain:

- `TotalsCalculator` (totals.dfy) models `calculateTotals`. It is a left-to-right
  reduction with `Number(x) || 0` coercion. It is proved equal to independent sums,
  independent of item order, and incremental when an item is appended.
- `LayoutPlanner` (layout.dfy) models the layout planner of `generatePDF`: the choice
  between the shrink and expand regimes, with font size, cell padding and minimum row
  height. It also models the signature/new-page decision. The planner is a function of
  `(itemCount, pageHeight)` with an imperative twin that mirrors the source's `let`
  reassignments.
- `PdfReport` (pdf_report.dfy) models the description builder, including
  `String.prototype.trim`. It also covers the 11-cell item rows, the totals footer, the
  bold last row chosen by the `didParseCell` hook, the info block and the whole PDF
  payload.
- `ExcelReport` (excel_report.dfy) models the 11 preamble rows, the 13-cell item rows,
  the totals row, the three title merges, the column widths and the workbook payload.
- `Utils` (utils.dfy) models `getFilenameDate`. JavaScript's `Date` parsing is
  abstracted to an optional (day, month index, full year) triple. The module also
  covers decimal rendering, `padStart(2, '0')` and `slice(-2)`.
- `ReportService` (report_service.dfy) models `generateReports`: one totals
  computation and one base filename shared by both payloads. It proves what the
  filename carries, that each footer carries the sums of the values carried by the
  cells above it, and that
  the two reports agree item by item, on totals and on header values.
- `App` (app.dfy) models the form state of `App` as a class `FormStore` whose handlers
  reassign `header` and `items`. The class invariant is that the list is never empty
  and ids stay unique. Generation is guarded by a non-empty buyer name.

Numbers are exact `real`s. `Num = Valid(r) | Invalid` is what `Number(x)` yields, and
`Coerce` is `|| 0`. Cells are `Text`, `Number`, `FixedText(x, d)` (for `x.toFixed(d)`)
or `NumberText(x)` (for `x.toString()`). The digit strings of `toFixed` and `toString`
are left uninterpreted.

## Model

| member | source | states |
|---|---|---|
| TotalsCalculator.Reduce | services/reportService.ts:9-16 | reducing from an accumulator adds to it the sums of the coerced invoice quantities, received quantities and line totals |
| TotalsCalculator.Accumulate | services/reportService.ts:10-14 | a field that does not parse adds nothing; a parsed quantity adds its value; the value total grows by quantity times price only when both parse |
| TotalsCalculator.CalculateTotals | services/reportService.ts:8-17 | no items give all zeros; otherwise each total is the sum over the items of the coerced field (invalid counts 0), and the value total is the sum of coerced invoice quantity times coerced unit price |
| TotalsCalculator.SumPermutation | services/reportService.ts:9-16 | a sum over the items is the same for any reordering (equal multisets) |
| TotalsCalculator.CalculateTotalsOrderIndependent | services/reportService.ts:8-17 | the totals do not depend on the order of the items |
| TotalsCalculator.CalculateTotalsSnoc | services/reportService.ts:8-17 | appending an item adds exactly its coerced contribution to each total |
| TotalsCalculator.SingleItemScenario | services/reportService.ts:8-17 | one item with invoice quantity 100, price 2.5 and received 90 gives totals 100, 90 and 250 |
| Utils.NatToString | utils.ts:16-18 | the decimal rendering of a natural is non-empty, all digits, ends in the units digit, has one character exactly for numbers below 10, and starts with '0' only for 0 (no leading zeros) |
| Utils.DecimalRoundTrip | utils.ts:16-18 | reading back the rendered digits gives the number |
| Utils.IntRoundTrip | services/reportService.ts:21-23 | the rendering of any integer reads back as that integer and starts with a minus sign exactly for negative integers |
| Utils.PadStart2 | utils.ts:16-17 | `padStart(2, '0')`: length at least 2, the string itself at the end, only zeros before it |
| Utils.SliceLast2 | utils.ts:18 | `slice(-2)`: the last two characters, or the whole of a shorter string |
| Utils.FilenameDate | utils.ts:10-24 | a date that does not parse, or whose parse throws, gives exactly "00.00.00" |
| Utils.PaddedTwoDigits | utils.ts:16-17 | a day or month below 100, padded, is exactly its two decimal digits |
| Utils.FilenameDateShape | utils.ts:16-20 | a parsed date gives the two-digit day, the two-digit one-based month and the year field, joined by dots |
| Utils.FilenameDateFields | utils.ts:16-20 | dots sit at indices 2 and 5; the day field reads back as the day and the month field as month index + 1, between 1 and 12 |
| Utils.LastTwoDigits | utils.ts:18 | the last two characters of a number of at least two digits are the digits of the number modulo 100 |
| Utils.FilenameDateYear | utils.ts:18-20 | for a year of at least 10 the result has 8 characters and its year field reads back as the year modulo 100 |
| Utils.FilenameDateExample | utils.ts:11 | 1 January 2025 gives "01.01.25" |
| LayoutPlanner.Layout | services/reportService.ts:55-80 | the rows exactly fill the allotted height; expand mode has font 10, padding 2 and rows of at least 8; shrink mode has rows below 8, a whole font size that is the floor of 1.5 times the row height, or 5 when that floor is below 5 (that is, `max(5, floor(1.5 * rowHeight))`), and a padding of font/5 (at least 1) |
| LayoutPlanner.PlanLayout | services/reportService.ts:57-80 | the reassigning planner computes the same plan as `Layout` |
| LayoutPlanner.ShrinkFontNonIncreasing | services/reportService.ts:67-73 | once shrink mode is reached, more items stay in shrink mode and never enlarge the font |
| LayoutPlanner.A4Regimes | services/reportService.ts:39-53 | on A4 landscape the allotted table height is 65.5 mm and expand mode holds exactly for at most six items |
| LayoutPlanner.A4FontAtMostExpand | services/reportService.ts:67-80 | on A4 landscape no item count gives a font larger than 10 |
| LayoutPlanner.PlaceSignature | services/reportService.ts:220-230 | the signature always sits at the block position; a new page is added exactly when the table ends below the block position minus 10, and otherwise the table ends at least 10 above the signature |
| PdfReport.TrimEmptyIffBlank | services/reportService.ts:145-146 | `trim()` is empty exactly when the string is all ECMAScript white space or line terminators |
| PdfReport.Trim | services/reportService.ts:145-146 | `trim()` is never longer than its input, and neither starts nor ends with trimmed space |
| PdfReport.TrimKeepsInnerPart | services/reportService.ts:145-146 | what `trim()` keeps is a stretch of the input with only trimmed space before and after it |
| PdfReport.DescriptionDetails | services/reportService.ts:144-146 | exactly one part per non-blank field (so none exactly when color and HS code are both blank); "Color: " and the color first when the color is not blank; "H.S Code: " and the code last when the code is not blank |
| PdfReport.Description | services/reportService.ts:143-150 | the cell begins with the item description and differs from it exactly when there are details |
| PdfReport.DescriptionUnchanged | services/reportService.ts:143-150 | with blank color and HS code the description is the item description unchanged |
| PdfReport.DescriptionColorOnly | services/reportService.ts:143-150 | with only a color, a second line "Color: " plus the untrimmed color |
| PdfReport.DescriptionHsCodeOnly | services/reportService.ts:143-150 | with only an HS code, a second line "H.S Code: " plus the untrimmed code |
| PdfReport.DescriptionBoth | services/reportService.ts:143-150 | with both, color first and HS code second, joined by ", " on the second line |
| PdfReport.PdfItemRow | services/reportService.ts:135-164 | an item row has 11 cells, each the item's value for the column at that position |
| PdfReport.TableColumnsAreTitles | services/reportService.ts:121-133 | the head row has one title per column, each the title of the column at that position |
| PdfReport.PdfFooterRow | services/reportService.ts:167-174 | the footer has 11 cells: "Total:" at 4, "YDS" at 5, the three totals under their own columns (6, 7, 9), blanks elsewhere |
| PdfReport.PdfItemRows | services/reportService.ts:135-165 | one row per item, in input order |
| PdfReport.BodyFontStyles | services/reportService.ts:208-213 | among the body rows exactly the last one is bold |
| PdfReport.FontStyleAt | services/reportService.ts:192-213 | a head cell is always bold; a body cell is bold exactly when its row is the last body row |
| PdfReport.InfoBlock | services/reportService.ts:96-118 | seven caption/value lines, the value of each being its header field, with the value right of the caption and each line between the block top and the table start |
| PdfReport.GeneratePdf | services/reportService.ts:29-245 | the payload is the info block, the plan for the item count, the head, the item rows in order followed by the footer, the styles and the signature decision, and the name with ".pdf"; every body row is as wide as the head, and only the footer is bold |
| ExcelReport.SheetPreamble | services/reportService.ts:250-265 | eleven preamble rows: three one-cell title rows, blank rows 3 and 9, and the column header row naming the thirteen columns |
| ExcelReport.SheetPreambleShape | services/reportService.ts:255-259 | each header value stands at its own cell of the preamble |
| ExcelReport.SheetItemRow | services/reportService.ts:274-288 | an item row has 13 cells, each the item's value for the column at that position |
| ExcelReport.SheetTotalsRow | services/reportService.ts:291-298 | the totals row has 13 cells: "Total:" at 0, the totals at 8, 9 and 11, blanks elsewhere |
| ExcelReport.BuildSheetRows | services/reportService.ts:250-298 | `wsData` has `items + 12` rows: the preamble, one row per item in input order, then the totals row |
| ExcelReport.GenerateExcel | services/reportService.ts:247-314 | the workbook is the sheet named "Inventory Report" with those rows, exactly three merges covering rows 0-2 across columns 0-12, thirteen column widths, and the name with ".xlsx" |
| ReportService.JsRound | services/reportService.ts:21 | `Math.round`: the integer within half of the value, halves going up |
| ReportService.BaseFilename | services/reportService.ts:23 | the filename starts with "Bill of Buyer " and the buyer name, ends with " DATE-" and the date field, and is exactly as long as those plus " $" and the rendered rounded total, so with `FilenameCarriesRoundedTotal` nothing else stands between the amount and " DATE-" |
| ReportService.FilenameCarriesRoundedTotal | services/reportService.ts:21-23 | for any total, after "Bill of Buyer ", the buyer name and " $" stands the rendering of the rounded total, which reads back as that integer; it starts with a minus sign exactly when the total is below -0.5 |
| ReportService.FilenameEndsWithDate | services/reportService.ts:22-23 | the filename ends in " DATE-" and the date field; for an unparseable billing date it ends in " DATE-00.00.00" |
| ReportService.AmountExample | services/reportService.ts:21-23 | a total value of 1234.5 gives the amount "1235" |
| ReportService.GenerateReports | services/reportService.ts:19-27 | both payloads are built from the same header, items, totals and base filename |
| ReportService.PdfRowNumbers | services/reportService.ts:137-140 | a PDF item row shows the coerced invoice quantity, received quantity and line total at 6, 7 and 9 |
| ReportService.SheetRowNumbers | services/reportService.ts:269-272 | a sheet item row shows the coerced invoice quantity, received quantity and line total at 8, 9 and 11 |
| ReportService.PdfFooterSumsColumns | services/reportService.ts:135-175 | each footer total carries the sum of the unformatted values the item cells above it carry (before `toFixed`) |
| ReportService.SheetTotalsSumColumns | services/reportService.ts:267-298 | each totals-row total carries the sum of the unformatted values the item cells above it carry (before `toString`/`toFixed`) |
| ReportService.ItemRowsAgree | services/reportService.ts:152-164 | for one item, every PDF cell but the description carries the same number, or the same text, as the sheet cell for that column; the PDF description begins with the sheet's description |
| ReportService.TotalsRowsAgree | services/reportService.ts:167-174 | the PDF footer and the sheet totals row carry the same three totals |
| ReportService.ItemRowsAgreeAcrossReports | services/reportService.ts:274-288 | in the generated reports every item's PDF row agrees with its sheet row column by column |
| ReportService.TotalsAgreeAcrossReports | services/reportService.ts:291-298 | in the generated reports the PDF footer and the sheet totals row carry the same totals |
| ReportService.HeaderAgreesAcrossReports | services/reportService.ts:107-118 | every header value in the PDF info block appears at its own cell of the sheet |
| App.ApplyEdit | App.tsx:51 | the named field takes the new value; the id and all other fields are kept |
| App.WithHeaderField | App.tsx:44 | the named header field takes the value and no other field changes |
| App.UpdateItems | App.tsx:49-54 | the length, the order and the ids are kept; rows with that id are edited and all others untouched |
| App.UpdateUnknownId | App.tsx:49-54 | an edit for an id no row has changes nothing |
| App.UpdateKeepsUniqueIds | App.tsx:49-54 | editing keeps the ids unique |
| App.Without | App.tsx:80 | the filter keeps exactly the rows with another id and never lengthens the list |
| App.WithoutUnknownId | App.tsx:80 | removing an id no row has leaves the list unchanged |
| App.WithoutAppend | App.tsx:80 | filtering a concatenation filters each part and keeps them in order |
| App.WithoutAround | App.tsx:80 | removing an id that only a middle row carries leaves the rows before and after it, in order |
| App.WithoutRemovesAt | App.tsx:78-82 | with unique ids, removing the id of row j gives the rows before j followed by the rows after j |
| App.WithoutKeepsUniqueIds | App.tsx:80 | filtering keeps the ids unique |
| App.WithoutCount | App.tsx:78-82 | with unique ids the filter removes one row when the id is present and none otherwise |
| App.BlankItem | App.tsx:60-74 | the new row has the given id, unit "YDS", every other text empty, and zero quantities and price |
| App.AppendFreshKeepsUniqueIds | App.tsx:57-76 | appending a row with a fresh id keeps the ids unique |
| App.BlankRowAddsNothing | App.tsx:57-76 | a blank row adds nothing to the totals |
| App.FormStore.constructor | App.tsx:8-34 | the initial state has an empty header and one blank row, and satisfies the invariant |
| App.FormStore.SetDefaultBillingDate | App.tsx:36-40 | only the billing date changes, to the formatted date supplied |
| App.FormStore.HandleHeaderChange | App.tsx:42-45 | only the named header field changes; items are kept; the invariant is kept |
| App.FormStore.HandleItemChange | App.tsx:47-55 | the items become the per-id update; the header is kept; the invariant is kept |
| App.FormStore.AddNewRow | App.tsx:57-76 | exactly one blank row with the fresh id is appended after the unchanged rows; the invariant is kept |
| App.FormStore.RemoveRow | App.tsx:78-82 | with one row nothing changes; otherwise the rows with that id are filtered out, and when row j has the id the result is the rows before j then the rows after j, in order; the list never becomes empty and ids stay unique |
| App.FormStore.HandleGenerate | App.tsx:86-92 | the user is alerted with "Please enter a Buyer Name." exactly when the buyer name is empty; otherwise both reports are generated from the current header and items |

## Left out

- Drawing: the static header texts, fonts, font sizes of the static text, colours, line widths, column styles, signature lines and captions (services/reportService.ts:83-93, 182-207, 232-242) are renderer calls, not data decisions. The `val || ''` fallback of the info block is the identity on strings.
- The table's rendered end (`lastAutoTable.finalY`) and the page count are computed by autoTable; `lastTableY` is a parameter.
- Saving files (`doc.save`, `XLSX.writeFile`) and building the workbook object (`aoa_to_sheet`, `book_append_sheet`) are library calls; the model stops at the file name and the data handed over.
- IEEE-754 arithmetic: all quantities, prices and geometry are exact reals, so float rounding in sums and products is not modelled.
- `toFixed` and `toString` of numbers are kept symbolic (`FixedText`, `NumberText`); their digit strings are not modelled.
- Utils.IntToString: integers are rendered without the exponent form `String` uses from 10^21 on.
- `getFormattedDate` and `formatCurrency` (utils.ts:1-8, 26-32) are Intl formatting; the mount effect takes the formatted date as a parameter.
- `new Date(dateStr)` parsing is host-defined; the filename date takes its outcome as an optional (day, month index, full year) triple.
- `crypto.randomUUID()` is a caller-supplied id that no row has yet.
- `alert` is the `Alerted` outcome of `HandleGenerate`.
- The JSX markup, input components and the on-screen totals (App.tsx:84, 94-282) are display only.
- Number inputs deliver strings; the model carries what `Number` makes of them (`Num`), which is all the reports read.
- ReportService.PdfFooterSumsColumns, ReportService.SheetTotalsSumColumns: the sums are over the unformatted values the cells carry. Each line total is printed rounded by `toFixed(2)` while the footer prints the rounded exact sum, so the printed column need not add up to the printed total (two line totals of 0.125 print as "0.13" and "0.13" above "0.25"); digit strings are not modelled.
- The shrink padding `max(0.5, fontSize / 5)` is stated as `fontSize / 5`, because the font is never below 5 and the 0.5 floor cannot apply.
