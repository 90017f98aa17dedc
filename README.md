# Payments report layout: a verified model

This project models the "print payments report" button of an accounting
module for supplier and customer payments. The module turns the selected
`account.payment` records into a spreadsheet and then into a downloadable PDF.
The model covers the logic that decides what the spreadsheet holds:

- drafts are dropped from the selection, and an empty result is refused with
  a validation error;
- the title is chosen from the first payment's partner type;
- the header block is written: date line, company line and column headers;
- payments are grouped by partner name in an insertion-ordered dictionary;
- a row counter lays the groups out one below the other. Each group has a
  partner row, one line per payment, a "Total" row with the group's sum and
  a blank separator row.

The spreadsheet is an abstract grid from (row, column), both zero-based as in
`worksheet.write(row, col, value)`, to a text or number cell. `Grid.Worksheet`
is the sheet the method fills. It keeps the grid and a ghost log of every
write so far. `Layout.ReportWrites` is the full sequence of writes that
`generate_excel` issues, and `Layout.Report` is the grid they leave.
`Layout.GenerateExcel` is the method itself, with the source's loops. It is
proved to produce exactly `Report`. The lemmas are then stated about `Report`:
where each cell is, that no cell is written twice, that the totals add up,
and that grouping is a stable partition.

Modules, one per file:

- `Payments` (payments.dfy): the payment record, the sum of amounts and the draft filter.
- `Grouping` (grouping.dfy): grouping by partner name.
- `Grid` (grid.dfy): cells, writes and the worksheet.
- `Layout` (layout.dfy): title, header and row layout, and `GenerateExcel`.
- `Action` (action.dfy): the print action up to the rendered sheet.
- `Scenarios` (scenarios.dfy): a worked example with two partners.

## Model

| member | source | states |
|---|---|---|
| Payments.Confirmed | models/report_proveedores.py:127 | no draft is kept; the result is empty exactly when every selected payment is a draft |
| Payments.ConfirmedCount | models/report_proveedores.py:127 | every non-draft payment is kept exactly as many times as it was selected, and no draft is kept |
| Payments.ConfirmedAppend | models/report_proveedores.py:127 | the filter keeps input order: it distributes over concatenation |
| Payments.Sum | models/report_proveedores.py:75 | the group total `sum(pago.amount for pago in pagos)`; its properties are stated by `SumPermutation` (order does not matter) and `TotalsConserve` (group totals add up to the whole) |
| Payments.SumPermutation | models/report_proveedores.py:75 | the sum of amounts does not depend on the order of the payments |
| Grouping.Partners | models/report_proveedores.py:53-57 | the dictionary's keys have no duplicates, and a name is a key exactly when some payment has that partner |
| Grouping.PaymentsOf | models/report_proveedores.py:53-57 | a partner's list holds only that partner's payments, and is empty exactly when the partner has none |
| Grouping.GroupByPartner | models/report_proveedores.py:53-57 | the grouping loop builds the dictionary with key order `Partners` and contents `PaymentsOf` for each key |
| Grouping.PaymentsOfCount | models/report_proveedores.py:53-57 | each partner's list holds every payment of that partner exactly as often as the input does |
| Grouping.PaymentsOfAppend | models/report_proveedores.py:53-57 | grouping is stable: the list for `a + b` is the list for `a` followed by the list for `b` |
| Grouping.Groups | models/report_proveedores.py:53-61 | `grouped_payments.items()`: the groups in key order; stated by `GroupingIsPartition`, `PaymentInOneGroup`, `PartnersFirstSeen` and `Scenarios.ExampleGroups` |
| Grouping.GroupingIsPartition | models/report_proveedores.py:53-61 | the groups, concatenated in dictionary order, are a permutation of the input |
| Grouping.PaymentInOneGroup | models/report_proveedores.py:53-61 | every payment is in the one group keyed by its partner and in no other group |
| Grouping.PartnersFirstSeen | models/report_proveedores.py:53-61 | groups come in first-seen order: for keys `i < j`, any payment of partner `j` is preceded by some payment of partner `i` |
| Grouping.TotalsConserve | models/report_proveedores.py:61-77 | the per-group totals add up to the sum of all amounts |
| Grid.Worksheet.Write | models/report_proveedores.py:63 | one `worksheet.write`: that cell now holds the value, all other cells are unchanged, and the write is appended to the log |
| Layout.Title | models/report_proveedores.py:29-35 | supplier title exactly when the first payment is a supplier's; customer title exactly when it is a customer's; the general title otherwise, including no payments |
| Layout.DateLabel | models/report_proveedores.py:41 | the first payment's date, or "N/A" when there are no payments; stated by `ReportHeader` for cell A3 |
| Layout.ReportWrites | models/report_proveedores.py:29-78 | every `write` of `generate_excel`, in order; `NoOverwrite` states that no cell is written twice and all rows lie below the final row counter; `GenerateExcel`'s loops issue exactly these writes |
| Layout.Report | models/report_proveedores.py:29-78 | the grid the writes leave; its cells are stated by `ReportHeader`, `GroupPartnerAndTotal`, `GroupPaymentLines`, `GroupSpacing` and `ReportTotals` |
| Layout.GenerateExcel | models/report_proveedores.py:13-92 | the method's grid is exactly `Report(payments)` |
| Layout.WriteHeader | models/report_proveedores.py:37-50 | the title, date line, company line and four headers are written in that order |
| Layout.WriteGroup | models/report_proveedores.py:61-78 | one pass of the group loop writes the partner row, the payment lines and the total row, and moves the row counter `n + 3` rows on |
| Layout.WriteLines | models/report_proveedores.py:67-72 | the inner loop writes one line per payment, in input order, in consecutive rows from its first row, and leaves the row counter just below the last line |
| Layout.WriteLine | models/report_proveedores.py:68-71 | a payment line is four writes in columns 0-3 of its row |
| Layout.HeaderShape | models/report_proveedores.py:37-50 | the header block writes no cell twice and only rows 0-6 |
| Layout.BodyShape | models/report_proveedores.py:60-78 | the groups write no cell twice, below their start row and above where the row counter ends |
| Layout.NoOverwrite | models/report_proveedores.py:29-78 | no cell of the whole report is written twice, and nothing is written below the final row counter |
| Layout.ReportHeader | models/report_proveedores.py:37-50 | A1 holds the title, A3 "Fecha: " and the first date (or "N/A"), A4 the company line, and row 6 columns 0-3 the four headers |
| Layout.GroupPartnerAndTotal | models/report_proveedores.py:60-77 | group `k` starts at row 7 or below (the first at row 7); its partner name is at (start, 0); its total row is start + n + 1, with "Total" in column 2 and the group's sum in column 3 |
| Layout.GroupPaymentLines | models/report_proveedores.py:64-72 | payment `j` of group `k` is in row start + 1 + j, with order name, date, journal and amount in columns 0-3 |
| Layout.GroupSpacing | models/report_proveedores.py:76-78 | the next group starts at start + n + 3, and no cell of row start + n + 2 is written |
| Layout.ReportTotals | models/report_proveedores.py:60-77 | the "Total" cells of the sheet add up to the sum of all payment amounts |
| Action.PrintPaymentsReport | models/report_proveedores.py:124-133 | a validation error with the source's message exactly when every selected payment is a draft; otherwise the report of the non-draft payments |
| Action.ReportedPaymentsConfirmed | models/report_proveedores.py:127-133 | the report groups exactly the selection's non-draft payments, each as often as it was selected |
| Scenarios.ExampleGroups | models/report_proveedores.py:53-57 | payments for A, B, A group as A (both, in order) then B |
| Scenarios.ExampleTotals | models/report_proveedores.py:29-78 | for A (100, 200) and B (50): supplier title, A's total 300 in row 10, B from row 12 with total 50 in row 14 |

## Left out

- PDF conversion (`convert_xlsx_to_pdf`, models/report_proveedores.py:94-122): temporary files, a LibreOffice subprocess and reading its output are external I/O with no logic to verify.
- The attachment and the returned download action (models/report_proveedores.py:137-149): ORM calls and base64 encoding. `Action.PrintPaymentsReport` ends at the rendered sheet.
- Spreadsheet presentation: formats, landscape mode, column widths, fit-to-page, and the workbook's encoding into bytes (models/report_proveedores.py:15-27, 81-92). `Layout.GenerateExcel` returns the grid, not the file.
- `merge_range('A1:D1', ...)` is modelled as a write of the title to A1 only. B1-D1 belong to the merged range but hold no value.
- Date formatting with `strftime`: dates are strings already formatted as YYYY-MM-DD.
- Amounts are floats in the source and integers here, for example cents. Float rounding in `sum` is not modelled.
- Partner names, order names and journal names are strings. A payment without a partner, whose name would be `False`, is not modelled.
- Grid.Worksheet.Write: the grid is unbounded, so xlsxwriter's row limit is not modelled. A write past row 1,048,575 is silently ignored there (it returns -1), while here every write lands, so `ReportShows` and `NoOverwrite` hold only for reports below that limit. xlsxwriter's handling of strings is not modelled either: an empty string becomes a blank cell, a string starting with `=` a formula, and a URL-like string a link. Here every partner, order and journal name is stored as the text it is.
- `Grid.Worksheet`: its ghost write log exists only for the proofs. The source's loop body is split into the helper methods `WriteHeader`, `WriteGroup`, `WriteLines` and `WriteLine`, which issue the same writes in the same order.
- `__manifest__.py` is module metadata with no logic.
