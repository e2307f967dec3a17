# Billing engine of the Thunderstorm Fibernet invoicing app, in Dafny

This project models the invoicing engine inside `main.py`, a Tk desktop app
that issues GST invoices for internet-plan subscriptions. It covers the
parts of the app that decide what gets written and printed:

- the amount calculator: a tax-inclusive total becomes a base amount plus
  one tax figure, which is printed twice, as CGST and as SGST;
- the invoice-number counter kept in `invoice_tracker.json`;
- the checks, file name and invoice record built by `validate_and_submit`;
- the content of the invoice document: the item table and the
  payment-status line;
- the invoice ledger `invoice_log.json`: append, payment-status update,
  filtered view with summary totals, and the refreshed newest-first view;
- the customer directory `customers.json`: upsert, add, edit, delete,
  search and the autofill of the invoice form.

Persistence is modelled as whole-file state. Each JSON file is a field of a
class (`InvoiceCounter`, `InvoiceLedger`, `CustomerDirectory`), and the
methods reassign the field the way the source rewrites the file. A file is
`Missing`, `Unreadable` or `Present(items)`; `Loaded` gives the items or,
like the source's `except` branches, an empty list. The current time is a
`now: Timestamp` parameter, and "today" is a `Date` parameter.

Money is whole paise (`int`). Amount text typed into the form is read by
`Money.ParseAmount`: an optional `-`, digits, and at most two decimal places.
Python's `round` works on binary floats. The model uses one exact rule
instead: round half up on the exact rational
(`RoundHalfUp(n, d) = (2n + d) / (2d)`). `calculate_amounts` rounds the base
first, then takes 9 % of the ROUNDED base. For Rs. 1180.00 this gives a base
of Rs. 1000.00 and Rs. 90.00 for each of CGST and SGST
(`Money.CalculateAmountsExample`).

Behaviour of the program worth noting:

- Rs. 1180.00 gives 90.00 per tax component.
- The counter is saved only after the document is built. A render failure
  therefore does NOT consume a number.
- `log_invoice` does not reject a duplicate file name.
- A status update does not require a payment method for Paid.
- A status update may write back any status the dialog starts with,
  including "Partial". Its status variable starts at the entry's current
  status.
- The date filter keeps an entry stamped exactly at midnight after the "to"
  day (`InvoiceLog.ToBoundIncludesNextMidnight`).
- Tax is charged on the whole total. The discount and late fee change only
  the final row.

Each file holds one module, except wrappers.dfy, which holds three:
`Wrappers`, `Storage` and `Sequences`. The others are `Text`, `Calendar`,
`Money`, `Numbering`, `Records`, `InvoiceLog` (ledger.dfy), `Directory`
(customers.dfy), `Rendering` and `Issuance`.

## Model

| member | source | states |
|---|---|---|
| Money.RoundHalfUp | main.py:498-499 | the rounded value is the integer nearest to n/d, with halves going up: -d <= 2(n - d*r) < d |
| Money.RoundHalfUpUnique | main.py:498-499 | any integer within that bound is the rounded value, so each rounding has exactly one result |
| Money.CalculateAmounts | main.py:496-500 | base is the total divided by 1.18, rounded to the paisa; the per-component tax is 9 % of the rounded base, rounded to the paisa |
| Money.AmountsWithinOnePaisa | main.py:496-500 | for a positive total, base > 0 and tax >= 0, and base + CGST + SGST is within one paisa of the total |
| Money.CalculateAmountsExample | main.py:395-500 | Rs. 1180.00 at GST_RATE 0.09 gives base Rs. 1000.00 and Rs. 90.00 per component |
| Money.ParseFormatAmount | main.py:205-211 | an amount printed with two decimals reads back as the same number of paise |
| Text.FirstEmpty | main.py:1120-1125 | the label of the first required field whose value is empty; None exactly when every field is filled |
| Calendar.RankIsChronological | main.py:1030-1034 | comparing timestamp ranks is comparing date and time fields chronologically |
| Calendar.NextDay | main.py:1025 | `date + 1 day` is a later valid date; None only for 31-12-9999, where Python overflows |
| Calendar.DayRankIsChronological | main.py:1030-1034 | for valid dates, comparing day ranks is comparing (year, month, day) in order |
| Calendar.NextDayIsImmediate | main.py:1025 | no valid date lies strictly between a date and its next day |
| Calendar.MonthAbbrevInjective | main.py:1166 | distinct months print distinct `%b` abbreviations |
| Calendar.ParseFormatDate | main.py:1129-1130 | a valid date printed as `%d-%m-%Y` parses back to the same date |
| Calendar.FormatParseDate | main.py:1129-1130 | text that parses as `%d-%m-%Y` is exactly the printed form of its date |
| Calendar.ParseFormatStamp | main.py:2571 | a ledger timestamp `%d-%m-%Y %H:%M:%S` parses back to the instant it was printed from |
| Calendar.FormatParseStamp | main.py:1030 | text that parses as a ledger timestamp is the printed form of that instant |
| Calendar.ParseFormatIsoStamp | main.py:921 | the older `%Y-%m-%d %H:%M:%S` format round-trips as well |
| Calendar.StampFormatsDisjoint | main.py:919-925 | no text parses in both timestamp formats, so trying the older format first never misreads a ledger stamp |
| Numbering.Initialized | main.py:475-479 | an absent tracker file is created holding 2058; an existing file is left alone |
| Numbering.NextNumber | main.py:481-489 | the next number is the stored last number + 1; it is 2059 when the file is unparseable or lacks the key |
| Numbering.InitializeKeepsNext | main.py:481-489 | creating the tracker file does not change the number that comes next |
| Numbering.InvoiceNumberText | main.py:95 | the printed number starts with "TF/25-26/HR/" and the rest reads back as the number |
| Numbering.InvoiceNumberTextInjective | main.py:95 | distinct numbers print as distinct invoice numbers |
| Numbering.AfterIssue | main.py:1161-1201 | saving the loaded number makes the next load return one more |
| Numbering.IssuedNumbersConsecutive | main.py:1161-1201 | k issuances in a row hand out next, next+1, ..., next+k-1 and leave next+k as the following number |
| Numbering.InvoiceCounter.InitializeTracker | main.py:475-479 | the tracker file becomes `Initialized` of what it was |
| Numbering.InvoiceCounter.LoadInvoiceNumber | main.py:481-489 | returns `NextNumber` of the file before the call; the file is created if absent, and the next number is unchanged |
| Numbering.InvoiceCounter.SaveInvoiceNumber | main.py:491-494 | the file holds the saved number, and the next load returns that number + 1 |
| InvoiceLog.NewEntry | main.py:2571-2583 | the entry's number is the printed invoice number; its timestamp parses back to `now`; payment date is set iff status is Paid, and is today then; the other fields come from the invoice data |
| InvoiceLog.InvoiceLedger.LogInvoice | main.py:2554-2592 | exactly one entry is appended and the earlier entries are unchanged; an absent or unreadable ledger counts as empty, so an unreadable file is replaced |
| InvoiceLog.UpdateStatus | main.py:2702-2724 | every entry with the number gets the new status, a method only when Paid, and today's date when Paid (else empty); length, order, other entries and all other fields stay the same |
| InvoiceLog.PaidThenUnpaid | main.py:2702-2724 | marking Paid and then Unpaid leaves the matching entries Unpaid with no method or date, and the others as they were |
| InvoiceLog.InvoiceLedger.SaveStatus | main.py:2702-2733 | the loop rewrites the ledger to `UpdateStatus` of its old contents; success is reported exactly when the file was present; an absent or unreadable file is left as it was |
| InvoiceLog.QueryBounds | main.py:1021-1025 | the bounds exist iff each given date parses and the day after "to" exists; a bound is present iff its date was given; a given "from" is midnight of that day and a given "to" is midnight of the following day |
| InvoiceLog.ScanSound | main.py:1027-1061 | the kept entries are a subsequence of the ledger and each passes the filter; when the scan completes, every passing entry is kept |
| InvoiceLog.ScanKeepsDuplicates | main.py:1027-1058 | a completed scan keeps each passing entry as many times as the ledger holds it, and no other entry |
| InvoiceLog.FilterViewSound | main.py:998-1061 | every shown entry is in ledger order and has a timestamp at or after "from" and at or before midnight after "to", the chosen status unless "All", and the search text in one of its six displayed values |
| InvoiceLog.ScanEverything | main.py:1027-1061 | with no search text, status "All" and no dates, a ledger whose timestamps all parse is shown whole and in order |
| InvoiceLog.FilterEverything | main.py:998-1061 | the same, stated for the view |
| InvoiceLog.ToBoundIncludesNextMidnight | main.py:1025-1034 | an entry stamped exactly at midnight after the "to" day is still shown |
| InvoiceLog.TotalsBalance | main.py:1076-1090 | the summary counts every displayed row, and its total is paid + pending |
| InvoiceLog.TotalsAllPaid | main.py:1085-1090 | rows that are all Paid have nothing pending |
| InvoiceLog.PaidFilterHasNothingPending | main.py:1034-1095 | filtering on Paid yields a summary with nothing pending, whose total is its paid amount |
| InvoiceLog.TotalsStep | main.py:1083-1090 | one loop step of `update_summary` preserves the relation between the running totals and the totals of the remaining rows |
| InvoiceLog.UpdateSummary | main.py:1070-1095 | the loop computes the summary of the displayed rows, None when none are shown or an amount does not parse; count = rows and total = paid + pending |
| InvoiceLog.ScanLedger | main.py:1027-1058 | the loop over the ledger yields exactly `ScanLogs`: the kept rows in order, and whether every timestamp parsed |
| InvoiceLog.InvoiceLedger.FilterLogs | main.py:998-1061 | the loop yields exactly the filtered view; an unparseable timestamp stops it with the rows kept so far and no summary |
| InvoiceLog.Normalized | main.py:917-933 | a ledger-format stamp is kept; an older-format stamp is reprinted as the same instant in ledger format; anything else is left unchanged |
| InvoiceLog.NormalizedKeepsInstant | main.py:917-933 | normalising never changes the instant a timestamp denotes |
| InvoiceLog.InsertDescending | main.py:937 | inserting into a newest-first list keeps it newest first and adds exactly the one element |
| InvoiceLog.SortDescending | main.py:937 | the result is in descending key order and is a permutation of the input |
| InvoiceLog.NormalizedStampedIff | main.py:917-933 | after normalising, every stamp is in the ledger format exactly when every stored stamp was in the ledger or the older ISO format |
| InvoiceLog.RefreshViewOrdered | main.py:917-937 | the refreshed view is newest first and every row has a ledger-format stamp; when every stored stamp is in one of the two formats it holds each normalised entry exactly once, and otherwise (the sort raises) it is empty |
| InvoiceLog.InvoiceLedger.RefreshLogs | main.py:917-937 | the normalising loop, then the sort, yields `RefreshView` of the ledger |
| Directory.FirstIndexOf | main.py:2431-2437 | the position of the first record with the id; None exactly when no record has it |
| Directory.FindById | main.py:2120 | the record at the first position holding the id (no earlier record carries it); None exactly when no record has the id |
| Directory.Upsert | main.py:303-324 | the first record with the id is replaced in place (that position holds the new record), else the record is appended; length grows by one iff the id was absent; looking the id up afterwards finds the new record; no other record changes |
| Directory.UpsertAppendsNewId | main.py:2439-2441 | a new id is appended at the end with nothing else moved |
| Directory.UpsertKeepsIdsUnique | main.py:2424-2449 | if customer ids are unique, they stay unique after an upsert |
| Directory.CustomerDirectory.SaveCustomerData | main.py:2424-2449 | the loop with break writes `Upsert` of the old directory |
| Directory.Without | main.py:2248 | no record with the id remains; every other record stays, in order; a directory without the id is unchanged |
| Directory.WithoutRemovesCount | main.py:2248 | delete removes exactly as many records as carried the id |
| Directory.CustomerDirectory.DeleteCustomer | main.py:2236-2253 | the directory becomes the old one without the id |
| Directory.NewCustomer | main.py:2069-2082 | all ten form fields are copied into the record unchanged; created and last-modified stamps are equal and parse back to `now` |
| Directory.CustomerDirectory.AddCustomer | main.py:2053-2089 | the first empty required field (Customer ID, Name, Tenant Name, Customer Address) is reported; an existing id is rejected; otherwise the new record is appended; nothing changes on rejection |
| Directory.Edited | main.py:2195-2208 | the edited record keeps the stored id and creation stamp, takes the other nine fields from the form, and its last-modified stamp parses back to `now` |
| Directory.EditReplacesInPlace | main.py:2186-2211 | saving an edit keeps the length, puts the edited record where the old one was and changes no other record |
| Directory.CustomerDirectory.EditCustomer | main.py:2110-2211 | an unknown id changes nothing; an empty required field (Name, Tenant Name, Customer Address) changes nothing; otherwise the first record with the id is upserted with the edited record |
| Directory.Matching | main.py:2390-2402 | the shown customers are a subsequence of the directory, each has the lower-cased search text in some value, and every customer that does is shown |
| Directory.MatchingKeepsDuplicates | main.py:2390-2402 | each matching record is shown as many times as the directory holds it, and no other record is shown |
| Directory.EmptySearchShowsAll | main.py:2402 | an empty search shows the whole directory |
| Directory.CustomerDirectory.FilterCustomers | main.py:2390-2417 | the loop yields exactly `Matching` of the directory |
| Directory.FillsEveryKnownKey | main.py:552-555 | every label whose key is in the record is filled, in label order, with the value under that key |
| Directory.AutofillFillsSixFields | main.py:552-555 | lower-casing the labels and turning spaces into `_` reaches the intended field for all six labels |
| Directory.Fills | main.py:552-555 | at most one pair per label; each pair is a label from the list with the record's value under that label's key |
| Directory.AutofillFor | main.py:541-556 | an empty selection fills nothing; otherwise the FIRST record whose "name (id)" is the selection fills the form; whenever such a record exists, the form is filled |
| Directory.CustomerDirectory.AutofillCustomerData | main.py:541-556 | the loop with break computes `AutofillFor` of the directory |
| Rendering.Particular | main.py:205 | "plan - months Month", plural unless the months text is exactly "1" |
| Rendering.ItemRows | main.py:197-211 | header row, then the plan row from `CalculateAmounts(total)`; a discount row iff discount != 0, always third; a late-fee row iff late fee != 0, always just before the last; the last row is total - discount + late fee |
| Rendering.ItemRowsAddUp | main.py:200-211 | the grand total equals the plan line total, less the discount row, plus the late-fee row |
| Rendering.TaxIgnoresAdjustments | main.py:197-205 | the header and plan rows are the same whatever the discount and late fee |
| Rendering.ItemRowsExample | main.py:197-211 | Rs. 1000.00 less Rs. 100.00 plus Rs. 20.00 gives base 847.46, 76.27 per component and a grand total of 920.00 |
| Rendering.LastCellReadsBack | main.py:205-211 | every amount row's last cell, after its "Rs. " or "-Rs. "/"+Rs. " prefix, reads back as the row's figure |
| Rendering.FirstWithFilename | main.py:256-257 | the position of the first ledger entry for the file name |
| Rendering.StatusText | main.py:258-262 | a line exactly for a Paid or Partial entry |
| Rendering.PaymentStatusLine | main.py:251-264 | the line comes from the first ledger entry with the file name; there is none for an absent or unreadable ledger or a missing entry |
| Rendering.StatusLineIgnoresLaterEntries | main.py:256-262 | entries after the first one with the file name never affect the line |
| Rendering.FigureOfFormat | main.py:198-199 | a figure printed with two decimals is non-empty and reads back as the same figure |
| Rendering.ZeroTextIsBlankFigure | main.py:198-199 | the text "0" reads as the same figure as an empty text, namely zero, so the `or "0"` substitution when the invoice record is built changes no amount |
| Rendering.Render | main.py:95-264 | rendering succeeds iff total, discount and late fee all read as amounts; the document then carries the printed invoice number, today's `%d %b %Y` date, the item table of those figures, the notes iff non-empty, and the status line from the ledger as it stands |
| Issuance.RequiredChecked | main.py:1120-1125 | the required-field check passes exactly when all six fields are filled, and a reported field is one of them, left empty |
| Issuance.Validate | main.py:1119-1156 | checks run in source order: the first empty required field is reported; with all filled, a date format error is reported iff a date does not parse; each later error implies every earlier check passed (range, then amount format, amount > 0, method for Paid); None exactly when every condition of `Acceptable` holds |
| Issuance.FileName | main.py:1164-1169 | the name with spaces turned into `_`, then `_Mon_YYYY.pdf` |
| Issuance.FileNameSameMonthIff | main.py:1164-1169 | for one name, two times give the same file name iff they fall in the same month of the same year |
| Issuance.BuildInvoiceData | main.py:1172-1190 | the record carries the number and file name and every form field unchanged (the notes as `custom_notes`); a non-empty discount or late fee is kept as typed, an empty one becomes "0" with the same figure; the method is kept only for Paid |
| Issuance.ValidateAndSubmit | main.py:1115-1205 | a rejected form changes nothing; a failed render leaves the tracker only created if absent, so the next number and the ledger are unchanged; on success the document shows the old next number, the counter moves on by one, one ledger entry is appended, and that entry's number is the one printed on the document |
| Issuance.PaidIssueIsLoggedPaid | main.py:1153-1190 | an accepted Paid invoice is logged as Paid, with its non-empty method and today's payment date |

## Left out

- The Tk and ttkbootstrap widgets, the login window, theming, timers and the dashboard are not modelled. Form contents are passed in as values.
- Email sending, the Excel/CSV exports and logging are not modelled.
- `launcher.py` is not part of this model.
- Document layout is not modelled: reportlab flowables, table styles, the logo check and the per-page watermark. Only the document's content is modelled.
- The supplier's fixed text on the invoice is not modelled: name, address, GSTIN and footer.
- Failing to write the PDF file is the `built` flag of `ValidateAndSubmit`; why the write fails is not modelled.
- JSON parsing is not modelled beyond "absent, unreadable or present". A tracker whose `last_invoice_number` is not a number makes the source crash; that case is not modelled.
- Records in the JSON files always hold every key. Records written by hand with keys missing are not modelled.
- Money.CalculateAmounts: uses exact half-up rounding, not Python's binary-float `round`. The two can differ by one paisa on ties.
- Money.ParseAmount: reads only `[-]digits[.d[d]]`. Python's `float()` also accepts spaces, exponents, `inf`/`nan` and more than two decimals. Other forms are treated as unreadable.
- Calendar.ParseDate: needs a two-digit day and month and a four-digit year. `strptime` also accepts one-digit day and month.
- Directory.CustomerDirectory.FilterCustomers: Text.Lower lower-cases ASCII letters only. Python's `str.lower` also folds non-ASCII letters.
- Directory.CustomerDirectory.AddCustomer: the Notes box's `.strip()` is not modelled. Notes are taken as already stripped.
- Issuance.ValidateAndSubmit: one `now` is used throughout. The source reads the clock separately for the file name, the document date and the ledger stamps.
- Directory.CustomerDirectory.EditCustomer: the id is taken as the stored string. Tk's Treeview can turn a numeric-looking id into an integer, and then it would not match.
- InvoiceLog.SortDescending: Python's sort is stable. The model proves order and permutation, but does not state stability as a property.
- InvoiceLog.MatchesSearch: Text.Lower lower-cases ASCII letters only. Python's `str.lower` also folds non-ASCII letters.
- Directory.CustomerDirectory.DeleteCustomer: the id is taken as the stored string. Tk's Treeview can turn a numeric-looking id into an integer, and then no record matches and nothing is deleted.
- Issuance.BuildInvoiceData: the notes box's `.strip()` is not modelled. Notes are taken as already stripped.
- Calendar.ParseStamp: needs two-digit day, month, hour, minute and second and a four-digit year. `strptime` also accepts one-digit fields.
- Calendar.ParseIsoStamp: needs a four-digit year and two-digit month, day, hour, minute and second. `strptime` also accepts one-digit fields.
- Directory.NewCustomer: one `now` gives both the created and the last-modified stamp. The source reads the clock twice, so the two stamps can differ by a second.
