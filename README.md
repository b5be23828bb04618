# Invoicing-App document core in Dafny

A verified model of the part of the Invoicing-App (a Streamlit tool that a
heating-and-cooling contractor uses to write proposals and invoices) that
decides what a document says and where it says it:

- `build_pdf` becomes `PdfBuilder.BuildPdf`. It is a method that appends draw
  commands (a text or an image, a column tag, a position) to a list. A cursor
  `y` moves down the item table, the totals, the notes and the signature line
  by 16, 18, 10, 25, 14 and 40 points, as the code does. The method is proved
  to produce exactly `Layout.Page`, the page as a function of its arguments.
  The lemmas in `LayoutFacts`, `PageFacts` and `Stacking` then state what
  each column of that page holds and in which vertical order.
- `compute_subtotal` becomes `Items.ComputeSubtotal`. Money is in integers:
  quantities in hundredths and unit prices in cents. A line amount and the
  record's subtotal, deposit and grand total are therefore ten-thousandths of
  a dollar. They are rounded to cents only when printed.
- `f"${x:,.2f}"` and `f"{q:.2f}"` become `Money.FormatCents`,
  `Money.FormatAmount` and `Money.FormatQty`. `FormatCents` and `FormatQty`
  are proved to read back to the number they printed. `FormatAmount` prints
  the amount rounded to cents by `Money.RoundToCents`, and reads back to that
  rounded value.
- `format_prop_id` and `format_inv_id` become `Numbering.FormatPropId` and
  `Numbering.FormatInvId`.
- `_max_existing_number` becomes `Numbering.MaxExistingNumber`. It works over
  the `number` columns of the two tables, given as sequences, with NULL as
  `None`.
- The issue date plus 15 days (the "Valid until" date) becomes
  `Dates.AddDays`. It steps through a proleptic Gregorian calendar one day at
  a time. It is proved to advance `Dates.Ordinal` (the closed form of Python's
  `date.toordinal`) by exactly n.
- The greeting and first name of `build_email_body` become `Email.Greeting`
  and `Email.FirstName`. `str.split()` with no argument becomes `Email.Split`.

Module order follows the program:

- `Wrappers`: Option.
- `Decimal`: digit strings.
- `Money`, `Dates`, `Items`, `Numbering`, `Email`.
- `Layout`: the page as a function.
- `PdfBuilder`: `build_pdf` as a method.
- `LayoutFacts`, `PageFacts`, `Stacking`: properties of the page.

The clock (`now_ct()`, read once for the issue date and again for the PAID
date, and once for the hour of the e-mail greeting) is a parameter. So is the
outcome of loading `logo.png`, as a boolean, and `textwrap.wrap`, as an
uninterpreted function `Layout.Wrapper`.

## Model

| member | source | states |
|---|---|---|
| PdfBuilder.BuildPdf | app.py:174-246 | the draw list is exactly `Page`: the header, the item table, the totals, the notes and the signature, in drawing order |
| PdfBuilder.DrawBody | app.py:207-244 | starting 16 below the column headings, the rows, the totals 10 below them, the notes and the signature 40 below the last line equal `Body` |
| PdfBuilder.DrawTable | app.py:213-222 | the loop over items yields the rows of all items and leaves the cursor 18 points lower per wrapped line of the whole table |
| PdfBuilder.DrawItem | app.py:214-222 | the loop over wrapped lines yields one row per line, amounts on line 0 only, and lowers the cursor by 18 per line |
| PdfBuilder.DrawTotals | app.py:224-232 | the totals branch yields `TotalsDraws` and leaves the cursor at `TotalsEnd` |
| PdfBuilder.DrawNotes | app.py:234-236 | the notes loop yields `NotesDraws` and leaves the cursor at `NotesEnd` |
| PdfBuilder.DrawCompany | app.py:183-188 | logo (when loaded), company name, street, city, phone and bonding line |
| PdfBuilder.DrawMeta | app.py:190-200 | heading with reference, customer, project and location (blank when absent), issue date and terms line |
| PdfBuilder.DrawStamp | app.py:202-205 | PAID and the stamp date, on a paid invoice only |
| PdfBuilder.DrawSignature | app.py:238-244 | signature image with optional "Signed:" text 15 points up, or both hand-signing lines |
| LayoutFacts.LinesDescriptions | app.py:215-216 | an item draws one description row per wrapped line, 18 points apart from its first row down |
| LayoutFacts.LinesAmounts | app.py:217-221 | quantity, unit price and line total appear once, on the first wrapped line, and not at all when there is no line |
| LayoutFacts.LinesElsewhere | app.py:213-222 | an item writes nothing outside the description and three amount columns |
| LayoutFacts.LinesDrawCount | app.py:215-221 | an item with n > 0 wrapped lines makes n + 3 draws, with none it makes none |
| LayoutFacts.ItemDrawsNothing | app.py:214-215 | an item draws nothing if and only if its description wraps to no lines |
| LayoutFacts.BlankItemLeftOff | app.py:214 | an item with no or an empty description is left off when wrapping "" gives no lines |
| LayoutFacts.Printed | app.py:213-215 | the printed items are no more than the given items, and each has at least one wrapped line |
| LayoutFacts.TableDescriptions | app.py:213-222 | the description column of the table is every wrapped line of every item in order, at heights y, y-18, y-36, … |
| LayoutFacts.LineCountIsLines | app.py:213-222 | the cursor's line count is the number of all wrapped lines |
| LayoutFacts.TableAmounts | app.py:213-222 | each amount column of the table lists the `.2f` quantity, the `$` unit price or the `$` line total of each printed item, in item order |
| LayoutFacts.TableAmountsStep | app.py:213-222 | one more item adds its amount to an amount column exactly when it prints a line |
| LayoutFacts.TableElsewhere | app.py:213-222 | the table writes nothing outside the description and amount columns |
| LayoutFacts.AllItemsPrinted | app.py:213-215 | when every description wraps to a line, every item is printed, in order |
| LayoutFacts.TotalsLabelColumn | app.py:225-232 | the label column holds Subtotal, Deposit (invoice with positive deposit only) and Grand Total, 18 apart |
| LayoutFacts.TotalsAmountColumn | app.py:225-232 | the amount column holds the subtotal, the negated deposit when shown, and the grand total, which on a proposal is the subtotal |
| LayoutFacts.TotalsElsewhere | app.py:230 | the totals block writes in the margin only the check-number line (invoice with a check number) and nothing in other columns |
| LayoutFacts.NotesShown | app.py:234-236 | notes are drawn only when non-empty, one margin line per line wrapped at 90, 25 below the totals and 14 apart |
| LayoutFacts.NoteLinesRows | app.py:236 | the notes loop's lines sit at y, y-14, y-28, … |
| LayoutFacts.NotesElsewhere | app.py:234-236 | the notes write nothing outside the margin |
| LayoutFacts.SignatureColumns | app.py:238-244 | with signature bytes the margin holds the image and "Signed: <date>" appears only with a date text; without them the margin holds the signing line and the date column the date line |
| LayoutFacts.CompanyColumns | app.py:183-188 | the logo is the only draw in the top corner, present exactly when loaded |
| LayoutFacts.MetaColumns | app.py:191-200 | the right-hand column holds "Date:" with the issue date and the terms line, nothing else |
| LayoutFacts.TermsDate | app.py:192 | a proposal's terms name the one date 15 days after issue, an invoice's the issue date itself |
| LayoutFacts.StampColumns | app.py:202-205 | the PAID block writes only in the stamp column |
| LayoutFacts.HeadColumns | app.py:208-210 | the four column headings, one per column at the top of the flow |
| PageFacts.PageSplit | app.py:174-246 | a column of the page is that column of the header, then that of the body |
| Layout.Heading | app.py:191 | "Proposal" exactly for a proposal, "Invoice" for an invoice |
| PageFacts.HeaderHeading | app.py:191-194 | the first line under the company block reads "Proposal #: ref" or "Invoice #: ref" by kind |
| PageFacts.PageLogo | app.py:183-184 | the page's top corner holds the logo exactly when it could be loaded |
| PageFacts.PageDateAndTerms | app.py:192-200 | the page's right-hand column holds only the issue date and terms line |
| PageFacts.PagePaidStamp | app.py:202-205 | PAID and its date are on the page if and only if show_paid and the document is an invoice |
| PageFacts.PageLabels | app.py:224-232 | the only labels on the page are those of the totals block |
| PageFacts.PageSignature | app.py:238-244 | the page's signed-date and date columns are those of the signature block |
| PageFacts.PageAmountColumn | app.py:209-232 | each amount column of the page is its heading, one entry per printed item, then in the line-total column the totals |
| PageFacts.HeaderElsewhere | app.py:182-210 | the header writes nothing in the label, signed-date or date columns |
| PageFacts.BodyElsewhere | app.py:207-244 | the body writes nothing in the logo, date-and-terms or PAID columns |
| PageFacts.HeaderLogo | app.py:183 | the header's logo corner holds the logo when loaded |
| PageFacts.HeaderDateAndTerms | app.py:199-200 | the header's right-hand column holds the date and terms |
| PageFacts.HeaderStamp | app.py:202-205 | the header's PAID column is the stamp block |
| PageFacts.BodyLabels | app.py:224-232 | the body's label column is the totals labels |
| PageFacts.BodySignature | app.py:238-244 | the body's signed-date and date columns are those of the signature |
| PageFacts.HeaderAmountColumn | app.py:209-210 | the header writes only the column heading in each amount column |
| PageFacts.BodyAmountColumn | app.py:213-232 | the body's amount columns are the table's, plus the totals in the line-total column |
| PageFacts.TotalsAmountTexts | app.py:225-232 | the totals' amount texts are subtotal, "-" deposit when shown, grand total or subtotal |
| PageFacts.BodyAmountTexts | app.py:213-232 | the body's amount-column texts are the column's entries |
| PageFacts.HeaderAmountTexts | app.py:209-210 | the header's amount-column text is the heading |
| Stacking.LinesBand | app.py:215-222 | an item's rows lie between its first row and 18 points per further line below |
| Stacking.TableBand | app.py:213-222 | the table lies between its first row and its last |
| Stacking.TotalsBand | app.py:224-232 | the totals lie between their top and the cursor they leave |
| Stacking.NoteLinesBand | app.py:236 | notes lines lie between the first and 14 points per further line below |
| Stacking.NotesBand | app.py:234-236 | the notes start 25 points or more below the totals |
| Stacking.SignatureBand | app.py:238-244 | the anchors of the signature block (image, "Signed:" baseline, signing lines) reach at most 15 points above its line |
| Stacking.BodyStacked | app.py:207-244 | the anchors of rows lie above those of the totals, which lie above the notes, which lie above the signature block, all below the headings; the bands of anchors do not overlap |
| Items.ComputeSubtotal | app.py:123-124 | the sum of Qty × Unit Price with a missing key as 0; its properties are stated by `SubtotalAppend`, `SubtotalCons`, `SubtotalNonNegative` and `SubtotalOfIncompleteItems` |
| Items.SubtotalAppend | app.py:123-124 | the subtotal of a concatenation is the sum of subtotals |
| Items.SubtotalCons | app.py:123-124 | summing from the front (as `sum` does) gives the same subtotal |
| Items.SubtotalNonNegative | app.py:123-124 | with non-negative quantities and prices the subtotal is non-negative |
| Items.SubtotalOfIncompleteItems | app.py:123-124 | a missing Qty or Unit Price counts as 0, so such items add nothing |
| Money.FormatCents | app.py:220-221 | `$`, grouped two-decimal cents; stated by `FormatCentsRoundTrip` and `FormatCentsShape` |
| Money.FormatQty | app.py:219 | two-decimal hundredths without separators; stated by `FormatQtyRoundTrip` and `FormatQtyPlain` |
| Money.FormatAmount | app.py:221-232 | an amount printed at its nearest cent; stated by `FormatAmountRoundTrip` and `RoundToCents` |
| Money.GroupSpec | app.py:220-221 | thousands grouping gives well-formed groups that ungroup back to the digits |
| Money.WholeTextSpec | app.py:219-221 | the whole part is the digits of the amount's whole units, grouped when `,` is asked for and exactly the plain digits otherwise |
| Money.FracTextSpec | app.py:219-221 | the fraction is exactly two digits, the hundredths |
| Money.Fixed2RoundTrip | app.py:219-221 | two-decimal text reads back to its number, grouped or not, negative or not |
| Money.FormatCentsRoundTrip | app.py:220 | the `$` amount text reads back to its cents |
| Money.FormatQtyRoundTrip | app.py:219 | the quantity text reads back to its hundredths |
| Money.FormatQtyPlain | app.py:219 | the quantity text holds only digits, the decimal point and a leading minus: no thousands separators |
| Money.FormatAmountRoundTrip | app.py:221-232 | a printed amount reads back to the amount rounded to cents |
| Money.FormatCentsShape | app.py:220-221 | an amount prints as `$`, a minus only when negative, grouped digits, `.` and two digits |
| Money.RoundToCents | app.py:221 | rounding to cents is within half a cent, ties away from zero |
| Decimal.ZeroPadSpec | app.py:131-132 | zero padding keeps the value, reaches the width and ends with the plain digits |
| Decimal.ValueOfDigits | app.py:131-132 | the decimal digits of n denote n |
| Numbering.Pad4 | app.py:131-132 | `{n:04d}`; stated by `Pad4Digits` and `Pad4Parses` |
| Numbering.FormatPropId | app.py:131 | "P-" and the padded number; stated by `PropIdRoundTrip` |
| Numbering.FormatInvId | app.py:132 | "INV-" and the padded number; stated by `InvIdRoundTrip` |
| Numbering.Pad4Digits | app.py:131-132 | `{n:04d}` of n ≥ 0 is digits denoting n, exactly four for n ≤ 9999, the plain digits above |
| Numbering.Pad4Parses | app.py:131-132 | the padded number, negative ones with their sign, reads back to n |
| Numbering.PropIdRoundTrip | app.py:131 | "P-" + padded number reads back to n, so distinct numbers give distinct references |
| Numbering.InvIdRoundTrip | app.py:132 | "INV-" + padded number reads back to n |
| Numbering.ColumnMax | app.py:127-128 | SQL MAX: None exactly when the column has no number, otherwise a stored number no smaller than any other |
| Numbering.MaxExistingNumber | app.py:126-129 | at least every stored number of both tables, 0 when neither has a number, and otherwise 0 or a stored number |
| Numbering.MaxIsStored | app.py:126-129 | when a non-negative number is stored, the result is a stored number |
| Numbering.NextNumberIsFresh | app.py:126-129 | the maximum plus one is not stored in either table |
| Dates.NextDay | app.py:192 | the next day of a valid date is valid |
| Dates.AddDays | app.py:192 | adding days to a valid date gives a valid date |
| Dates.NextDayOrdinal | app.py:192 | the next day has the next ordinal |
| Dates.AddDaysOrdinal | app.py:192 | adding n days moves the ordinal on by n |
| Dates.AddDaysUnique | app.py:192 | the result is the only valid date n days later |
| Dates.DaysBeforeYearClosedForm | app.py:192 | days before a year match the 365-plus-leap-days closed form |
| Dates.OrdinalMonotone | app.py:192 | earlier dates have smaller ordinals |
| Dates.OrdinalInjective | app.py:192 | distinct dates have distinct ordinals |
| Dates.FormatDate | app.py:192-205 | `%m/%d/%Y`; stated by `FormatDateFields` and `FormatDateInjective` |
| Dates.FormatDateFields | app.py:192 | `%m/%d/%Y` is "MM/DD/YYYY" reading back to month, day and year |
| Dates.FormatDateInjective | app.py:199 | two dates print the same if and only if they are equal |
| Email.Greeting | app.py:143-146 | "Good morning" iff hour < 12, "Good afternoon" iff 12 ≤ hour < 18, "Good evening" iff hour ≥ 18 |
| Email.Salutation | app.py:149 | the message opens with the greeting, a space, the first name and a comma |
| Email.KindWord | app.py:147 | "proposal" exactly for a proposal, "invoice" exactly otherwise |
| Email.FirstName | app.py:142 | the first word is non-empty, has no whitespace, and is "Customer" for None or "" |
| Email.SplitWords | app.py:142 | every word of `split()` is non-empty and free of whitespace |
| Email.SplitEmpty | app.py:142 | `split()` is empty exactly for an all-whitespace string, where `[0]` would raise |
| Email.FirstWordPlace | app.py:142 | the first word sits right after the leading whitespace and runs to the next whitespace or the end |
| Email.LeadingSpaces | app.py:142 | the leading whitespace run is maximal |
| Email.WordLength | app.py:142 | the leading word run is maximal |
| Email.DefaultNameSplit | app.py:142 | the fallback "Customer" is its own first word |

## Left out

- Streamlit UI, session state, the tabs and the form-reset helpers: user interface, not document logic.
- The SQL engine, schema, queries and upserts. `_max_existing_number` works over given columns; the database is not part of this model.
- SMTP sending and the HTML text of the e-mail around the salutation and the proposal/invoice word (fixed boilerplate).
- ReportLab: fonts, colours, image decoding, PDF bytes. Drawing becomes a list of draw commands. The `try/except` around the logo becomes the boolean `logo`.
- Sizes of what is drawn: a position is the anchor the code passes to the canvas (a text baseline, an image's lower-left corner). `Stacking.SignatureBand` and `Stacking.BodyStacked` order these anchors. They say nothing about glyph heights or the signature image's 40-point height, which reaches above its anchor.
- The x offsets in inches are column tags. The header's y offsets are fixed positions in tenths of a point. The flowing part is integer points from the column-heading row.
- Floating point and `Decimal`. Quantities, prices and amounts are exact integers. `Money.RoundToCents` rounds ties away from zero. Python instead rounds what it is given: a float (`float(...)` of quantity, price and deposit, and the subtotal `compute_subtotal` returns) is rounded as its binary value, so a tie may go either way and a small negative amount prints as `-0.00`; a grand total that the database returns as a `Decimal` from its NUMERIC column is rounded half to even, so 10.125 prints as "$10.12" where the model prints "$10.13".
- `textwrap.wrap` is an uninterpreted function. Nothing is assumed about it except in `LayoutFacts.BlankItemLeftOff`, which requires that wrapping "" gives no lines, as `textwrap` does.
- `now_ct()` and its time zone: the issue date, the stamp date and the hour are parameters.
- Dates past year 9999 (Python `date.max`): `AddDays` itself has no upper bound. The facts about printed dates require year ≤ 9999, where `timedelta` arithmetic would otherwise raise OverflowError.
- Items.Item: a key that is present but holds JSON `null` is modelled as a missing key. The source differs there: a null description prints a row reading "None" (with the item's amounts), and a null Qty or Unit Price makes `float(None)` raise TypeError in both `compute_subtotal` and `build_pdf`, where the model counts it as 0.
- `cust_name` of None would print "Customer: None". The model's customer is always a string.
- Email.FirstName: a name made only of whitespace makes `split()[0]` raise IndexError. The model states this as a precondition rather than modelling the exception.
- Numbering.MaxExistingNumber: with negative stored numbers the result can be 0 without being stored. The contract states "0 or a stored number", and `MaxIsStored` gives the stored case whenever some number is non-negative.
- LayoutFacts.InColumn: its own contract says only that the selection is no longer than the list. Its content is pinned down by `InColumnAppend`, `InColumnOne`, `InColumnNone` and the column lemmas built on them.
- LayoutFacts.Printed: its own contract gives the length bound and that every printed item has a line. `AllItemsPrinted` and `TableAmounts` say which items those are.
