# Consulting-company ERP extensions: revenue proration, warranties, consortium invoicing, overtime balance

This project is a Dafny model of four pieces of business logic from a set of
ERP add-on modules. It proves properties of each piece.

- **CRM lead** (`CrmLead.dfy` and `Proration.dfy`). A lead has a revenue, a
  probability, an operating unit and a start and end date.
  - `update_monthly_revenue` walks the inclusive date range one month at a time.
  - For every month segment it emits an expected-revenue line. The line gets
    `revenue * days / total_days` and the same amount weighted by the
    probability.
  - For the same segment it emits a revenue-split record. That record gives
    100 % to the lead's operating unit when the unit is one of four named units.
  - Manual lines are kept.
  - Around it sit the rest of the lead's rules: the date constraint, the
    probability update of a stage change, the operating-unit onchange, the
    "totals differ" button, `recalculate_total`, the latest revenue date set by
    `create`, and `onchange_date`.
  - `Proration` states the walk as pure values: the segments, the lines and the
    split records. `CrmLead.Lead` is a class whose methods update the lead's
    fields. Its loop is proved against `Proration`.
- **Calendar** (`Dates.dfy`): proleptic Gregorian dates, the ordinal day
  number, month arithmetic with clamping, next and previous day, month ends.
- **Equipment warranty** (`Warranty.dfy`, module `Equipment`). The warranty end
  is the purchase date plus the category's duration in months. The day is
  clamped to the target month.
- **Consortium invoicing** (`Consortium.dfy`).
  - An invoice to a partner with consortium members is not posted.
  - Instead, one member invoice per member is created. Each line's unit price
    is scaled by the member's share of the distribution keys, and the account
    switches to the WIP account when the line is invoiced outside its period's
    month.
  - The original invoice is then cancelled.
  - Also modelled: the member-invoice count per parent invoice.
- **Overtime balance report** (`OvertimeReport.dfy`). The database view joins
  time lines with overtime projects and groups them per (date, user). It sums
  the hours taken and the hours earned, and takes their difference. The view is
  stated as a one-pass aggregation and proved equal to reference per-group sums.

`Wrappers.dfy` holds the `Option`, `Result` and `Outcome` types.

## Model

| member | source | states |
|---|---|---|
| Dates.DaysInMonth | ps_equipment/models/maintenance_equipment.py:50 | A month has 28 to 31 days; it has 29 exactly when it is February of a leap year |
| Dates.AddMonths | ps_equipment/models/maintenance_equipment.py:47-50 | Adding n months gives a month in 1..12 whose running month number (year*12 + month-1) is n more than the input's, with the day clamped to the target month's length |
| Dates.NextDay | ps_crm/models/crm_lead.py:269 | The day after a valid date is a valid date |
| Dates.PrevDay | ps_crm/models/crm_lead.py:216-217 | The day before any date other than 0001-01-01 is a valid date |
| Dates.MonthEnd | ps_crm/models/crm_lead.py:169-171 | The last day of a date's month is a valid date |
| Dates.MonthEndFormula | ps_crm/models/crm_lead.py:169-171 | The month-end expression of `update_monthly_revenue` (one month on, first of that month, one day back) is the last day of the date's own month |
| Dates.OrdinalOrder | ps_crm/models/crm_lead.py:20 | Comparing two valid dates is comparing their day numbers, and two dates are equal exactly when their day numbers are |
| Dates.NextDayOrdinal | ps_crm/models/crm_lead.py:269 | The next day's day number is one more |
| Dates.PrevDayOrdinal | ps_crm/models/crm_lead.py:216-217 | The previous day's day number is one less |
| Dates.WithinMonth | ps_crm/models/crm_lead.py:169-173 | A date lies between the first and last day of its month |
| Dates.AfterMonthEnd | ps_crm/models/crm_lead.py:269-272 | The day after a month's last day is the first day of the next month |
| Dates.PreviousMonthEnd | ps_crm/models/crm_lead.py:216-217 | The day before the first of a month is the last day of the previous month |
| Equipment.WarrantyDate | ps_equipment/models/maintenance_equipment.py:44-51 | An unset purchase date is an error. A result is a Python-range date whose month number is the purchase month number plus the duration, and its day is the purchase day clamped to the target month. A failure happens exactly when the target year is outside 1..9999 |
| Equipment.WarrantyDateUnique | ps_equipment/models/maintenance_equipment.py:47-50 | These facts fix the warranty date: no other date has them |
| Equipment.WarrantyZero | ps_equipment/models/maintenance_equipment.py:47-51 | A duration of 0 gives the purchase date itself |
| Equipment.WarrantyKeepsDay | ps_equipment/models/maintenance_equipment.py:50 | When the purchase day exists in the target month, the day is kept |
| Equipment.WarrantyLeapDay | ps_equipment/models/maintenance_equipment.py:50 | A 29 February plus 12 months is 28 February of the next year |
| Equipment.WarrantyCompose | ps_equipment/models/maintenance_equipment.py:47-50 | Two warranty periods in a row equal their sum, as long as the first does not clamp the day |
| Proration.SegmentEnd | ps_crm/models/crm_lead.py:169-173 | Where a segment ends is a valid date |
| Proration.SegmentEndFacts | ps_crm/models/crm_lead.py:169-276 | A segment never ends after the end date. With start <= end it stays in the start's month and no earlier than the start. When the walk goes on, the segment ended at its month's end and the next start lies after the start and no later than the end; when it stops, the segment ended on the end date. A start after the end gives the one segment (start, end) |
| Proration.Segments | ps_crm/models/crm_lead.py:180-276 | The walk has at least one segment; the first runs from the start date to its segment end, and every segment is made of valid dates |
| Proration.SegmentsEnd | ps_crm/models/crm_lead.py:169-173 | Every segment ends at the last day of its start's month, or at the end date if that is earlier |
| Proration.SegmentsTail | ps_crm/models/crm_lead.py:269-274 | Past the first segment, the walk repeats from the first day of the next month, which lies after the start and no later than the end |
| Proration.SegmentsWithinMonth | ps_crm/models/crm_lead.py:169-173 | With start <= end, every segment lies inside one calendar month and within [start, end], and starts no later than it ends |
| Proration.SegmentsStartMonth | ps_crm/models/crm_lead.py:269-272 | Every segment but the first starts on the first of a month |
| Proration.SegmentsContiguous | ps_crm/models/crm_lead.py:269 | Each segment starts the day after the previous one ends |
| Proration.SegmentsLast | ps_crm/models/crm_lead.py:273-276 | With start <= end the last segment ends on the end date; with start > end there is the single segment (start, end) |
| Proration.SegmentsCoverRange | ps_crm/models/crm_lead.py:176 | The segments' day counts add up to total_days, whatever the order of start and end |
| Proration.SegmentsPerMonth | ps_crm/models/crm_lead.py:180-276 | With start <= end there is one segment per calendar month from the start's month to the end's |
| Proration.PortionBounds | ps_crm/models/crm_lead.py:193-195 | For a nonnegative revenue and a segment no longer than the whole range, a line's expected revenue lies between 0 and the revenue |
| Proration.WeightedIsScaledPortion | ps_crm/models/crm_lead.py:196-198 | The weighted revenue is the expected revenue times probability / 100 |
| Proration.ComputedLine | ps_crm/models/crm_lead.py:192-227 | A segment's line is a computed line dated on the segment's end, at the lead's probability. It carries the segment's share of the revenue and that share weighted by the probability, and its label counts the segment's days in the singular exactly for one day |
| Proration.LinesOfAt | ps_crm/models/crm_lead.py:210-227 | The i-th line is the line of the i-th segment |
| Proration.ComputedLines | ps_crm/models/crm_lead.py:180-227 | One line per segment of the walk |
| Proration.ComputedLinesAreComputed | ps_crm/models/crm_lead.py:223 | Every generated line is marked computed |
| Proration.ComputedLineDates | ps_crm/models/crm_lead.py:214-226 | Each generated line is dated on its segment's end, in percentage and fiscal ids, and its latest revenue date is the last day of the previous month |
| Proration.LinesSumToProrated | ps_crm/models/crm_lead.py:176-195 | In exact arithmetic the generated lines' expected revenues add up to the lead's prorated revenue |
| Proration.SplitLine | ps_crm/models/crm_lead.py:229-268 | A split record carries the line's revenue at 100 %. Each of the four units gets 100 % and the whole amount when its name is the lead's unit, and 0 otherwise |
| Proration.AssignUnit | ps_crm/models/crm_lead.py:105-125 | The onchange keeps the record's month and totals; each unit gets 100 % of the record's total when named like the lead's unit, and 0 otherwise |
| Proration.SplitsOf | ps_crm/models/crm_lead.py:250-268 | One split record per line |
| Proration.SplitsOfAt | ps_crm/models/crm_lead.py:250-268 | The i-th split record is the one of the i-th line |
| Proration.SplitsOfTotals | ps_crm/models/crm_lead.py:256 | Each split record's total is its line's expected revenue |
| Proration.AtMostOneUnit | ps_crm/models/crm_lead.py:237-248 | At most one unit of a split record has a nonzero percentage |
| Proration.AssignUnitFixesSplit | ps_crm/models/crm_lead.py:105-125 | The unit onchange leaves a record generated for the same unit unchanged |
| Proration.AssignUnitIdempotent | ps_crm/models/crm_lead.py:105-125 | Applying the unit onchange twice equals applying it once |
| Proration.WalkStop | ps_crm/models/crm_lead.py:273-274 | When the day after the segment is past the end date, the segments walked so far are the whole walk |
| Proration.WalkContinue | ps_crm/models/crm_lead.py:269-276 | Otherwise the walk continues from that day, one segment further and strictly closer to the end |
| CrmLead.CheckDates | ps_crm/models/crm_lead.py:16-21 | The date constraint; what it accepts and rejects is stated by CheckDatesTotalDays and CheckDatesUnset |
| CrmLead.CheckDatesTotalDays | ps_crm/models/crm_lead.py:16-21 | The date constraint accepts two set dates exactly when total_days is at least 1; otherwise it raises the end-before-start error |
| CrmLead.CheckDatesUnset | ps_crm/models/crm_lead.py:20 | A missing date on either side is always accepted |
| CrmLead.Round2 | ps_crm/models/crm_lead.py:148-149 | Rounding to cents gives a whole number of cents within half a cent of the value |
| CrmLead.Round2Cents | ps_crm/models/crm_lead.py:285-287 | A whole number of cents rounds to itself |
| CrmLead.Round2Idempotent | ps_crm/models/crm_lead.py:285-287 | Rounding a rounded value changes nothing |
| CrmLead.TotalsDiffer | ps_crm/models/crm_lead.py:148-150 | The rounded-totals comparison behind the button; GeneratedLinesAgree, LinesAgree and RecalculatedTotalsAgree state when it holds |
| CrmLead.GeneratedLinesAgree | ps_crm/models/crm_lead.py:146-153 | With the freshly generated lines the totals never differ. With manual lines beside them, they differ exactly when the manual lines shift the rounded total |
| CrmLead.LinesAgree | ps_crm/models/crm_lead.py:146-153 | Lines adding up to the revenue agree with it, and manual lines beside them shift only by their own sum |
| CrmLead.RecalculatedTotalsAgree | ps_crm/models/crm_lead.py:280-288 | Once the rounded line sum is the prorated revenue, the totals no longer differ |
| CrmLead.ManualLines | ps_crm/models/crm_lead.py:164-167 | The kept lines are all manual and no more than the lines |
| CrmLead.ManualLinesMembers | ps_crm/models/crm_lead.py:164-167 | A line is kept exactly when it is one of the lead's lines and not computed |
| CrmLead.ManualLinesAppend | ps_crm/models/crm_lead.py:164-167 | Selecting manual lines distributes over concatenation |
| CrmLead.ManualLinesIdempotent | ps_crm/models/crm_lead.py:164-167 | Selecting manual lines twice equals selecting them once |
| CrmLead.ManualLinesOfComputed | ps_crm/models/crm_lead.py:164-167 | Generated lines hold no manual line |
| CrmLead.ComputedThenManual | ps_crm/models/crm_lead.py:277-278 | Putting computed lines before the kept manual lines keeps exactly those manual lines, and the split records line up with the computed lines and carry their revenue |
| CrmLead.LatestLineDate | ps_crm/models/crm_lead.py:139-142 | There is no latest date exactly when no line is dated. Otherwise the latest date is some line's date and no dated line is after it |
| CrmLead.WithPercentage | ps_crm/models/crm_lead.py:88-89 | Every line keeps everything but its percentage, which becomes the stage's probability |
| CrmLead.AssignUnitAll | ps_crm/models/crm_lead.py:105-125 | Every split record is reassigned to the lead's unit, one for one |
| CrmLead.AssignUnitAllFixesGenerated | ps_crm/models/crm_lead.py:105-268 | The unit onchange leaves the records generated for the same unit unchanged |
| CrmLead.EmitMonth | ps_crm/models/crm_lead.py:192-268 | One pass of the loop produces exactly the segment's line and its split record |
| CrmLead.WalkStep | ps_crm/models/crm_lead.py:180-276 | One pass of the loop keeps the invariant (the segments walked, the lines and the split records so far), and the loop stops exactly when the walk is complete |
| CrmLead.WalkMonths | ps_crm/models/crm_lead.py:169-276 | The loop fails with a division by zero exactly when total_days is 0. Otherwise it yields one line per month segment of the walk and one split record per line |
| CrmLead.Regenerate | ps_crm/models/crm_lead.py:155-278 | The new lines and split records of `update_monthly_revenue`, which Lead.UpdateMonthlyRevenue is proved to produce; RegenerateKeepsManual states its three cases |
| CrmLead.RegenerateKeepsManual | ps_crm/models/crm_lead.py:155-278 | A regeneration keeps exactly the manual lines. With a date unset it changes nothing and succeeds (line 160). With a zero total_days it changes nothing and reports the division by zero. Otherwise it succeeds, every line before the manual ones is computed, and there is one split record per computed line carrying its revenue |
| CrmLead.Lead.Create | ps_crm/models/crm_lead.py:136-144 | The new lead holds the given values, and its latest revenue date is the latest dated line's date when some line is dated |
| CrmLead.Lead.ApplyProbability | ps_crm/models/crm_lead.py:84-89 | The stage's probability is copied to every monthly line, nothing else changes |
| CrmLead.Lead.OnchangeOperatingUnit | ps_crm/models/crm_lead.py:102-125 | Each split record is reset and reassigned to the lead's unit |
| CrmLead.Lead.OnchangeMonthlyRevenues | ps_crm/models/crm_lead.py:146-153 | The button shows exactly when the rounded line sum differs from the rounded revenue |
| CrmLead.Lead.RecalculateTotal | ps_crm/models/crm_lead.py:280-288 | When the totals differ, the rounded line sum becomes the revenue and the button is hidden; otherwise nothing changes; afterwards the totals never differ |
| CrmLead.Lead.UpdateMonthlyRevenue | ps_crm/models/crm_lead.py:155-278 | The lead's lines and split records become those of the regeneration: untouched when a date is unset or total_days is 0 (a division-by-zero error), otherwise the walk's lines before the kept manual lines, with their split records. RegenerateKeepsManual states what this keeps |
| CrmLead.Lead.OnchangeDate | ps_crm/models/crm_lead.py:290-298 | When the start is set, the stored end is unset and the start is after the end, the end is moved to the start; then the lines are regenerated. Comparing a set start with an unset end is an error that changes nothing. After a move that succeeds the range has at least one day |
| OvertimeReport.RowsOf | ps_timesheet_invoicing/report/overtime_balance_report.py:52-55 | A line's joined rows are exactly its rows with the projects booked on its account that are flagged overtime or overtime hours |
| OvertimeReport.IncludedMembers | ps_timesheet_invoicing/report/overtime_balance_report.py:52-55 | The filtered join holds exactly the (line, project) pairs that join and pass the WHERE clause |
| OvertimeReport.Report | ps_timesheet_invoicing/report/overtime_balance_report.py:38-51 | In every row the balance is the hours earned minus the hours taken |
| OvertimeReport.AggregateKeys | ps_timesheet_invoicing/report/overtime_balance_report.py:56 | The one-pass aggregate has a group exactly for the keys some joined row has |
| OvertimeReport.AggregateSums | ps_timesheet_invoicing/report/overtime_balance_report.py:26-37 | Each group's running sums are the reference conditional sums over the group's rows |
| OvertimeReport.ColumnSumOutside | ps_timesheet_invoicing/report/overtime_balance_report.py:26-37 | A key no row has sums to 0 |
| OvertimeReport.AggregateMinId | ps_timesheet_invoicing/report/overtime_balance_report.py:23 | A group's id is the id of one of its rows and no larger than the id of any of them |
| OvertimeReport.ReportKeys | ps_timesheet_invoicing/report/overtime_balance_report.py:52-56 | The view has a row for a (date, user) exactly when a line of that date and user joins an overtime project |
| OvertimeReport.ReportId | ps_timesheet_invoicing/report/overtime_balance_report.py:23 | A row's id is the smallest id among the group's joined lines |
| OvertimeReport.ReportSums | ps_timesheet_invoicing/report/overtime_balance_report.py:26-37 | Hours taken and hours earned are the conditional sums over the group's joined rows: unit amounts in hours of overtime, resp. overtime-hours, projects |
| OvertimeReport.ColumnSumAppend | ps_timesheet_invoicing/report/overtime_balance_report.py:26-37 | A conditional sum over two row sets is the sum of the two |
| OvertimeReport.ColumnSumNonHour | ps_timesheet_invoicing/report/overtime_balance_report.py:26-37 | Rows not in hours add nothing to either sum |
| OvertimeReport.NonHourLine | ps_timesheet_invoicing/report/overtime_balance_report.py:26-56 | A line not in hours that joins an overtime project makes its group appear and leaves every existing group's sums unchanged |
| OvertimeReport.RowsOfUnmatched | ps_timesheet_invoicing/report/overtime_balance_report.py:52-55 | A line that joins no overtime project has no joined rows |
| OvertimeReport.UnmatchedLine | ps_timesheet_invoicing/report/overtime_balance_report.py:55 | A line that joins no overtime project leaves the view unchanged |
| Consortium.MatchingMembers | ps_partner_multi_relation/models/account_move.py:28-33 | The relation search finds exactly the relations of that left partner and type |
| Consortium.MembersSharingKey | ps_partner_multi_relation/models/account_move.py:25-39 | The loop over the found relations builds exactly the dictionary that the lemmas below characterise: its total, its entry per member and the division by zero |
| Consortium.SharingKey | ps_partner_multi_relation/models/account_move.py:25-39 | The members dictionary; SharesOfPartners, ShareOfMember, SharesSumToOne, SharingKeyNoRelations and PostZeroDivision state its entries, total and error |
| Consortium.PutLookup | ps_partner_multi_relation/models/account_move.py:36-38 | Updating the dictionary sets that member's value and no other |
| Consortium.PutNew | ps_partner_multi_relation/models/account_move.py:36-38 | A new member is added at the end |
| Consortium.SharesOfPartners | ps_partner_multi_relation/models/account_move.py:35-38 | The dictionary has an entry exactly for the right partners of the relations |
| Consortium.ShareOfMember | ps_partner_multi_relation/models/account_move.py:35-38 | A member's share is the key of its last relation divided by the total |
| Consortium.SharesOfDistinct | ps_partner_multi_relation/models/account_move.py:35-38 | Each member appears once in the dictionary |
| Consortium.ShareTotalScaled | ps_partner_multi_relation/models/account_move.py:34-38 | With each member related once, the shares add up to the key total divided by the divisor |
| Consortium.SharesSumToOne | ps_partner_multi_relation/models/account_move.py:34-38 | With each member related once and a nonzero total, the shares add up to 1 |
| Consortium.SharingKeyNoRelations | ps_partner_multi_relation/models/account_move.py:27-39 | A partner without relations gets an empty dictionary and never an error |
| Consortium.SharingKeyEmpty | ps_partner_multi_relation/models/account_move.py:130-137 | The dictionary is empty exactly when the search finds no relation |
| Consortium.SharingKeyDistinct | ps_partner_multi_relation/models/account_move.py:35-38 | Every members dictionary has one entry per member |
| Consortium.PrepareMemberInvoiceLine | ps_partner_multi_relation/models/account_move.py:41-71 | The values of one member line; MemberLineOf states its fields, price, account and error |
| Consortium.MemberLineOf | ps_partner_multi_relation/models/account_move.py:41-71 | A member line copies the name, product, quantity, unit, discount and analytics, points at the member invoice and has the unit price times the share. Its account is the WIP one exactly when a period is set and the invoice month differs from the period's month. A period with no date to compare is an error |
| Consortium.MemberLinesShape | ps_partner_multi_relation/models/account_move.py:113-116 | The member lines are one per invoice line, in order, each prepared from its line |
| Consortium.FirstSaleJournalFinds | ps_partner_multi_relation/models/account_move.py:76-78 | The journal search finds nothing exactly when the company has no sale journal, and otherwise a sale journal of that company |
| Consortium.PrepareMemberInvoice | ps_partner_multi_relation/models/account_move.py:73-105 | The values of one member invoice; MemberInvoiceVals states its fields and the sale-journal error |
| Consortium.MemberInvoiceVals | ps_partner_multi_relation/models/account_move.py:73-105 | The sale-journal error is raised exactly when the invoice has no journal and the member's company has no sale journal. Otherwise the values point at the split invoice, use the member's company (else the invoice's), the invoice's journal or else a sale journal of that company, and the member's invoice address and user |
| Consortium.CreateMemberInvoice | ps_partner_multi_relation/models/account_move.py:107-119 | The creation of one member invoice with its lines; CreatedInvoice states its id, member, parent and prices |
| Consortium.CreatedInvoice | ps_partner_multi_relation/models/account_move.py:107-119 | A created member invoice has its new id, belongs to the member, points at the split invoice and has one line per invoice line, each at the unit price times the share |
| Consortium.CreatedForPrices | ps_partner_multi_relation/models/account_move.py:152-154 | The member invoices of one invoice each carry their member's share of every line's price |
| Consortium.ScaledAtCons | ps_partner_multi_relation/models/account_move.py:153-154 | A member invoice carrying its share followed by others that carry theirs all carry their shares |
| Consortium.LinePriceSumScaled | ps_partner_multi_relation/models/account_move.py:52 | Over invoices each carrying its share of a price, that line's unit prices add up to the price times the sum of the shares |
| Consortium.SplitPricesAddUp | ps_partner_multi_relation/models/account_move.py:52 | When the shares sum to 1, splitting a line keeps its price |
| Consortium.MemberPricesAddUp | ps_partner_multi_relation/models/account_move.py:34-154 | Over the member invoices of an invoice whose members are each related once, a line's unit prices add up to the line's own unit price |
| Consortium.ChildCountNone | ps_partner_multi_relation/models/account_move.py:12-14 | A record's count is 0 exactly when no record names it as its parent |
| Consortium.ChildCountAppend | ps_partner_multi_relation/models/account_move.py:9-12 | Counting children over two record sets adds the counts |
| Consortium.ComputeMemberInvoice | ps_partner_multi_relation/models/account_move.py:8-14 | Each invoice's member-invoice count is the number of records whose parent it is |
| Consortium.SharesTableShape | ps_partner_multi_relation/models/account_move.py:130-137 | The lookups of all invoices succeed exactly when each does; a failure is the division by zero; otherwise each invoice gets its own dictionary |
| Consortium.MembersOfAll | ps_partner_multi_relation/models/account_move.py:130-137 | The loop over the invoices builds exactly the table whose shape SharesTableShape states: one dictionary per invoice, or the division by zero |
| Consortium.CreateFor | ps_partner_multi_relation/models/account_move.py:153-154 | The loop over the members creates exactly the member invoices whose prices and counts CreatedForPrices and CreatedForCounts state, or the first error |
| Consortium.CreateAll | ps_partner_multi_relation/models/account_move.py:152-154 | The loop over the invoices to split creates exactly the member invoices whose counts CreatedAllCounts states, or the first error |
| Consortium.Settled | ps_partner_multi_relation/models/account_move.py:139-156 | The state one invoice ends in; PostSettles states it for every invoice of a successful post |
| Consortium.Settle | ps_partner_multi_relation/models/account_move.py:139-156 | Every invoice is settled on its own: one result per invoice, in order, each being that invoice's settled state |
| Consortium.SelectIdsMembers | ps_partner_multi_relation/models/account_move.py:158 | An invoice is returned exactly when it was selected |
| Consortium.PostOutcome | ps_partner_multi_relation/models/account_move.py:121-158 | The outcome of `_post`: the dictionary lookups, the draft check, the member invoices created, the settled invoices and the returned ids. PostCreatesPerMember, PostSettles, PostReturns, PostRejectsNonDraft and PostZeroDivision state its properties |
| Consortium.Post | ps_partner_multi_relation/models/account_move.py:121-158 | Posting computes exactly the outcome whose properties PostCreatesPerMember, PostSettles, PostReturns, PostRejectsNonDraft and PostZeroDivision state |
| Consortium.CreatedForCounts | ps_partner_multi_relation/models/account_move.py:153-154 | The member invoices of one invoice all point at it, one per member |
| Consortium.CreatedAllElsewhere | ps_partner_multi_relation/models/account_move.py:152-154 | No member invoice points at a record outside the batch |
| Consortium.CreatedAllCounts | ps_partner_multi_relation/models/account_move.py:144-154 | Each invoice to split gets one member invoice per member and one per (invoice, member) pair; the others get none |
| Consortium.PostCreatesPerMember | ps_partner_multi_relation/models/account_move.py:144-154 | After a successful post, every split invoice was a draft and got exactly one member invoice per member; every other invoice got none |
| Consortium.PostSettles | ps_partner_multi_relation/models/account_move.py:139-156 | After a successful post an invoice without relations is posted. One with members that was not open was a draft and is cancelled, and one already open is left as it was |
| Consortium.PostReturns | ps_partner_multi_relation/models/account_move.py:139-158 | The invoices returned are all but the open ones with members |
| Consortium.PostRejectsNonDraft | ps_partner_multi_relation/models/account_move.py:144-150 | An invoice with members that is neither draft nor open makes the post fail |
| Consortium.PostZeroDivision | ps_partner_multi_relation/models/account_move.py:34-137 | An invoice whose partner's keys sum to zero makes the post divide by zero |

## Left out

- Database, ORM and UI mechanics are not modelled: the SQL view creation, `read_group`, record creation and writes, `ensure_one`, and the user notification of a stage change. Records are values; a write is a field assignment of the `Lead` class or a value in a result.
- `_compute_dept_ou_domain`, `default_get`, `onchange_partner` and `onchange_contact` are not modelled; they are database and address lookups with no rule of their own.
- `update_monthly_revenue` parses its dates with `datetime.strptime` (ps_crm/models/crm_lead.py:161-162). The fields are `fields.Date` (lines 59-60), which hold `date` objects, and `strptime` raises a TypeError on a non-string, so as written the method raises whenever both dates are set. The model gives the month walk that the parsing was written for, on already-parsed dates.
- Python's year limits 1..9999 are modelled for the warranty date (where `date()` raises) but not in the CRM walk, whose dates are assumed to stay in range.
- Floating point is not modelled: revenues, keys and prices are exact reals, and `round(x, 2)` is exact rounding half to even.
- The fiscal month and year lookups (`date.range` searches) are parameters of the walk, functions from a date to an optional id. The company fallback that feeds them is therefore not modelled.
- The month name in the duration label is locale formatting; the label keeps the month as a number.
- The One2many writes are modelled as replacing the field. At ps_crm/models/crm_lead.py:277 the code writes `(0, 0, vals)` create commands with `(4, id)` link commands, and at line 278 only create commands. Neither list has a command that removes a record (`(5,)`, `(6, 0, ids)` or `(2, id)`). So as written the lead's earlier computed lines and split records stay beside the new ones. CrmLead.Regenerate and CrmLead.Lead.UpdateMonthlyRevenue give the replacement that the code evidently intends: the new computed lines followed by the kept manual lines, and only the new split records.
- CrmLead.WalkMonths: the division by zero is detected before the loop, instead of on the loop's first pass; nothing has changed at that point either way.
- The new ids of created member invoices are the consecutive numbers from a given first id.
- `action_view_member_invoice` is not modelled; it builds a window action.
- The invoice posting of the base class is modelled as the state Posted, and `button_cancel` as the state Cancel; their own checks are not modelled.
- `address_get`, the pricelist currency and the WIP journal are fields of the partner, the company and the product.
- `strftime("%Y-%m")` comparisons are comparisons of (year, month). An unset date there makes `_prepare_member_invoice_line` raise an AttributeError (`strftime` of `False`); the model returns the error MissingInvoiceDate instead.
- SQL NULLs are not modelled, and the join through the analytic account is an equality of ids.
- Consortium.SharesSumToOne: requires each member to be related once. With a repeated member the dictionary keeps only that member's last key while the total counts every key, so the shares do not sum to one.
- Consortium.MemberPricesAddUp: requires each member to be related once, for the same reason.
