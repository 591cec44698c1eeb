# BillGen: the fiscal ledger and its money arithmetic

BillGen is an invoicing system for Belgian businesses. This project models the part of it that the
tax office reads, and proves what that part promises:

* **The ledger** (`Store`, `Transactions`, `Services`, `LedgerInvariant`, `LedgerHistory`,
  `LedgerReferences`, `SeriesReferences`, `LedgerKeys`, `LedgerDocuments`, `LedgerEffects`, `DocumentEffects`,
  `QuoteEffects`, `Refusals`, `Frames`). Companies, clients, invoices, quotes, credit
  notes, payments and one counter per scope live in one store. Every use case is a unit of work: it
  stages changes and commits or rolls back. `Transactions` says what each command does to the committed
  store; `Services` holds the classes whose methods change `staged` and `committed` step by step, drawing
  numbers before anything that can still fail, and are proved to do exactly that. A run is any sequence of
  commands, refused ones included.
* **The money engine** (`Money`, `Lines`, `Grouping`, `CurrencyMath`, `UblBuilder`, `PlainAmounts`, `Decimals`). Amounts before rounding are
  `real`; quantized amounts are integers of the currency's smallest unit. The e-invoicing builder
  repeats the allocation of the document discount and patches a rounding residual into the largest group.
* **What is built on the ledger**: quote conversion as interleaved processes that may crash
  (`Conversion`, `ConversionDrafts`), the VAT return and the sales reports (`Periods`, `VatReports`, `VatReturns`,
  `Reports`, `LedgerReports`), backup and restore (`BackupIds`, `BackupCodec`, `LedgerCopy`, `Backup`,
  `BackupServices`, `BackupTexts`, `BackupReachable`, `BackupFields`), the legacy import (`LegacyImport`).
* **Three protocols and checks beside it**: the quota lock (`Quota`, `PeppolExports`), the sliding-window limiter
  (`RateLimit`) and the modulo-97 identifiers (`Identifiers`). `Numbering`, `Compliance`, `Calendar`,
  `Text` and `Common` serve several of these.

Each method that follows a loop or an update of the source is proved against a specification function or
predicate; what the source promises is then proved of that specification, over every run, every input or
every interleaving. `PlainAmounts`, `LedgerEffects`, `DocumentEffects`, `QuoteEffects`, `Refusals`, `VatReturns`,
`LedgerReports` and `BackupFields` say what the specifications come to without using their own terms: in quantities,
prices and rates, in the fields of the rows and of the requests, and in day numbers. A date is a valid Gregorian date; today's date, the clock and the identifiers that
uuid4 returns are parameters. `usedIds` in a store records the identifiers handed out so far, so that
"uuid4 does not repeat itself" is the refusal of a used identifier.

## Where the code and its documentation differ

The model follows the code in each of these, and each is a lemma.

* `discount_amount` says its result is never negative. It is, for a fixed discount or a positive
  percentage on a negative base, and exactly then (`Money.DiscountNonNegativeIff`).
* `_allocated_line_nets` says it mirrors the engine. Line by line it does if and only if the lines' net before
  the document discount is not negative, or nothing is spread, or all lines have the same net
  (`UblBuilder.SpreadsAgreeIff`). The tax of the XML is the frozen tax, before rounding, if and only if that net
  is not negative, or nothing is spread, or the mean of the rates weighted by the nets is their plain mean
  (`UblBuilder.TaxAgreesIff`). A ledger with a numbered invoice whose row says 6.30 and whose XML says 0.00 is
  reached from an empty organization in four transactions (`LedgerDocuments.MisstatedIsReachable`).
* The builder says its patched parts sum exactly to the quantized allowance. They do if and only if no
  patched part is negative (`UblBuilder.AllowanceExactIff`); four groups of 1.00 under a 0.6 % discount
  are 3 cents instead of 2 (`UblBuilder.SmallAllowanceIsOverstated`).
* A line of the category "not subject" has no legal mention in the table, so the gate always refuses it
  (`Compliance.LineBlocksIff`).
* `convert` says "once" and "two transactions". There are three steps, a read and two transactions. A quote is
  marked once (`Conversion.ConvertedAtMostOnce`), by a mark that finds it accepted and by no other
  (`ConversionDrafts.MarkTakesIff`), but its drafts can be several (`Conversion.RaceLeavesTwoDrafts`): along a
  run there are two or more if and only if a conversion that drafts read the quote before the mark of another
  that drafts, or after such a one had crashed unmarked (`ConversionDrafts.TwoDraftsIff`).
* A credit note is said to cancel its invoice on its own. In the VAT return it does if and only if nothing was
  deducted from the invoice or, with a negative net before the document discount, the parts of that discount make
  up for the line discounts under every key (`VatReports.NoteCancelsIff`).
* A repeated Peppol export is said to be free even at the cap. It is, whatever happens between its look-up and
  its write, when the look-up finds the invoice counted this month (`PeppolExports.ReexportIsFree`); it is refused
  if and only if the look-up did not find it and the allowance is spent at the check (`PeppolExports.RefusedIff`),
  which is what happens to the second of two first exports (`PeppolExports.RacingReexportIsRefused`).
* Usage stays within the limit (`Quota.UsageStaysWithinLimit`), except that the end of a month can cost one export
  too many: for every limit, if and only if a free export was still unwritten when the month ended
  (`PeppolExports.MonthEndOverrunsIff`).
* The import preview is said to predict the commit. It does if and only if no child name recurs in a
  later block for the same company (`LegacyImport.PreviewPredictsIff`).
* The restore walk rewrites any text shaped like an identifier, not only identifiers
  (`BackupIds.TextUnchangedIff`). A restore changes nothing else if and only if no name, comment, reason,
  description or reference of the ledger has that shape (`BackupTexts.TextsSurviveIff`). It succeeds whatever the
  texts are, unless two references of a company become one (`Backup.RestoredIff`), which no reachable ledger is
  exposed to, because no reference the program forms can have the shape (`BackupReachable.ReachableRestore`).
* The audit log is said to be exported in full; entries beyond the newest million do not travel
  (`Backup.RestoreOfExport`).
* A limit of zero or less switches off the failure budget of the sign-in paths as well
  (`RateLimit.RefusedIff`).

## Model

| member | source | states |
|---|---|---|
| `Money.RoundHalfEven` | core/rules/currency_math.py:46-51 | rounding to the smallest unit is off by at most half a unit, and a tie goes to an even number |
| `Money.RoundHalfEvenUnique` | core/rules/currency_math.py:46-51 | those two facts determine the rounded value |
| `Money.RoundHalfEvenMonotone` | core/rules/currency_math.py:46-51 | rounding never reverses an order |
| `Money.QuantizeMajor` | core/rules/currency_math.py:46-51 | an amount that is already a whole number of units is left alone |
| `Money.QuantizePairDrift` | core/rules/currency_math.py:46-51 | rounding a sum and rounding its two terms differ by at most one unit |
| `Money.QuantizesDrift` | core/rules/currency_math.py:46-51 | the sum of k rounded amounts is within (k + 1) / 2 units of the rounded sum |
| `Money.DiscountNonNegativeIff` | core/rules/discounts.py:8-17 | exactly when a discount amount is not negative, for every base and discount |
| `Money.DiscountAtMostBase` | core/rules/discounts.py:8-17 | on a non-negative base a discount of at most 100 % stays between nothing and the base |
| `CurrencyMath.Allocate` | core/rules/currency_math.py:108-135 | the loop returns gross, line discount, document discount and the allocated net of each line as specified by share of the net |
| `CurrencyMath.InvoiceTotals` | core/rules/currency_math.py:68-105 | the loops compute the five totals, each rounded once from an exact sum |
| `CurrencyMath.VatBreakdown` | core/rules/currency_math.py:87-97 | the rate dictionary holds, for each rate, the sum of the VAT of that rate's lines |
| `CurrencyMath.SharesAddToOne` | core/rules/currency_math.py:126-131 | the shares of the document discount add up to one, even when the net is zero |
| `CurrencyMath.SpreadConserves` | core/rules/currency_math.py:126-135 | spreading a discount by shares takes exactly discount times the sum of shares off the nets |
| `CurrencyMath.AllocationConserves` | core/rules/currency_math.py:108-135 | allocated nets add up exactly to gross minus line discounts minus document discount, before rounding |
| `CurrencyMath.HeadlineDrift` | core/rules/currency_math.py:87-105 | the total including VAT differs from net plus VAT by at most one unit |
| `CurrencyMath.HeadlineDriftIsReached` | core/rules/currency_math.py:87-105 | one line of half a cent at 100 % reaches that difference |
| `CurrencyMath.SingleRateVat` | core/rules/currency_math.py:87-97 | with a single rate, VAT on the lines is VAT on the net |
| `CurrencyMath.AccumulateByKey` | core/rules/currency_math.py:147-156 | the bucket loop keeps one slot per (category, rate), in order of first use, holding the group's net and VAT |
| `CurrencyMath.VatBuckets` | core/rules/currency_math.py:138-165 | the buckets are the groups' sums, rounded once, in sorted order |
| `CurrencyMath.BucketKeysCover` | core/rules/currency_math.py:157-165 | the bucket keys are strictly sorted and are exactly the lines' (category, rate) pairs |
| `CurrencyMath.BucketsConserve` | core/rules/currency_math.py:147-165 | before rounding, bucket bases add up to the net and bucket VAT to the VAT of the invoice |
| `CurrencyMath.BucketDrift` | core/rules/currency_math.py:147-165 | after rounding, k buckets are within (k + 1) / 2 units of the totals (rule BR-CO-14 of EN 16931-1) |
| `CurrencyMath.TotalsNonNegative` | core/rules/currency_math.py:68-105 | with percentages of at most 100 every total is non-negative and the discount is at most the subtotal |
| `PlainAmounts.TotalsInFields` | core/rules/currency_math.py:68-105 | subtotal, discount and net are within half a smallest unit of the sum of quantity times unit price, of the line discounts plus the document discount on what they leave, and of the difference |
| `PlainAmounts.SplittingKeepsSubtotal` | core/rules/currency_math.py:120-123 | splitting a line into two of the same price, anywhere in an invoice, leaves the subtotal |
| `PlainAmounts.NetsInProportion` | core/rules/currency_math.py:125-135 | while the net is positive every line keeps the same fraction of its own net; otherwise every line gives up the same part |
| `PlainAmounts.TaxInFields` | core/rules/currency_math.py:87-105 | the VAT and the total are within half a unit of net times rate in per cent, over all lines |
| `PlainAmounts.BreakdownInFields` | core/rules/currency_math.py:87-105 | the breakdown has an entry for exactly the rates of the lines, within half a unit of the tax at that rate |
| `PlainAmounts.BucketsInFields` | core/rules/currency_math.py:138-165 | one VAT bucket for each category and rate of the lines and for no other, stating their net and the tax of that rate on it |
| `UblBuilder.AllocatedLineNets` | core/einvoicing/ubl_builder.py:138-150 | the builder's own allocation, with its two early returns |
| `UblBuilder.SpreadsAgreeIff` | core/einvoicing/ubl_builder.py:138-150 | the builder's nets equal the engine's line by line if and only if the net before the document discount is not negative, or the document discount is zero, or all lines have the same net |
| `UblBuilder.AllowanceByGroup` | core/einvoicing/ubl_builder.py:226-234 | the dictionary maps each (category, rate) to what its lines absorbed of the document discount, in order of first use |
| `UblBuilder.DocumentAllowances` | core/einvoicing/ubl_builder.py:239-267 | rounding, residual, largest group and emission loop give the specified charges and their total |
| `UblBuilder.EmitAllowances` | core/einvoicing/ubl_builder.py:254-266 | the emission loop skips parts that are not positive and adds up the others |
| `UblBuilder.GroupSharesConserve` | core/einvoicing/ubl_builder.py:220-234 | before rounding the groups' shares add up exactly to the document discount |
| `UblBuilder.ResidualBound` | core/einvoicing/ubl_builder.py:241-245 | with k groups the residual is at most (k + 1) / 2 units |
| `UblBuilder.AllowanceExactIff` | core/einvoicing/ubl_builder.py:236-267 | the emitted amounts add up to the rounded allowance if and only if no patched part is negative |
| `UblBuilder.AllowanceExactWhenLarge` | core/einvoicing/ubl_builder.py:236-267 | they do whenever the shares are not negative and the allowance is at least k (k + 2) / 2 units |
| `UblBuilder.SmallAllowanceIsOverstated` | core/einvoicing/ubl_builder.py:236-267 | four groups of 1.00 under 0.6 %: 3 cents are emitted for an allowance of 2 |
| `UblBuilder.AllowanceTotalIsSumOfAllowances` | core/einvoicing/ubl_builder.py:295-296 | AllowanceTotalAmount is the sum of the AllowanceCharge amounts, always (rule BR-CO-11 of EN 16931-1) |
| `UblBuilder.TaxSubtotals` | core/einvoicing/ubl_builder.py:268-287 | the grouping loop gives the specified subtotals and total tax |
| `UblBuilder.SubtotalsArePermutedBuckets` | core/einvoicing/ubl_builder.py:268-287 | the tax subtotals are the engine's VAT buckets in another order |
| `UblBuilder.ZeroRateSubtotalCarriesNoTax` | core/einvoicing/ubl_builder.py:279-287 | a subtotal at rate zero states a tax amount of zero |
| `UblBuilder.TaxExclusiveAgrees` | core/einvoicing/ubl_builder.py:289-293 | TaxExclusiveAmount is the engine's net for every invoice, negative nets included |
| `UblBuilder.TaxAgreesIff` | core/einvoicing/ubl_builder.py:138-150 | the XML's tax equals the engine's tax, before rounding, if and only if the net before the document discount is not negative, or the discount is zero, or the net times the sum of the rates is the number of lines times the net-weighted sum of the rates |
| `UblBuilder.XmlAgreesWithTotals` | core/einvoicing/ubl_builder.py:268-297 | whenever the taxes agree, TaxExclusive, TaxAmount, TaxInclusive and Payable are the engine's net, VAT and total; whenever the spreads agree the subtotals are the engine's buckets |
| `UblBuilder.XmlDisagreesWhenNetNegative` | core/einvoicing/ubl_builder.py:138-150 | two lines of total -40.00 with 5 off: the row is frozen with 6.30 of VAT, the XML states 0.00 |
| `UblBuilder.MonetaryTotalsDrift` | core/einvoicing/ubl_builder.py:289-297 | how far the rounded monetary totals and line amounts may be from adding up |
| `UblBuilder.BuildInvoiceUbl` | core/einvoicing/ubl_builder.py:213-316 | the amounts of the document, computed in the builder's order, are the specified ones |
| `PlainAmounts.ChargesByGroup` | core/einvoicing/ubl_builder.py:226-267 | at most one charge for each category and rate; under every group of the lines its patched part if that is positive and nothing otherwise, and nothing under any other |
| `PlainAmounts.SharesInProportion` | core/einvoicing/ubl_builder.py:220-234 | a group's share is to the document discount as the group's net is to the net |
| `PlainAmounts.ChargesNearShares` | core/einvoicing/ubl_builder.py:226-267 | with k groups what is charged under a category and rate is within (k + 2) / 2 units of the discount times the group's part of the net, or of nothing if that is negative |
| `PlainAmounts.SubtotalsInFields` | core/einvoicing/ubl_builder.py:268-288 | one tax subtotal for each category and rate of the lines, stating their net and the tax of that rate on it |
| `PlainAmounts.XmlTaxInFields` | core/einvoicing/ubl_builder.py:268-278 | the tax total of the document is within half a unit of net times rate in per cent, over all lines |
| `PlainAmounts.XmlTotalsInFields` | core/einvoicing/ubl_builder.py:289-297 | the monetary totals are within half a unit of the lines' worth, less the document discount, plus the tax; what is payable includes tax; the allowance total is the sum of the charges |
| `PlainAmounts.LineAmountsInFields` | core/einvoicing/ubl_builder.py:299-303 | every line states quantity times price less its own discount |
| `PlainAmounts.XmlNetsInProportion` | core/einvoicing/ubl_builder.py:138-150 | the builder spreads the discount in proportion to the nets whatever the sign of their sum |
| `Numbering.ClientInitials` | core/rules/numbering.py:14-38 | always two capital letters or digits, for any name |
| `Numbering.InitialsRead` | core/rules/numbering.py:14-38 | which two: the first characters of the first two words, or of a single word its first two, padded with X, and XX for a name without letters and digits |
| `Numbering.DisplayRoundTrip` | core/rules/numbering.py:41-62 | a display reference decodes back to initials, month, monthly number and year |
| `Numbering.SeriesReferenceInjective` | core/rules/numbering.py:65-90 | two numbers of a series never give the same credit-note or quote reference, whatever the years |
| `Numbering.BucketsDiffer` | core/repository/sequence_repo.py:12-14 | a monthly scope determines client, year and month |
| `Numbering.BucketIsNoSeries` | core/repository/sequence_repo.py:4-14 | a monthly scope is never one of the three series |
| `Compliance.CheckLines` | core/services/invoice_compliance.py:284-379 | the loop reports, line after line, the findings specified for that line |
| `Compliance.LineBlocksIff` | core/services/invoice_compliance.py:303-377 | exactly which lines the gate refuses |
| `Compliance.LinesBlockIff` | core/services/invoice_compliance.py:284-379 | the lines pass if and only if every one is lawful |
| `Compliance.DocumentBlocksIff` | core/services/invoice_compliance.py:384-408 | the document part refuses exactly a due date before the issue date |
| `Compliance.GateOpensIff` | core/services/invoice_compliance.py:411-440 | nothing blocks if and only if parties pass, there is a line, every line is lawful and the due date is not before the issue date |
| `Compliance.FindingsListed` | core/services/invoice_compliance.py:303-377 | the checks of a line find one finding for each of the five reasons that applies, the last one as advice |
| `Compliance.MemberStates` | core/rules/vat.py:12-18 | the twenty-seven member states the gate knows |
| `Services.UnitOfWork.Begin` | core/repository/unit_of_work.py:45-46 | staged work starts from the committed ledger |
| `Services.UnitOfWork.Commit` | core/repository/unit_of_work.py:57-58 | the staged ledger becomes the committed one, whatever it is |
| `Services.UnitOfWork.Rollback` | core/repository/unit_of_work.py:48-55 | staged work is dropped and the committed ledger untouched |
| `Services.UnitOfWork.NextValue` | db/repositories/sqlalchemy_repositories.py:632-651 | the next value is the counter plus one, a new scope starting at one, and no other scope moves |
| `Services.UnitOfWork.RestoreValue` | db/repositories/sqlalchemy_repositories.py:662-681 | a counter is set but never lowered |
| `Services.UnitOfWork.AddInvoice` | db/models/invoice.py:30-39 | an insert is refused exactly on a used identifier or a company's repeated reference or number |
| `Services.UnitOfWork.UpdateInvoice` | db/models/invoice.py:30-39 | an update is refused exactly when it would repeat a company's reference or number |
| `Services.AllocateInvoiceNumbers` | core/services/numbering_service.py:23-38 | draws the company's next invoice number and the client's next monthly number, and composes the reference from them |
| `Services.AllocateCreditNoteNumbers` | core/services/numbering_service.py:41-51 | draws from the credit-note series only |
| `Services.AllocateQuoteNumbers` | core/services/numbering_service.py:54-69 | draws from the quote series only |
| `Services.InvoiceService.CreateDraft` | core/services/invoice_service.py:37-107 | commits exactly the draft transaction, or refuses and leaves the ledger as it was |
| `DocumentEffects.DraftAcceptedIff` | core/services/invoice_service.py:52-104 | a draft is accepted if and only if it has lines, all fields are within their bounds, the client is the company's, the identifier is new and no total is negative |
| `Refusals.DraftRefused` | core/services/invoice_service.py:52-104 | which error a draft is refused with |
| `DocumentEffects.DraftEffect` | core/services/invoice_service.py:66-104 | the row holds what was asked for or the company's default, its lines renumbered from one, and their totals; nothing else in the ledger changes |
| `DocumentEffects.ModestDraftAccepted` | core/services/invoice_service.py:52-104 | with percentages of at most 100 no total is negative, so the rest suffices |
| `Services.InvoiceService.Issue` | core/services/invoice_service.py:109-199 | commits exactly the issue transaction, or refuses and leaves every counter as it was |
| `LedgerEffects.IssueEffect` | core/services/invoice_service.py:139-195 | the numbered row carries the caller's issue date or the draft's, and the caller's due date, or the draft's, or the thirtieth day after the issue date; otherwise it is the draft, totals included |
| `LedgerEffects.IssueReference` | core/services/numbering_service.py:23-49 | its reference reads back as the client's initials, month and year of the issue date, and the client's next number of that month |
| `LedgerEffects.IssueAcceptedIff` | core/services/invoice_service.py:124-197 | a draft is issued if and only if the parties pass, its lines are permitted, its due date exists and is not before the issue date, the year has four digits and no other client's invoice carries the reference |
| `Refusals.IssueRefused` | core/services/invoice_service.py:124-197 | which error an issue is refused with: no such invoice, not a draft, no due date within the calendar, the gate, the year, the reference |
| `Calendar.AddDaysOrdinal` | core/services/invoice_service.py:140-144 | adding days adds to the day number, and overflows exactly past 9999-12-31 |
| `Calendar.OrdinalOrders` | core/services/invoice_service.py:140-144 | day numbers order the dates, and no two dates share one |
| `Services.InvoiceService.NumberAndFreeze` | core/services/invoice_service.py:165-199 | numbers, reference, dates, totals and status are written together; an abort after the draw burns no number |
| `Services.InvoiceService.Duplicate` | core/services/invoice_service.py:201-233 | a copy goes through the draft transaction and carries no number |
| `DocumentEffects.DuplicateAcceptedIff` | core/services/invoice_service.py:201-233 | in every sound ledger any invoice can be duplicated under a new identifier; the copy is priced the same, dated anew, not due, not numbered and not voided |
| `Services.InvoiceService.DeleteDraft` | core/services/invoice_service.py:235-253 | only a draft is ever deleted |
| `DocumentEffects.DeletionUndoesDraft` | core/services/invoice_service.py:235-253 | deleting a new draft gives back the ledger before it, but for its identifier and the two audit entries |
| `Services.InvoiceService.Void` | core/services/invoice_service.py:320-352 | voids any invoice not yet voided, a draft included |
| `DocumentEffects.VoidAcceptedIff` | core/services/invoice_service.py:320-353 | a void is accepted if and only if the reason is not blank and the invoice is there and not voided, and changes its status, date and reason |
| `Services.PaymentService.AlreadyPaid` | core/services/payment_service.py:39-42 | the sum of the invoice's payments |
| `Services.PaymentService.Record` | core/services/payment_service.py:18-78 | payment and status are committed together, or the payment is refused |
| `LedgerEffects.PaymentAcceptedIff` | core/services/payment_service.py:30-58 | a payment is accepted if and only if the invoice is there and neither a draft nor voided, the amount is positive and together with the earlier payments at most the total |
| `Refusals.PaymentRefused` | core/services/payment_service.py:30-58 | which error a payment is refused with: no such invoice, not payable or too much, or not positive |
| `LedgerEffects.PaymentEffect` | core/services/payment_service.py:49-66 | the payment is appended and the row reads paid exactly when nothing is left to pay; nothing else changes but the audit log |
| `LedgerEffects.PaidIff` | core/services/payment_service.py:61-65 | after any run an invoice reads paid if and only if it is numbered, not voided, came to more than nothing and nothing of it is outstanding |
| `LedgerEffects.OutstandingSettles` | core/services/payment_service.py:39-66 | from every reachable ledger, paying what an issued invoice still has to receive succeeds and leaves it paid |
| `LedgerEffects.InstalmentsAccepted` | core/services/payment_service.py:39-66 | positive instalments within what is outstanding are all accepted, and leave the row paid exactly when they add up to all of it |
| `Services.CreditNoteService.Issue` | core/services/credit_note_service.py:16-113 | number, note, void and link are committed together, or nothing is |
| `DocumentEffects.NoteEffect` | core/services/credit_note_service.py:41-113 | the note takes the next number of its series, states the invoice's parties, totals and lines without their discounts, and voids the invoice on its own date |
| `DocumentEffects.NoteAcceptedIff` | core/services/credit_note_service.py:26-113 | a credit note is accepted if and only if it has a reason and a new identifier, is dated from the year 1000 on and its invoice is there and not voided; the unique constraints never refuse one |
| `Refusals.NoteRefusedFor` | core/services/credit_note_service.py:31-43 | which error a credit note is refused with |
| `SeriesReferences.EndsInOne` | core/rules/numbering.py:65-91 | the reference of a credit note or a quote tells its number, whatever the prefix |
| `SeriesReferences.NextNoteIsFree` | db/models/credit_note.py:22-36 | in every sound ledger the next credit note meets neither unique constraint |
| `Services.QuoteService.Create` | core/services/quote_service.py:69-144 | commits exactly the quote transaction, or refuses |
| `QuoteEffects.QuoteEffect` | core/services/quote_service.py:97-144 | the quote holds what was asked for or the company's default and the next number and reference of its series; nothing else changes |
| `QuoteEffects.QuoteAcceptedIff` | core/services/quote_service.py:90-144 | a quote is accepted if and only if it could be drafted, does not expire before it is issued and is dated from the year 1000 on; the unique constraints never refuse one |
| `Services.QuoteService.Transition` | core/services/quote_service.py:297-326 | moves a quote only along an allowed transition |
| `QuoteEffects.MoveAcceptedIff` | core/services/quote_service.py:40-47 | a move is accepted if and only if it leads one stage on, and not from a rejected or expired quote |
| `QuoteEffects.MoveEffect` | core/services/quote_service.py:164-211 | each move leads to its own status; a decision keeps its note and a conversion its invoice, and nothing else changes |
| `Services.QuoteService.Convert` | core/services/quote_service.py:213-268 | without interference both transactions take place, or neither |
| `QuoteEffects.ConversionAcceptedIff` | core/services/quote_service.py:213-268 | in every sound ledger an undisturbed conversion succeeds if and only if the quote is accepted and the identifier new; it leaves one draft of the offer, dated as asked or today, due as asked, and the quote linked to it |
| `Refusals.ConversionRefused` | core/services/quote_service.py:213-268 | which error a conversion is refused with: no such quote, not accepted, or a used identifier |
| `QuoteEffects.ReachableLedgers` | core/services/quote_service.py:69-144 | what these statements ask of a ledger holds after every run from an empty organization |
| `Services.QuoteService.Delete` | core/services/quote_service.py:270-295 | a quote that became an invoice is never deleted |
| `QuoteEffects.QuoteDeletionAcceptedIff` | core/services/quote_service.py:270-295 | in every sound ledger a quote can be deleted exactly until it is converted |
| `LedgerInvariant.EmptyStoreOk` | core/repository/sequence_repo.py:17-22 | the empty ledger satisfies the invariant |
| `LedgerInvariant.DrawKeepsGapless` | core/repository/sequence_repo.py:19-22 | drawing a number and storing its document keeps the numbers of every company exactly 1..counter |
| `LedgerInvariant.IssueKeeps` | core/services/invoice_service.py:124-199 | issuing keeps the ledger invariant |
| `LedgerInvariant.CreditNoteKeeps` | core/services/credit_note_service.py:34-113 | a credit note keeps the ledger invariant |
| `LedgerInvariant.PayKeeps` | core/services/payment_service.py:30-78 | a payment keeps the ledger invariant |
| `LedgerInvariant.DeleteDraftKeeps` | core/services/invoice_service.py:238-253 | deleting a draft keeps the ledger invariant: no number, payment or note goes with it |
| `LedgerInvariant.StepKeepsInv` | core/repository/unit_of_work.py:48-55 | every command, committed or refused, keeps the ledger invariant |
| `LedgerInvariant.RunKeepsInv` | core/services/invoice_service.py:109-199 | so does every run |
| `LedgerHistory.SeriesAreGapless` | core/repository/sequence_repo.py:19-22 | after any run, the invoice numbers and the credit-note numbers of each company are exactly 1..counter, each used once |
| `LedgerHistory.IssueTakesTheNextNumber` | core/services/invoice_service.py:165-182 | an issue takes the company's counter plus one and moves no other series |
| `LedgerHistory.StepIsLater` | core/services/invoice_service.py:170-182 | no command lowers a counter, reuses an identifier, rewrites a note, a payment, an audit entry or a numbered invoice |
| `LedgerHistory.RunIsLater` | core/services/invoice_service.py:170-182 | nor does any run |
| `LedgerHistory.ReachableStatuses` | core/services/payment_service.py:34-66 | after any run, payments are at most the total; a draft is unnumbered and unpaid, an issued invoice numbered and unpaid, a partially paid one strictly between, a paid one exactly paid |
| `LedgerHistory.NotesPairWithVoids` | core/services/credit_note_service.py:45-89 | after any run, credit notes and the invoices voided by one are in bijection, with equal totals |
| `LedgerHistory.NumberedIsForGood` | core/services/invoice_service.py:235-243 | a numbered invoice never disappears nor changes its legal content; a voided one never changes nor receives money again |
| `LedgerReferences.ClientReferencesAreUnique` | core/services/numbering_service.py:27-38 | while company prefixes stay, no two issued invoices of a client share a reference, even after the client is renamed |
| `LedgerReferences.SequenceNeverTaken` | db/models/invoice.py:33-38 | the number an issue draws never violates the unique constraint |
| `LedgerReferences.ConstraintRefusesIff` | db/models/invoice.py:30-32 | issuing is refused by the reference constraint if and only if a namesake client holds the same initials, month, monthly number and year |
| `LedgerReferences.RunKeepsRefs` | core/services/numbering_service.py:27-38 | every reference in the ledger stays decodable to its bucket and number over any run that keeps the prefixes |
| `LedgerKeys.RunKeepsKeys` | db/models/invoice.py:30-39 | references stay unique per company and every counter belongs to a known company or client, over any run |
| `LedgerKeys.ReachableKeys` | db/models/invoice.py:30-39 | every reachable ledger has these properties and the ledger invariant |
| `LedgerDocuments.FrozenTotalsInXml` | core/services/invoice_service.py:165-182 | after any run, the XML of a numbered invoice states the VAT and the total frozen on its row whenever the taxes agree, and its buckets whenever the spreads agree |
| `LedgerDocuments.MisstatedIsReachable` | core/services/invoice_service.py:109-199 | an empty organization reaches a ledger with a numbered invoice whose row says 6.30 of VAT and 6.30 to pay while its XML says 0.00 and 0.00 |
| `LedgerDocuments.NumberedIsLawful` | core/services/invoice_compliance.py:289-317 | after any run, a numbered invoice has a line, a due date not before its issue date, and rate zero on every zero-rated line |
| `LedgerDocuments.ZeroRatedXmlCarriesNoTax` | core/services/invoice_compliance.py:307-317 | after any run, every zero-rated subtotal of a numbered invoice's XML states a tax of zero (rules BR-Z-09, BR-E-09, BR-AE-09, BR-IC-09, BR-G-09 of EN 16931-1) |
| `LedgerDocuments.ReachableNotesCancel` | core/services/reporting_service.py:17-31 | after any run, a credit note's VAT buckets are those of its invoice when nothing was deducted, and the invoice stays declarable |
| `Conversion.EventIsOneTransaction` | core/services/quote_service.py:233-238 | each step of a conversion changes the ledger by one committed transaction or not at all |
| `Conversion.UnfoldKeeps` | core/services/quote_service.py:213-268 | every interleaving of conversions, crashes and other commands keeps the ledger invariant |
| `Conversion.ConvertedAtMostOnce` | core/services/quote_service.py:40-47 | over every interleaving a quote is marked converted at most once, and then never changes |
| `Conversion.OnlyIssueDrawsNumbers` | core/services/quote_service.py:223-226 | no event other than an issue moves the invoice counter of any company |
| `Conversion.StepKeepsTerms` | core/services/invoice_service.py:165-182 | lines, discount, currency and totals of a document are never changed, by issue neither |
| `Conversion.ConversionKeepsTheOffer` | core/services/quote_service.py:228-231 | a converted quote's invoice carries the quote's lines and totals, before and after issue, over every interleaving |
| `Conversion.DraftRefusedIff` | core/services/quote_service.py:248-260 | the draft of a conversion is refused only for an identifier already in use |
| `Conversion.RaceLeavesTwoDrafts` | core/services/quote_service.py:233-268 | from every reachable state, two racing conversions of an accepted quote leave two drafts with its terms and one link |
| `ConversionDrafts.MarkTakesIff` | core/services/quote_service.py:297-326 | a conversion's mark links its draft to the quote if and only if the quote is there and accepted; otherwise it changes nothing |
| `ConversionDrafts.DraftsAccountedFor` | core/services/quote_service.py:213-268 | along every run, the drafts committed by conversions of a quote are the conversions marked, plus those waiting for their mark, plus those left behind |
| `ConversionDrafts.OrphanDrafts` | core/services/quote_service.py:213-268 | so the drafts the quote does not point at are the committed ones, less one if the quote was converted |
| `ConversionDrafts.TwoDraftsIff` | core/services/quote_service.py:213-268 | over every interleaving from any sound ledger, more than one draft is committed if and only if a conversion that drafts read the quote while another that drafts was in flight, or after such a one crashed before its mark |
| `ConversionDrafts.AnotherDraftIff` | core/services/quote_service.py:213-268 | from every reachable state in which a quote has been offered, some continuation commits another draft if and only if the quote is still accepted or another conversion has read it and not drafted |
| `Periods.ParseNames` | core/services/reporting_service.py:301-320 | every year, quarter and month name is read as its period |
| `Periods.ParsedSpans` | core/services/reporting_service.py:296-320 | whatever text is accepted names one month, three or twelve of a single year |
| `Periods.InMonths` | core/services/reporting_service.py:320-320 | a date is in the period if and only if its month and year are, month lengths and leap years included |
| `Periods.YearIsPartitioned` | core/services/reporting_service.py:312-320 | the four quarters and the twelve months partition the year |
| `VatReports.AddBuckets` | core/services/reporting_service.py:450-468 | adding a document's buckets adds its amounts to their slots and to no other |
| `VatReports.AccumulateInvoices` | core/services/reporting_service.py:430-464 | filter and loop over invoices accumulate the declarable ones of the period and currency |
| `VatReports.AccumulateNotes` | core/services/reporting_service.py:435-468 | the same for credit notes, on the credited side |
| `VatReports.MakeLines` | core/services/reporting_service.py:470-489 | one line per key, sorted, with net and grid, and totals over all of them |
| `VatReports.MakeVatReport` | core/services/reporting_service.py:419-510 | the report holds, per key and in total, the tally over the company's invoices and credit notes in the ledger; errors in the code's order |
| `VatReturns.ReachableReports` | core/services/reporting_service.py:419-510 | in every reachable ledger a report counts and sums exactly the numbered invoices of the company, period and currency that are not voided and those a credit note voided, and credits exactly its credit notes; line by line, in total and in number |
| `VatReturns.SuppliedIff` | core/services/reporting_service.py:17-31 | an invoice is declared if and only if it has a number and is not voided, or a credit note voided it |
| `VatReturns.PaymentChangesNoReport` | core/services/reporting_service.py:17-31 | receiving money changes no report of any period |
| `VatReturns.NothingSupplied` | core/services/reporting_service.py:17-31 | a draft, or an invoice voided without a credit note, adds nothing to any report |
| `VatReturns.GridsOf` | core/services/reporting_service.py:325-342 | box by box, which categories and rates go to it |
| `VatReports.ListingDoesNotMatter` | core/services/reporting_service.py:430-439 | in whatever order the repositories list the company's rows, a report of one listing is a report of any other |
| `VatReports.TallySplits` | core/services/reporting_service.py:430-445 | any tally over a period is the sum over periods that partition it |
| `VatReports.ReportsAddUp` | core/services/reporting_service.py:419-510 | reports over a partition add up to the report of the whole, per key, in totals and in counts |
| `VatReports.YearAddsUp` | core/services/reporting_service.py:301-320 | the yearly report is the sum of its four quarters and of its twelve months |
| `VatReports.NoteCancelsInvoice` | core/services/reporting_service.py:460-468 | a note for an invoice with nothing deducted credits, key by key, what the invoice declared |
| `VatReports.NoteCancelsIff` | core/services/credit_note_service.py:55-65 | for every invoice, the note credits exactly the invoice's bases if and only if the deductions balance, that is, nothing was deducted or, under a negative net, equal parts of the document discount undo the line discounts key by key; it credits more than was sold by exactly what was deducted |
| `Reports.MakeInvoiceReport` | core/services/reporting_service.py:542-592 | the loop gives each status, month and total the sum of its invoices |
| `Reports.MakeClientReport` | core/services/reporting_service.py:716-777 | the loop gives each client the sums of its invoices, and the totals are the sums of the rounded rows |
| `LedgerReports.InvoiceReportInFields` | core/services/reporting_service.py:512-592 | in every sound ledger the totals are those of the numbered invoices that are not voided, what was received on them and what is late, each within half a unit; and every status holds the invoices a reader sees in it |
| `LedgerReports.ClientReportInFields` | core/services/reporting_service.py:685-777 | and the client report has one row for each client with such invoices, with that client's sums |
| `LedgerReports.ShownStatus` | core/models/invoice.py:67-81 | an invoice reads overdue exactly when it is issued or partially paid and its due date lies strictly before today |
| `Reports.ReportInvoices` | core/services/reporting_service.py:512-592 | period and company errors, then the invoice report of the company's invoices in the ledger |
| `Reports.ReportClients` | core/services/reporting_service.py:685-777 | the same for the client report |
| `Reports.ReportsReconcile` | core/services/reporting_service.py:542-777 | both reports state the same invoiced total, which is also the sum over months; paid and outstanding differ by at most (k + 1) / 2 units for k clients |
| `Reports.StatusCountsAddUp` | core/services/reporting_service.py:551-557 | each invoice is counted under exactly one effective status |
| `Reports.InvoiceReportCounts` | core/services/reporting_service.py:572-592 | the status counts of a report add up to its invoice count, drafts to its draft count |
| `Reports.OverdueIsOutstanding` | core/services/reporting_service.py:561-590 | in every sound ledger the overdue total is between zero and the outstanding total |
| `Identifiers.BelgianVatAcceptedIff` | core/rules/identifiers.py:67-75 | ten digits are accepted if and only if base plus control is a multiple of 97 with a control of 1 to 97 |
| `Identifiers.BelgianVatIsCanonical` | core/rules/identifiers.py:47-75 | whatever is returned has the canonical form and a sound control, and is returned for itself |
| `Identifiers.VatDigitChangeRejected` | core/rules/identifiers.py:67-75 | changing one digit of an accepted number gives a refused one |
| `Identifiers.VatSwapRejected` | core/rules/identifiers.py:67-75 | so does swapping two different neighbours |
| `Identifiers.ValidateIban` | core/rules/identifiers.py:78-92 | accepts exactly the sound numbers: shape, country length and expanded decimal number congruent to 1 modulo 97 |
| `Identifiers.Remainder` | core/rules/identifiers.py:87-91 | the loop computes the expanded decimal number modulo 97, for strings of any length |
| `Identifiers.SoundIbanIff` | core/rules/identifiers.py:78-92 | country, check digits and account make an IBAN if and only if the account is not empty, the length is the country's, and account, country and check digits read as a number that leaves 1 over 97 |
| `Identifiers.ListedLengths` | core/rules/identifiers.py:31-35 | the lengths the table lists, country by country, and no others |
| `Identifiers.OwnForm` | core/rules/identifiers.py:80-80 | a text of capitals and digits is cleaned to itself, in whatever case it is typed |
| `Identifiers.BlankDropped` | core/rules/identifiers.py:80-80 | a blank typed anywhere does not matter |
| `Identifiers.CheckDigitsExist` | core/rules/identifiers.py:86-92 | 98 minus the remainder of account, country and two zeros completes every account to an IBAN |
| `Identifiers.IbanChangeRejected` | core/rules/identifiers.py:78-92 | replacing one digit by a digit or one letter by a letter in a sound number is always detected |
| `Identifiers.IbanSwapAcceptedIff` | core/rules/identifiers.py:86-92 | swapping different neighbours of the account part is detected, except for exactly the digit and letter pairs whose expansion is unchanged modulo 97 |
| `Identifiers.PalindromicPairs` | core/rules/identifiers.py:86-92 | those pairs are 1 and B, 2 and M, 3 and X |
| `Identifiers.CommunicationIsSound` | core/rules/belgian_peppol.py:17-27 | the structured communication has its frame, keeps the last ten digits of its seed and carries their control modulo 97 |
| `RateLimit.RateLimitMiddleware.Trim` | api/middleware/ratelimit.py:60-63 | the loop drops exactly the leading stamps older than the window |
| `RateLimit.RateLimitMiddleware.Arrive` | api/middleware/ratelimit.py:69-90 | decides a request and updates both deques as specified |
| `RateLimit.RateLimitMiddleware.Respond` | api/middleware/ratelimit.py:92-99 | charges a failed sign-in when its response is there |
| `RateLimit.SpacedWindow` | api/middleware/ratelimit.py:86-90 | stamps that are n apart by more than a window put at most n of them in any closed window |
| `RateLimit.UnfoldKeepsBudget` | api/middleware/ratelimit.py:86-90 | over every schedule the deques hold the recent admissions and those are spaced |
| `RateLimit.WindowHoldsAtMostLimit` | api/middleware/ratelimit.py:86-90 | any closed 60-second window holds at most the limit of admitted requests per key, over every schedule |
| `RateLimit.RefusedIff` | api/middleware/ratelimit.py:70-90 | a request is refused if and only if the limit was admitted, or the failure budget spent, in the preceding 60 seconds |
| `RateLimit.MetOnArrival` | api/middleware/ratelimit.py:65-90 | for every schedule whether a request is let by, let in or turned away, from its path and from what was admitted and what failed in the last sixty seconds |
| `RateLimit.FailureCountedIff` | api/middleware/ratelimit.py:92-97 | a response counts against its client exactly if it has one of the five failing statuses on a path that signs in |
| `RateLimit.AdmissionCountedIff` | api/middleware/ratelimit.py:86-90 | an arrival counts exactly if it is let in |
| `RateLimit.SuccessCostsNothing` | api/middleware/ratelimit.py:94-97 | over every schedule a client none of whose requests failed has no failures against it |
| `RateLimit.FailuresBounded` | api/middleware/ratelimit.py:80-97 | any such window holds at most the failure budget plus C - 1 recorded failures, C sign-ins being in flight at most |
| `Quota.OneHolderAtATime` | api/entitlements/service.py:156-170 | over every interleaving at most one request per organization is between acquiring and releasing the row lock |
| `Quota.GuardedCreationHasRoom` | api/entitlements/service.py:120-166 | a request that passed its check still finds usage below the limit it saw, until it writes, over every interleaving; for Peppol, months end while no free export is unwritten |
| `Quota.CheckPassesIff` | api/entitlements/service.py:120-138 | the check passes if and only if the plan sets no limit or less is in use than it allows; otherwise the lock is free again |
| `Quota.RequestServedIff` | api/entitlements/deps.py:77-98 | an undisturbed request for a new document adds exactly that document if there is room, and otherwise changes nothing |
| `Quota.RoomMoves` | api/entitlements/usage.py:84-137 | removals free room, except of Peppol documents; unguarded invoices take it; a new plan's limit applies at once |
| `Quota.UsageStaysWithinLimit` | api/entitlements/deps.py:85-95 | with a fixed limit and guarded creations, usage never exceeds the limit, over every interleaving of every organization and across month ends; for Peppol, across those that find no free export unwritten |
| `Quota.UsageNextMonth` | api/entitlements/usage.py:104-137 | a monthly meter starts the next month at zero |
| `PeppolExports.FreeIsNeverTakenAway` | api/entitlements/deps.py:123-128 | a request that was found free stays so until it writes, whatever anybody else does |
| `PeppolExports.FreeWrite` | api/entitlements/usage.py:142-162 | its write takes no lock and takes a slot if and only if this month has not counted the invoice |
| `PeppolExports.ReexportIsFree` | api/entitlements/deps.py:123-128 | exporting again an invoice counted this month is never refused, takes no lock and raises no count, over every interleaving between look-up and write |
| `PeppolExports.RefusedIff` | api/entitlements/deps.py:125-133 | over every interleaving, a Peppol request is refused if and only if its look-up did not find the invoice and the allowance is spent at its check |
| `PeppolExports.RacingReexportIsRefused` | api/entitlements/deps.py:125-133 | two first exports of one invoice that both looked before either wrote, with one slot left: the second is refused |
| `PeppolExports.MonthEndOverrunsIff` | api/entitlements/usage.py:142-162 | for every limit, a month's end can be followed by an overrun if and only if a free export of the organization was unwritten when the month ended |
| `Quota.TenantsDoNotContend` | api/entitlements/service.py:141-154 | what an organization sees of any interleaving is what its own events alone produce |
| `LegacyImport.ImportChildren` | core/services/import_service.py:130-195 | one loop over the names of a block: counts and added rows as specified |
| `LegacyImport.MappedIff` | core/imports/mappers.py:154-198 | which clients and products map, and what name is stored of them |
| `LegacyImport.Run` | core/services/import_service.py:48-85 | preview and commit are the specified fold over the companies of the file; a preview stores nothing |
| `LegacyImport.CountsAddUp` | core/imports/report.py:19-29 | created, skipped and failed add up to the rows of the file |
| `LegacyImport.CreatedIsNewKeys` | core/services/import_service.py:144-168 | a block creates one row per new normalised name |
| `LegacyImport.PreviewOvercounts` | core/services/import_service.py:42-43 | a preview counts as created exactly the repeats that a commit skips, in addition to what it creates |
| `LegacyImport.PreviewPredictsIff` | core/services/import_service.py:42-46 | the preview's report is the commit's if and only if no child name recurs in a later block of the same company |
| `LegacyImport.OwnTargetsNeverRepeat` | core/services/import_service.py:110-128 | no name recurs when no two blocks resolve to one company |
| `LegacyImport.PreviewPredictsDistinctNames` | core/services/import_service.py:42-46 | in particular for every file in which no two companies normalise to one name |
| `LegacyImport.ImportIsIdempotent` | core/services/import_service.py:53-85 | importing a file a second time creates nothing and leaves every table as it was |
| `BackupIds.IdMap.SetDefault` | core/services/backup_service.py:85-88 | an identifier is drawn at each call and kept at the first |
| `BackupIds.IdMap.RemapIds` | core/services/backup_service.py:73-90 | the walk applies one map, files exactly the keys mentioned, and keeps the map injective |
| `BackupIds.IdMap.RemapText` | core/services/backup_service.py:83-90 | one string: an identifier, a monthly scope around one, or left alone |
| `BackupIds.RenameStable` | core/services/backup_service.py:75-78 | what was rewritten early agrees with the map the whole walk ends with |
| `BackupIds.TextUnchangedIff` | core/services/backup_service.py:66-90 | a text survives a restore if and only if it is neither an identifier nor a monthly scope |
| `BackupCodec.RowRoundTrip` | core/services/backup_service.py:384-403 | what is dumped validates back to the same row, for every table |
| `BackupCodec.RenameRow` | core/services/backup_service.py:73-90 | walking the dump of a row is dumping the row with its identifiers, and the texts in the shape of one, renamed: other leaves are unchanged |
| `LedgerCopy.CopyKeepsInv` | core/services/backup_service.py:216-221 | a renamed copy of a sound ledger is sound |
| `LedgerCopy.CopyKeepsKeys` | core/services/backup_service.py:216-221 | and can be backed up and restored in its turn |
| `LedgerCopy.BucketRenamed` | core/services/backup_service.py:69-89 | the walk renames the client inside a monthly scope and nothing else of it |
| `LedgerCopy.ScopesApart` | core/services/backup_service.py:69-89 | two scopes of a ledger never become one |
| `LedgerCopy.CountersVerbatim` | core/services/backup_service.py:238-246 | every scope a ledger can draw from reads the same after the copy |
| `LedgerCopy.GaplessCopied` | core/services/backup_service.py:238-246 | a gapless series stays gapless |
| `Backup.TableRoundTrip` | core/services/backup_service.py:229-233 | a table that was dumped, walked and validated is the table of renamed rows, whatever its texts |
| `Backup.CountersRestored` | core/services/backup_service.py:238-246 | replaying the exported counters gives each renamed scope its value |
| `Backup.GroupedIsPermutation` | core/services/backup_service.py:152-156 | exporting payments invoice by invoice loses none and invents none |
| `Backup.PaidOnGrouped` | core/services/backup_service.py:152-156 | and what was paid on each invoice is unchanged |
| `Backup.RestoreOfExport` | core/services/backup_service.py:203-261 | an export restores into an organization without companies, unless references meet, and gives the same ledger under new identifiers, with the newest million audit entries in order |
| `Backup.RestoredIff` | core/services/backup_service.py:203-261 | the restore of an export succeeds if and only if no two references of a company become one under the renaming |
| `Backup.RestoredIsSound` | core/services/backup_service.py:221-246 | the result satisfies the ledger invariant and its series stand where the source's stood |
| `Backup.NumberingContinues` | core/services/backup_service.py:238-246 | the next invoice issued after a restore takes the source's counter plus one |
| `BackupServices.BackupService.Export` | core/services/backup_service.py:143-201 | the payload holds every row and counter; only the audit log changes |
| `BackupFields.OwnBackupAccepted` | core/services/backup_service.py:60-61 | an export carries the format and the version a restore accepts, and versions 1 to 3 are those accepted |
| `BackupServices.BackupService.AddAll` | core/services/backup_service.py:231-233 | adds the rows in order and stops at the first refusal |
| `BackupServices.BackupService.AddTables` | core/services/backup_service.py:229-233 | replays the tables in order and counts each |
| `BackupServices.BackupService.AddSequences` | core/services/backup_service.py:238-246 | replays the counters and touches nothing else |
| `BackupServices.BackupService.Replay` | core/services/backup_service.py:223-261 | all of the file is in the ledger and counted, or nothing is |
| `BackupServices.BackupService.Restore` | core/services/backup_service.py:203-261 | foreign formats and versions are refused; otherwise the renamed file is replayed whole, or the ledger is as it was |
| `BackupServices.InOrder` | core/services/backup_service.py:120-129 | the table-driven loop is the chain of its tables |
| `BackupServices.WalkCovers` | core/services/backup_service.py:73-90 | the walk over an export renames every row of it and confuses no two, whatever the texts |
| `BackupServices.DisasterRecovery` | core/services/backup_service.py:203-261 | whatever identifiers are drawn, restoring the backup of a sound ledger in which no two references meet succeeds and yields a sound copy |
| `BackupFields.NamedIff` | core/services/backup_service.py:66-90 | exactly which texts the walk renames: identifiers and monthly scopes around one, with or without a final line break |
| `BackupFields.RestoreNeeds` | core/services/backup_service.py:209-261 | a restore needs an organization without companies and every collection of the file |
| `BackupFields.AnyRestoreKeepsOrder` | core/services/backup_service.py:223-236 | whatever is in the file, every restored row refers to rows that are there, and no two documents of a company share a reference or a number |
| `BackupFields.RestoredInvoices` | core/services/backup_service.py:203-261 | after the restore of an export every invoice is there under its new name and no other: same dates, numbers, statuses, lines and totals, and as much still to be paid |
| `BackupFields.RestoredAudit` | core/services/backup_service.py:159-161 | the audit log then holds what was there, the newest million entries of the source in order, and one entry for the restore |
| `BackupTexts.OnlyIdentifiersChangeIff` | core/services/backup_service.py:66-90 | of a row only identifiers change if and only if none of its texts is an identifier or a monthly scope |
| `BackupTexts.TextsSurviveIff` | core/services/backup_service.py:66-90 | a restore changes nothing but identifiers if and only if no text of the whole ledger, payments included, is an identifier or a monthly scope |
| `BackupReachable.DisplayIsNoIdentifier` | core/models/company.py:31-31 | with a prefix of at most eight characters, whatever they are, no invoice reference has the shape of an identifier or of a monthly scope |
| `BackupReachable.RunKeepsShape` | core/services/numbering_service.py:23-69 | over every run identifiers stay canonical and no reference gets the shape of one |
| `BackupReachable.ReachableRestore` | core/services/backup_service.py:203-261 | the backup of every ledger an empty organization can reach, whatever its texts, restores into an organization without companies, and gives a sound copy whose series stand where they stood |

## Left out

- `Services.UnitOfWork.NextValue`: the row lock and the file lock that serialize two writers of one counter are not modelled; a unit of work is one atomic step, except for `convert` and the quota lock.
- `BackupServices.BackupService.Restore`: a restore trusts the content of the file, so the whole ledger invariant after a restore is proved for exports (`DisasterRecovery`); for arbitrary files only that rows refer to rows and keys are unique (`BackupFields.AnyRestoreKeepsOrder`).
- `Reports.MakeClientReport`: client names, last invoice dates and the order of the rows are not stated.
- `Reports.MakeInvoiceReport`: the alphabetical order of the status rows and of the months is not stated.
- `LegacyImport.Run`: the fields of a row other than its name, the list of issues and the audit entries are not modelled, and repositories list rows in insertion order.
- `Identifiers.CommunicationIsSound`: digits are the ASCII ones; `isdigit` also accepts other Unicode digits.
- `Numbering.ClientInitials`: client names are given already folded to ASCII; the folding of diacritics is not modelled.
- Case mapping, white space and `\d` follow ASCII only, wherever text is read.
- Amounts: the 28-digit decimal context is abstracted by exact `real` values, and so is the storage of amounts with six decimals.
- Datetimes are dates; a void date is the date of its credit note.
- The party-identity findings of the compliance gate are an input: any blocking finding refuses.
- Lengths: of the limits on the length of texts only that of the company prefix is modelled.
- Backup: products, documents and archive files, encryption, identifiers of payments, the organization id written into each row, negative counter values, and identifiers that are not spelled as uuid4 prints them.
- Backup: a wide row is dumped as a list of small groups of fields rather than as one object with named keys.
- The other reports (payments, products, client statistics, timeline, indicators), alerts, search and onboarding: further sums over the same rows.
- BIC validation, Peppol endpoints and the Belgian tax category codes: table lookups.
- XML tree building, PDF rendering, HTTP routing, sign-in, licences and cryptography.
- Expenses and their VAT state machine, whose source is only partly there.
- The SQLAlchemy mapping, beyond the unique constraints and the two counter operations; database failures other than those constraints are not modelled.
