// What each use-case does to the committed rows, or why it refuses. One transaction is one unit of
// work: a refusal leaves the store as it was, whatever had been staged before the exception.
module Transactions {
  import opened Common
  import opened Calendar
  import opened Money
  import opened Lines
  import opened CurrencyMath
  import opened Numbering
  import opened Compliance
  import opened Store

  const DEFAULT_PAYMENT_TERM_DAYS := 30

  function Or<T>(a: Option<T>, b: T): T {
    if a.Some? then a.value else b
  }

  function Audited(s: Store, action: AuditAction, targetType: string, id: Id): seq<AuditEntry> {
    s.audit + [AuditEntry(action, targetType, Some(id))]
  }

  // ------------------------------------------------------------------ companies and clients

  /** `invoice_reference_prefix` has at most eight characters. */
  const PREFIX_LENGTH := 8

  function AddCompany(s: Store, id: Id, company: Company): Result<Store> {
    if |company.prefix| > PREFIX_LENGTH then Err(ValidationError)
    else if id in s.usedIds then Err(IntegrityError)
    else Ok(s.(companies := s.companies[id := company], usedIds := s.usedIds + {id},
               audit := Audited(s, Create, "company", id)))
  }

  function UpdateCompany(s: Store, id: Id, company: Company): Result<Store> {
    if |company.prefix| > PREFIX_LENGTH then Err(ValidationError)
    else if id !in s.companies then Err(NotFound)
    else Ok(s.(companies := s.companies[id := company], audit := Audited(s, Update, "company", id)))
  }

  function AddClient(s: Store, id: Id, client: Client): Result<Store> {
    if client.companyId !in s.companies then Err(NotFound)
    else if id in s.usedIds then Err(IntegrityError)
    else Ok(s.(clients := s.clients[id := client], usedIds := s.usedIds + {id},
               audit := Audited(s, Create, "client", id)))
  }

  /** Everything about a client may change, its name included, except the company it belongs to. */
  function UpdateClient(s: Store, id: Id, client: Client): Result<Store> {
    if id !in s.clients then Err(NotFound)
    else Ok(s.(clients := s.clients[id := client.(companyId := s.clients[id].companyId)],
               audit := Audited(s, Update, "client", id)))
  }

  // ------------------------------------------------------------------ drafts

  datatype DraftRequest = DraftRequest(
    companyId: Id, clientId: Id, lines: seq<InvoiceLine>, issueDate: Option<Date>, dueDate: Option<Date>,
    discount: Option<Discount>, comments: Option<string>, paymentTerms: Option<string>,
    template: Option<string>, currency: Option<Currency>)

  function NewDraft(company: Company, r: DraftRequest, today: Date): Invoice {
    var cur := Or(r.currency, company.defaultCurrency);
    var lines := Renumbered(r.lines);
    var t := TotalsOf(lines, r.discount, cur);
    Invoice(r.companyId, r.clientId, None, None, Or(r.issueDate, today), r.dueDate, cur, lines, r.discount,
            r.comments, r.paymentTerms, Or(r.template, company.defaultTemplate),
            t.subtotal, t.totalDiscount, t.totalVat, t.totalTtc, Draft, None, None, None)
  }

  /** The field constraints of the domain model: valid lines, and no negative total. */
  predicate ValidTotals(subtotal: int, totalDiscount: int, totalVat: int, totalTtc: int) {
    subtotal >= 0 && totalDiscount >= 0 && totalVat >= 0 && totalTtc >= 0
  }

  predicate ValidRequest(lines: seq<InvoiceLine>, discount: Option<Discount>) {
    ValidLines(lines) && ValidDiscount(discount)
  }

  function CreateDraft(s: Store, id: Id, r: DraftRequest, today: Date): Result<Store> {
    if r.lines == [] then Err(BusinessRule)
    else if !ValidRequest(r.lines, r.discount) then Err(ValidationError)
    else if r.companyId !in s.companies then Err(NotFound)
    else if r.clientId !in s.clients then Err(NotFound)
    else if s.clients[r.clientId].companyId != r.companyId then Err(BusinessRule)
    else
      var draft := NewDraft(s.companies[r.companyId], r, today);
      if !ValidTotals(draft.subtotal, draft.totalDiscount, draft.totalVat, draft.totalTtc) then Err(ValidationError)
      else if id in s.usedIds then Err(IntegrityError)
      else Ok(s.(invoices := s.invoices[id := draft], usedIds := s.usedIds + {id},
                 audit := Audited(s, Create, "invoice", id)))
  }

  /** `duplicate` copies what describes the sale and goes through `create_draft`. */
  function DuplicateRequest(source: Invoice, issueDate: Option<Date>, today: Date): DraftRequest {
    DraftRequest(source.companyId, source.clientId, source.lines, Some(Or(issueDate, today)), None,
                 source.discount, source.comments, source.paymentTerms, Some(source.template), Some(source.currency))
  }

  function Duplicate(s: Store, sourceId: Id, id: Id, issueDate: Option<Date>, today: Date): Result<Store> {
    if sourceId !in s.invoices then Err(NotFound)
    else CreateDraft(s, id, DuplicateRequest(s.invoices[sourceId], issueDate, today), today)
  }

  function DeleteDraft(s: Store, id: Id): Result<Store> {
    if id !in s.invoices then Err(NotFound)
    else if !s.invoices[id].status.Draft? then Err(BusinessRule)
    else Ok(s.(invoices := s.invoices - {id}, audit := Audited(s, Delete, "invoice", id)))
  }

  // ------------------------------------------------------------------ issue

  function EffectiveDueDate(invoice: Invoice, issueDate: Date, dueDate: Option<Date>): Option<Date> {
    if dueDate.Some? then dueDate
    else if invoice.dueDate.Some? then invoice.dueDate
    else AddDays(issueDate, DEFAULT_PAYMENT_TERM_DAYS)
  }

  function IssueFindings(s: Store, invoice: Invoice, issueDate: Date, dueDate: Date, party: seq<Finding>): seq<Finding>
    requires invoice.companyId in s.companies && invoice.clientId in s.clients
  {
    BlockingOf(CheckedInvoice(party, invoice.lines, PartiesOf(s.companies[invoice.companyId], s.clients[invoice.clientId]),
                              issueDate, Some(dueDate), Blank(invoice.paymentTerms)))
  }

  function BucketScope(invoice: Invoice, issueDate: Date): Scope {
    Scope(invoice.companyId, MonthlyBucket(invoice.clientId, issueDate.year, issueDate.month))
  }

  /** `allocate_invoice_numbers`: both series advance, then the reference is formatted. */
  function InvoiceNumbers(counters: map<Scope, nat>, invoice: Invoice, issueDate: Date): map<Scope, nat> {
    Advanced(Advanced(counters, Scope(invoice.companyId, INVOICE_SERIES)), BucketScope(invoice, issueDate))
  }

  function IssuedInvoice(invoice: Invoice, reference: string, sequence: nat, issueDate: Date, dueDate: Date): Invoice {
    var t := TotalsOf(invoice.lines, invoice.discount, invoice.currency);
    invoice.(reference := Some(reference), sequence := Some(sequence), issueDate := issueDate,
             dueDate := Some(dueDate), subtotal := t.subtotal, totalDiscount := t.totalDiscount,
             totalVat := t.totalVat, totalTtc := t.totalTtc, status := Issued)
  }

  /** The unique constraints of the invoices table: NULLs are distinct. */
  predicate InvoiceKeyTaken(invoices: map<Id, Invoice>, id: Id, invoice: Invoice) {
    exists other :: other in invoices && other != id && invoices[other].companyId == invoice.companyId
      && ((invoice.reference.Some? && invoices[other].reference == invoice.reference)
          || (invoice.sequence.Some? && invoices[other].sequence == invoice.sequence))
  }

  function IssueInvoice(s: Store, id: Id, issueDate: Option<Date>, dueDate: Option<Date>, party: seq<Finding>): Result<Store> {
    if id !in s.invoices then Err(NotFound)
    else
      var invoice := s.invoices[id];
      if !invoice.status.Draft? then Err(BusinessRule)
      else if invoice.companyId !in s.companies || invoice.clientId !in s.clients then Err(NotFound)
      else
        var issued := Or(issueDate, invoice.issueDate);
        var due := EffectiveDueDate(invoice, issued, dueDate);
        if due.None? then Err(OverflowError)
        else
          var blocking := IssueFindings(s, invoice, issued, due.value, party);
          if blocking != [] then Err(NotCompliant(blocking))
          else NumberInvoice(s, id, issued, due.value)
  }

  /** The part of `issue` after the gate: numbers, freeze, store. It can still fail. */
  function NumberInvoice(s: Store, id: Id, issueDate: Date, dueDate: Date): Result<Store>
    requires id in s.invoices && s.invoices[id].companyId in s.companies && s.invoices[id].clientId in s.clients
  {
    var invoice := s.invoices[id];
    var counters := InvoiceNumbers(s.counters, invoice, issueDate);
    var reference := DisplayReference(
      s.companies[invoice.companyId].prefix, s.clients[invoice.clientId].name, issueDate.month,
      CounterOf(counters, BucketScope(invoice, issueDate)), issueDate.year);
    if reference.None? then Err(ValueError)
    else
      var issued := IssuedInvoice(invoice, reference.value, Counter(s, invoice.companyId, INVOICE_SERIES) + 1, issueDate, dueDate);
      if InvoiceKeyTaken(s.invoices, id, issued) then Err(IntegrityError)
      else Ok(s.(invoices := s.invoices[id := issued], counters := counters, audit := Audited(s, Issue, "invoice", id)))
  }

  // ------------------------------------------------------------------ void, credit note, payment

  function VoidInvoice(s: Store, id: Id, reason: string, now: Date): Result<Store> {
    if Blank(Some(reason)) then Err(BusinessRule)
    else if id !in s.invoices then Err(NotFound)
    else if s.invoices[id].status.Voided? then Err(BusinessRule)
    else
      var voided := s.invoices[id].(status := Voided, voidedAt := Some(now), voidedReason := Some(reason));
      Ok(s.(invoices := s.invoices[id := voided], audit := Audited(s, Void, "invoice", id)))
  }

  function NoteFor(invoice: Invoice, invoiceId: Id, reference: string, sequence: nat, issueDate: Date, reason: string): CreditNote {
    CreditNote(invoice.companyId, invoice.clientId, invoiceId, reference, sequence, issueDate, reason,
               invoice.currency, MirroredLines(invoice.lines), invoice.subtotal, invoice.totalVat, invoice.totalTtc)
  }

  predicate NoteKeyTaken(notes: map<Id, CreditNote>, note: CreditNote) {
    exists other :: other in notes && notes[other].companyId == note.companyId
      && (notes[other].reference == note.reference || notes[other].sequence == note.sequence)
  }

  function IssueCreditNote(s: Store, noteId: Id, invoiceId: Id, reason: string, issueDate: Date): Result<Store> {
    if Blank(Some(reason)) then Err(BusinessRule)
    else if invoiceId !in s.invoices then Err(NotFound)
    else
      var invoice := s.invoices[invoiceId];
      if invoice.status.Voided? then Err(BusinessRule)
      else if invoice.companyId !in s.companies then Err(NotFound)
      else
        var sequence := Counter(s, invoice.companyId, CREDIT_NOTE_SERIES) + 1;
        var reference := CreditNoteReference(s.companies[invoice.companyId].prefix, issueDate.year, sequence);
        if reference.None? then Err(ValueError)
        else
          var note := NoteFor(invoice, invoiceId, reference.value, sequence, issueDate, reason);
          if noteId in s.usedIds || NoteKeyTaken(s.notes, note) then Err(IntegrityError)
          else
            var voided := invoice.(status := Voided, voidedAt := Some(issueDate), voidedReason := Some(reason),
                                   voidedBy := Some(noteId));
            Ok(s.(invoices := s.invoices[invoiceId := voided],
                  notes := s.notes[noteId := note],
                  counters := Advanced(s.counters, Scope(invoice.companyId, CREDIT_NOTE_SERIES)),
                  usedIds := s.usedIds + {noteId},
                  audit := Audited(s, Create, "credit_note", noteId) + [AuditEntry(Void, "invoice", Some(invoiceId))]))
  }

  function RecordPayment(s: Store, invoiceId: Id, amount: real, paidOn: Date, reference: Option<string>): Result<Store> {
    if invoiceId !in s.invoices then Err(NotFound)
    else
      var invoice := s.invoices[invoiceId];
      if invoice.status.Voided? || invoice.status.Draft? then Err(BusinessRule)
      else
        var paid := PaidOn(s.payments, invoiceId) + amount;
        var total := Major(invoice.totalTtc, invoice.currency);
        if paid > total then Err(BusinessRule)
        else if amount <= 0.0 then Err(ValidationError)
        else
          var status := if paid == total then Paid else PartiallyPaid;
          Ok(s.(payments := s.payments + [Payment(invoiceId, amount, invoice.currency, paidOn, reference)],
                invoices := s.invoices[invoiceId := invoice.(status := status)],
                audit := Audited(s, Pay, "invoice", invoiceId)))
  }

  // ------------------------------------------------------------------ quotes

  datatype QuoteRequest = QuoteRequest(
    companyId: Id, clientId: Id, lines: seq<InvoiceLine>, issueDate: Option<Date>, validUntil: Option<Date>,
    discount: Option<Discount>, comments: Option<string>, terms: Option<string>,
    template: Option<string>, currency: Option<Currency>)

  function NewQuote(company: Company, r: QuoteRequest, reference: string, sequence: nat, issueDate: Date): Quote {
    var cur := Or(r.currency, company.defaultCurrency);
    var lines := Renumbered(r.lines);
    var t := TotalsOf(lines, r.discount, cur);
    Quote(r.companyId, r.clientId, reference, sequence, issueDate, r.validUntil, cur, lines, r.discount,
          r.comments, r.terms, Or(r.template, company.defaultTemplate),
          t.subtotal, t.totalDiscount, t.totalVat, t.totalTtc, QuoteDraft, None, None)
  }

  predicate QuoteKeyTaken(quotes: map<Id, Quote>, quote: Quote) {
    exists other :: other in quotes && quotes[other].companyId == quote.companyId
      && (quotes[other].reference == quote.reference || quotes[other].sequence == quote.sequence)
  }

  function CreateQuote(s: Store, id: Id, r: QuoteRequest, today: Date): Result<Store> {
    var issueDate := Or(r.issueDate, today);
    if r.lines == [] then Err(BusinessRule)
    else if !ValidRequest(r.lines, r.discount) then Err(ValidationError)
    else if r.validUntil.Some? && Before(r.validUntil.value, issueDate) then Err(BusinessRule)
    else if r.companyId !in s.companies then Err(NotFound)
    else if r.clientId !in s.clients then Err(NotFound)
    else if s.clients[r.clientId].companyId != r.companyId then Err(BusinessRule)
    else
      var company := s.companies[r.companyId];
      var sequence := Counter(s, r.companyId, QUOTE_SERIES) + 1;
      var reference := QuoteReference(company.prefix, issueDate.year, sequence);
      if reference.None? then Err(ValueError)
      else
        var quote := NewQuote(company, r, reference.value, sequence, issueDate);
        if !ValidTotals(quote.subtotal, quote.totalDiscount, quote.totalVat, quote.totalTtc) then Err(ValidationError)
        else if id in s.usedIds || QuoteKeyTaken(s.quotes, quote) then Err(IntegrityError)
        else Ok(s.(quotes := s.quotes[id := quote], usedIds := s.usedIds + {id},
                   counters := Advanced(s.counters, Scope(r.companyId, QUOTE_SERIES)),
                   audit := Audited(s, Create, "quote", id)))
  }

  /** `_ALLOWED`. */
  predicate AllowedTransition(from: QuoteStatus, to: QuoteStatus) {
    match from
    case QuoteDraft => to.Sent?
    case Sent => to.Accepted? || to.Rejected? || to.Expired?
    case Accepted => to.Converted?
    case _ => false
  }

  /** A transition and the updates that come with it. */
  datatype QuoteMove =
    | MarkSent
    | Accept(note: Option<string>)
    | Reject(note: Option<string>)
    | Expire
    | MarkConverted(invoiceId: Id)

  function TargetOf(move: QuoteMove): QuoteStatus {
    match move
    case MarkSent => Sent
    case Accept(_) => Accepted
    case Reject(_) => Rejected
    case Expire => Expired
    case MarkConverted(_) => Converted
  }

  function MovedQuote(quote: Quote, move: QuoteMove): Quote {
    var q := quote.(status := TargetOf(move));
    match move
    case Accept(note) => q.(decisionNote := note)
    case Reject(note) => q.(decisionNote := note)
    case MarkConverted(invoiceId) => q.(convertedInvoiceId := Some(invoiceId))
    case _ => q
  }

  /** `_transition`. */
  function TransitionQuote(s: Store, id: Id, move: QuoteMove): Result<Store> {
    if id !in s.quotes then Err(NotFound)
    else if !AllowedTransition(s.quotes[id].status, TargetOf(move)) then Err(BusinessRule)
    else Ok(s.(quotes := s.quotes[id := MovedQuote(s.quotes[id], move)], audit := Audited(s, Update, "quote", id)))
  }

  /** The draft `convert` asks for: the offer's own lines, discount, texts and currency. */
  function ConversionRequest(quote: Quote, issueDate: Option<Date>, dueDate: Option<Date>, today: Date): DraftRequest {
    DraftRequest(quote.companyId, quote.clientId, quote.lines, Some(Or(issueDate, today)), dueDate,
                 quote.discount, quote.comments, quote.terms, Some(quote.template), Some(quote.currency))
  }

  /** `convert` when nothing comes in between. It is two transactions, and the second cannot fail. */
  function ConvertQuote(s: Store, id: Id, invoiceId: Id, onDate: Option<Date>, dueDate: Option<Date>, today: Date): Result<Store> {
    if id !in s.quotes then Err(NotFound)
    else if !s.quotes[id].status.Accepted? then Err(BusinessRule)
    else
      var drafted := CreateDraft(s, invoiceId, ConversionRequest(s.quotes[id], onDate, dueDate, today), today);
      if drafted.Err? then drafted
      else TransitionQuote(drafted.value, id, MarkConverted(invoiceId))
  }

  function DeleteQuote(s: Store, id: Id): Result<Store> {
    if id !in s.quotes then Err(NotFound)
    else if s.quotes[id].status.Converted? then Err(BusinessRule)
    else if s.quotes[id].convertedInvoiceId.Some? then Err(ValueError)
    else Ok(s.(quotes := s.quotes - {id}, audit := Audited(s, Delete, "quote", id)))
  }

  // ------------------------------------------------------------------ any transaction

  datatype Command =
    | DoAddCompany(id: Id, company: Company)
    | DoUpdateCompany(id: Id, company: Company)
    | DoAddClient(id: Id, client: Client)
    | DoUpdateClient(id: Id, client: Client)
    | DoCreateDraft(id: Id, draft: DraftRequest, today: Date)
    | DoDuplicate(sourceId: Id, id: Id, onDate: Option<Date>, today: Date)
    | DoDeleteDraft(id: Id)
    | DoIssue(id: Id, onDate: Option<Date>, dueDate: Option<Date>, party: seq<Finding>)
    | DoVoid(id: Id, reason: string, now: Date)
    | DoCreditNote(id: Id, invoiceId: Id, reason: string, date: Date)
    | DoPay(invoiceId: Id, amount: real, paidOn: Date, paymentReference: Option<string>)
    | DoCreateQuote(id: Id, quote: QuoteRequest, today: Date)
    | DoTransition(id: Id, move: QuoteMove)
    | DoDeleteQuote(id: Id)

  function Execute(s: Store, c: Command): Result<Store> {
    match c
    case DoAddCompany(id, company) => AddCompany(s, id, company)
    case DoUpdateCompany(id, company) => UpdateCompany(s, id, company)
    case DoAddClient(id, client) => AddClient(s, id, client)
    case DoUpdateClient(id, client) => UpdateClient(s, id, client)
    case DoCreateDraft(id, draft, today) => CreateDraft(s, id, draft, today)
    case DoDuplicate(sourceId, id, onDate, today) => Duplicate(s, sourceId, id, onDate, today)
    case DoDeleteDraft(id) => DeleteDraft(s, id)
    case DoIssue(id, onDate, dueDate, party) => IssueInvoice(s, id, onDate, dueDate, party)
    case DoVoid(id, reason, now) => VoidInvoice(s, id, reason, now)
    case DoCreditNote(id, invoiceId, reason, date) => IssueCreditNote(s, id, invoiceId, reason, date)
    case DoPay(invoiceId, amount, paidOn, reference) => RecordPayment(s, invoiceId, amount, paidOn, reference)
    case DoCreateQuote(id, quote, today) => CreateQuote(s, id, quote, today)
    case DoTransition(id, move) => TransitionQuote(s, id, move)
    case DoDeleteQuote(id) => DeleteQuote(s, id)
  }

  /** The committed store after one use-case. */
  function Step(s: Store, c: Command): Store {
    var r := Execute(s, c);
    if r.Ok? then r.value else s
  }

  function Run(s: Store, cs: seq<Command>): Store {
    if cs == [] then s else Step(Run(s, cs[..|cs| - 1]), cs[|cs| - 1])
  }
}
