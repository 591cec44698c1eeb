// The rows of one organization (core/models/*.py) and the gapless counters
// (core/repository/sequence_repo.py, db/repositories/sqlalchemy_repositories.py:628-681).
module Store {
  import opened Common
  import opened Calendar
  import opened Money
  import opened Lines
  import opened Text
  import opened Compliance

  type Id = string

  datatype Company = Company(
    name: string, prefix: string, countryCode: string, defaultCurrency: Currency, defaultTemplate: string)

  datatype Client = Client(
    companyId: Id, name: string, countryCode: string, isBusiness: bool, vatNumber: Option<string>)

  datatype InvoiceStatus = Draft | Issued | Paid | PartiallyPaid | Overdue | Voided

  datatype Invoice = Invoice(
    companyId: Id,
    clientId: Id,
    reference: Option<string>,
    sequence: Option<nat>,
    issueDate: Date,
    dueDate: Option<Date>,
    currency: Currency,
    lines: seq<InvoiceLine>,
    discount: Option<Discount>,
    comments: Option<string>,
    paymentTerms: Option<string>,
    template: string,
    subtotal: int,
    totalDiscount: int,
    totalVat: int,
    totalTtc: int,
    status: InvoiceStatus,
    voidedAt: Option<Date>,
    voidedReason: Option<string>,
    voidedBy: Option<Id>)

  datatype QuoteStatus = QuoteDraft | Sent | Accepted | Rejected | Expired | Converted

  datatype Quote = Quote(
    companyId: Id,
    clientId: Id,
    reference: string,
    sequence: nat,
    issueDate: Date,
    validUntil: Option<Date>,
    currency: Currency,
    lines: seq<InvoiceLine>,
    discount: Option<Discount>,
    comments: Option<string>,
    terms: Option<string>,
    template: string,
    subtotal: int,
    totalDiscount: int,
    totalVat: int,
    totalTtc: int,
    status: QuoteStatus,
    decisionNote: Option<string>,
    convertedInvoiceId: Option<Id>)

  datatype CreditNoteLine = CreditNoteLine(
    lineNumber: nat, description: string, quantity: real, unitPrice: real, productId: Option<string>,
    supplyKind: SupplyKind, category: VatCategory, rate: real)

  datatype CreditNote = CreditNote(
    companyId: Id,
    clientId: Id,
    invoiceId: Id,
    reference: string,
    sequence: nat,
    issueDate: Date,
    reason: string,
    currency: Currency,
    lines: seq<CreditNoteLine>,
    subtotal: int,
    totalVat: int,
    totalTtc: int)

  /** Amounts received are exact decimals, not rounded to the smallest unit. */
  datatype Payment = Payment(
    invoiceId: Id, amount: real, currency: Currency, paidOn: Date, reference: Option<string>)

  datatype AuditAction = Create | Update | Void | Issue | Pay | Delete | ExportBackup | Restore

  datatype AuditEntry = AuditEntry(action: AuditAction, targetType: string, targetId: Option<Id>)

  datatype Scope = Scope(companyId: Id, name: string)

  /** `usedIds` stands for uuid4 never repeating a value the organization has seen. */
  datatype Store = Store(
    companies: map<Id, Company>,
    clients: map<Id, Client>,
    invoices: map<Id, Invoice>,
    quotes: map<Id, Quote>,
    notes: map<Id, CreditNote>,
    payments: seq<Payment>,
    counters: map<Scope, nat>,
    audit: seq<AuditEntry>,
    usedIds: set<Id>)

  const EMPTY := Store(map[], map[], map[], map[], map[], [], map[], [], {})

  datatype Error =
    | NotFound
    | BusinessRule
    | NotCompliant(findings: seq<Finding>)
    | ValueError
    | ValidationError
    | IntegrityError
    | OverflowError

  datatype Result<+T> = Ok(value: T) | Err(error: Error)

  // ------------------------------------------------------------------ counters

  function CounterOf(counters: map<Scope, nat>, scope: Scope): nat {
    if scope in counters then counters[scope] else 0
  }

  function Counter(s: Store, companyId: Id, name: string): nat {
    CounterOf(s.counters, Scope(companyId, name))
  }

  /** The counters after `next_value` on one scope. */
  function Advanced(counters: map<Scope, nat>, scope: Scope): map<Scope, nat> {
    counters[scope := CounterOf(counters, scope) + 1]
  }

  /** `restore_value` never lowers a counter. */
  function Restored(counters: map<Scope, nat>, scope: Scope, value: nat): map<Scope, nat> {
    counters[scope := if CounterOf(counters, scope) > value then CounterOf(counters, scope) else value]
  }

  // ------------------------------------------------------------------ payments

  /** What has been received on one invoice. */
  function PaidOn(payments: seq<Payment>, invoiceId: Id): real {
    if payments == [] then 0.0
    else
      var last := payments[|payments| - 1];
      PaidOn(payments[..|payments| - 1], invoiceId) + if last.invoiceId == invoiceId then last.amount else 0.0
  }

  lemma {:induction false} PaidOnSnoc(payments: seq<Payment>, p: Payment, invoiceId: Id)
    ensures PaidOn(payments + [p], invoiceId)
         == PaidOn(payments, invoiceId) + if p.invoiceId == invoiceId then p.amount else 0.0
  {
    assert (payments + [p])[..|payments|] == payments;
  }

  lemma {:induction false} PaidOnNonNegative(payments: seq<Payment>, invoiceId: Id)
    requires forall p :: p in payments ==> p.amount > 0.0
    ensures PaidOn(payments, invoiceId) >= 0.0
    ensures PaidOn(payments, invoiceId) == 0.0 <==> forall p :: p in payments ==> p.invoiceId != invoiceId
  {
    if payments != [] {
      var n := |payments| - 1;
      PaidOnNonNegative(payments[..n], invoiceId);
      assert payments[n] in payments;
      assert payments == payments[..n] + [payments[n]];
    }
  }

  // ------------------------------------------------------------------ what the repositories list

  /** `invoices.list(company_id=…)` and `credit_notes.list(company_id=…)`. */
  function InvoicesOf(s: Store, companyId: Id): set<Id> {
    set id | id in s.invoices && s.invoices[id].companyId == companyId
  }

  function NotesOf(s: Store, companyId: Id): set<Id> {
    set id | id in s.notes && s.notes[id].companyId == companyId
  }

  // ------------------------------------------------------------------ what a party check reads

  function CountryOr(code: string, default: string): string {
    if code == "" then default else Upper(code)
  }

  predicate Blank(text: Option<string>) {
    text.None? || forall i :: 0 <= i < |text.value| ==> IsSpace(text.value[i])
  }

  function PartiesOf(company: Company, client: Client): Parties {
    Parties(CountryOr(company.countryCode, "BE"), CountryOr(client.countryCode, ""),
            client.isBusiness, !Blank(client.vatNumber))
  }

  /** `Invoice.effective_status`. */
  function EffectiveStatus(invoice: Invoice, today: Date): InvoiceStatus {
    if invoice.status.Voided? || invoice.status.Paid? || invoice.status.Draft? then invoice.status
    else if invoice.dueDate.Some? && Before(invoice.dueDate.value, today) then Overdue
    else invoice.status
  }

  /** The credit-note line as the money engine reads it: a line without a discount. */
  function AsInvoiceLine(line: CreditNoteLine): InvoiceLine {
    InvoiceLine(line.lineNumber, line.description, line.quantity, line.unitPrice, line.productId,
                line.supplyKind, line.category, line.rate, None)
  }

  function AsInvoiceLines(lines: seq<CreditNoteLine>): (r: seq<InvoiceLine>)
    ensures |r| == |lines|
  {
    seq(|lines|, i requires 0 <= i < |lines| => AsInvoiceLine(lines[i]))
  }

  /** How a credit note mirrors an invoice line: no discount, and the supply kind is not copied. */
  function Mirrored(line: InvoiceLine): CreditNoteLine {
    CreditNoteLine(line.lineNumber, line.description, line.quantity, line.unitPrice, line.productId,
                   Services, line.category, line.rate)
  }

  function MirroredLines(lines: seq<InvoiceLine>): (r: seq<CreditNoteLine>)
    ensures |r| == |lines|
  {
    seq(|lines|, i requires 0 <= i < |lines| => Mirrored(lines[i]))
  }

  /** `line.model_copy(update={"line_number": index})`, numbered from one. */
  function Renumbered(lines: seq<InvoiceLine>): (r: seq<InvoiceLine>)
    ensures |r| == |lines|
  {
    seq(|lines|, i requires 0 <= i < |lines| => lines[i].(lineNumber := i + 1))
  }
}
