// What every transaction keeps true of the committed rows.
module LedgerInvariant {
  import opened Common
  import opened Calendar
  import opened Money
  import opened Lines
  import opened CurrencyMath
  import opened Numbering
  import opened Compliance
  import opened Store
  import opened Transactions

  // ------------------------------------------------------------------ numbered series

  datatype Ticket = Ticket(companyId: Id, number: nat)

  function InvoiceTickets(invoices: map<Id, Invoice>): map<Id, Ticket> {
    map id | id in invoices && invoices[id].sequence.Some? :: Ticket(invoices[id].companyId, invoices[id].sequence.value)
  }

  function NoteTickets(notes: map<Id, CreditNote>): map<Id, Ticket> {
    map id | id in notes :: Ticket(notes[id].companyId, notes[id].sequence)
  }

  function QuoteTickets(quotes: map<Id, Quote>): map<Id, Ticket> {
    map id | id in quotes :: Ticket(quotes[id].companyId, quotes[id].sequence)
  }

  /** Numbers in use lie in 1..counter and no two documents of a company share one. */
  ghost predicate UniqueSeries(tickets: map<Id, Ticket>, counters: map<Scope, nat>, name: string) {
    && (forall id :: id in tickets ==>
          1 <= tickets[id].number <= CounterOf(counters, Scope(tickets[id].companyId, name)))
    && (forall id, other :: id in tickets && other in tickets && tickets[id] == tickets[other] ==> id == other)
  }

  ghost predicate InUse(tickets: map<Id, Ticket>, c: Id, n: nat) {
    exists id :: id in tickets && tickets[id] == Ticket(c, n)
  }

  /** And every number in 1..counter is in use. */
  ghost predicate NoGap(tickets: map<Id, Ticket>, counters: map<Scope, nat>, name: string) {
    forall c: Id, n: nat :: 1 <= n <= CounterOf(counters, Scope(c, name)) ==> InUse(tickets, c, n)
  }

  /** The Belgian requirement: per company the numbers are exactly 1..counter, each used once. */
  ghost predicate Gapless(tickets: map<Id, Ticket>, counters: map<Scope, nat>, name: string) {
    UniqueSeries(tickets, counters, name) && NoGap(tickets, counters, name)
  }

  /** Drawing the next number and storing the document that carries it, in one transaction. */
  lemma {:induction false} DrawKeepsGapless(tickets: map<Id, Ticket>, counters: map<Scope, nat>, name: string, id: Id, c: Id)
    requires Gapless(tickets, counters, name) && id !in tickets
    ensures var drawn := CounterOf(counters, Scope(c, name)) + 1;
            Gapless(tickets[id := Ticket(c, drawn)], Advanced(counters, Scope(c, name)), name)
  {
    var drawn := CounterOf(counters, Scope(c, name)) + 1;
    var tickets', counters' := tickets[id := Ticket(c, drawn)], Advanced(counters, Scope(c, name));
    forall d: Id, n: nat | 1 <= n <= CounterOf(counters', Scope(d, name)) ensures InUse(tickets', d, n) {
      if d == c && n == drawn {
        assert tickets'[id] == Ticket(d, n);
      } else {
        assert InUse(tickets, d, n);
        var x :| x in tickets && tickets[x] == Ticket(d, n);
        assert tickets'[x] == Ticket(d, n);
      }
    }
  }

  lemma {:induction false} DrawKeepsUnique(tickets: map<Id, Ticket>, counters: map<Scope, nat>, name: string, id: Id, c: Id)
    requires UniqueSeries(tickets, counters, name) && id !in tickets
    ensures var drawn := CounterOf(counters, Scope(c, name)) + 1;
            UniqueSeries(tickets[id := Ticket(c, drawn)], Advanced(counters, Scope(c, name)), name)
  {
  }

  /** Advancing a counter of another name leaves a series alone. */
  lemma {:induction false} OtherScopeKeepsSeries(tickets: map<Id, Ticket>, counters: map<Scope, nat>, name: string, scope: Scope)
    requires scope.name != name
    ensures UniqueSeries(tickets, counters, name) ==> UniqueSeries(tickets, Advanced(counters, scope), name)
    ensures NoGap(tickets, counters, name) ==> NoGap(tickets, Advanced(counters, scope), name)
  {
    var counters' := Advanced(counters, scope);
    assert forall c: Id :: CounterOf(counters', Scope(c, name)) == CounterOf(counters, Scope(c, name));
    if NoGap(tickets, counters, name) {
      forall c: Id, n: nat | 1 <= n <= CounterOf(counters', Scope(c, name)) ensures InUse(tickets, c, n) {
        assert n <= CounterOf(counters, Scope(c, name));
      }
    }
  }

  // ------------------------------------------------------------------ documents

  predicate TotalsFrozen(lines: seq<InvoiceLine>, discount: Option<Discount>, cur: Currency,
                         subtotal: int, totalDiscount: int, totalVat: int, totalTtc: int) {
    var t := TotalsOf(lines, discount, cur);
    && subtotal == t.subtotal && totalDiscount == t.totalDiscount && totalVat == t.totalVat && totalTtc == t.totalTtc
    && ValidTotals(subtotal, totalDiscount, totalVat, totalTtc)
  }

  predicate SoundLines(lines: seq<InvoiceLine>, discount: Option<Discount>) {
    lines != [] && ValidLines(lines) && ValidDiscount(discount)
  }

  /** The lifecycle: which status may carry a number, and what a numbered invoice guarantees. */
  ghost predicate LifecycleOk(inv: Invoice) {
    && !inv.status.Overdue?
    && (inv.reference.Some? <==> inv.sequence.Some?)
    && (inv.status.Draft? ==> inv.sequence.None?)
    && (inv.status.Issued? || inv.status.PartiallyPaid? || inv.status.Paid? ==> inv.sequence.Some?)
    && (inv.voidedBy.Some? ==> inv.status.Voided?)
    && (inv.sequence.Some? ==> LawfullyIssued(inv))
  }

  /** What the compliance gate leaves behind on the document itself. */
  ghost predicate LawfullyIssued(inv: Invoice) {
    && inv.lines != []
    && inv.dueDate.Some? && NotAfter(inv.issueDate, inv.dueDate.value)
    && forall line :: line in inv.lines ==>
         !line.category.NotSubject? && (ZeroRated(line.category) ==> line.rate == 0.0)
  }

  ghost predicate PartiesExist(companies: map<Id, Company>, clients: map<Id, Client>, companyId: Id, clientId: Id) {
    companyId in companies && clientId in clients && clients[clientId].companyId == companyId
  }

  ghost predicate InvoiceOk(companies: map<Id, Company>, clients: map<Id, Client>, inv: Invoice) {
    && PartiesExist(companies, clients, inv.companyId, inv.clientId)
    && SoundLines(inv.lines, inv.discount)
    && TotalsFrozen(inv.lines, inv.discount, inv.currency, inv.subtotal, inv.totalDiscount, inv.totalVat, inv.totalTtc)
    && LifecycleOk(inv)
  }

  ghost predicate InvoicesOk(companies: map<Id, Company>, clients: map<Id, Client>, invoices: map<Id, Invoice>) {
    forall id :: id in invoices ==> InvoiceOk(companies, clients, invoices[id])
  }

  ghost predicate QuoteOk(companies: map<Id, Company>, clients: map<Id, Client>, q: Quote) {
    && PartiesExist(companies, clients, q.companyId, q.clientId)
    && SoundLines(q.lines, q.discount)
    && TotalsFrozen(q.lines, q.discount, q.currency, q.subtotal, q.totalDiscount, q.totalVat, q.totalTtc)
    && (q.status.Converted? <==> q.convertedInvoiceId.Some?)
  }

  ghost predicate QuotesOk(companies: map<Id, Company>, clients: map<Id, Client>, quotes: map<Id, Quote>) {
    forall id :: id in quotes ==> QuoteOk(companies, clients, quotes[id])
  }

  // ------------------------------------------------------------------ money received

  /** What an invoice's status says about what has been received on it. */
  predicate PaidMatches(inv: Invoice, paid: real) {
    var total := Major(inv.totalTtc, inv.currency);
    match inv.status
    case Draft => paid == 0.0
    case Issued => paid == 0.0
    case PartiallyPaid => 0.0 < paid < total
    case Paid => 0.0 < paid == total
    case Voided => 0.0 <= paid <= total
    case Overdue => false
  }

  ghost predicate PaymentsOk(invoices: map<Id, Invoice>, payments: seq<Payment>) {
    && (forall p :: p in payments ==>
          p.amount > 0.0 && p.invoiceId in invoices && p.currency == invoices[p.invoiceId].currency)
    && (forall id :: id in invoices ==> PaidMatches(invoices[id], PaidOn(payments, id)))
  }

  // ------------------------------------------------------------------ credit notes

  predicate NoteMirrors(note: CreditNote, inv: Invoice) {
    && note.companyId == inv.companyId && note.clientId == inv.clientId && note.currency == inv.currency
    && note.lines == MirroredLines(inv.lines)
    && note.subtotal == inv.subtotal && note.totalVat == inv.totalVat && note.totalTtc == inv.totalTtc
  }

  /** Credit notes and the invoices they voided are in bijection, and their totals match. */
  ghost predicate NotesOk(invoices: map<Id, Invoice>, notes: map<Id, CreditNote>) {
    && (forall n :: n in notes ==>
          && notes[n].invoiceId in invoices
          && invoices[notes[n].invoiceId].voidedBy == Some(n)
          && NoteMirrors(notes[n], invoices[notes[n].invoiceId]))
    && (forall id :: id in invoices && invoices[id].voidedBy.Some? ==>
          invoices[id].voidedBy.value in notes && notes[invoices[id].voidedBy.value].invoiceId == id)
  }

  // ------------------------------------------------------------------ the invariant

  ghost predicate IdsOk(s: Store) {
    && (forall id :: id in s.companies ==> id in s.usedIds)
    && (forall id :: id in s.clients ==> id in s.usedIds)
    && (forall id :: id in s.invoices ==> id in s.usedIds)
    && (forall id :: id in s.quotes ==> id in s.usedIds)
    && (forall id :: id in s.notes ==> id in s.usedIds)
  }

  ghost predicate ClientsOk(companies: map<Id, Company>, clients: map<Id, Client>) {
    forall id :: id in clients ==> clients[id].companyId in companies
  }

  ghost predicate SeriesOk(s: Store) {
    && Gapless(InvoiceTickets(s.invoices), s.counters, INVOICE_SERIES)
    && Gapless(NoteTickets(s.notes), s.counters, CREDIT_NOTE_SERIES)
    && UniqueSeries(QuoteTickets(s.quotes), s.counters, QUOTE_SERIES)
  }

  ghost predicate Inv(s: Store) {
    && IdsOk(s)
    && ClientsOk(s.companies, s.clients)
    && InvoicesOk(s.companies, s.clients, s.invoices)
    && QuotesOk(s.companies, s.clients, s.quotes)
    && PaymentsOk(s.invoices, s.payments)
    && NotesOk(s.invoices, s.notes)
    && SeriesOk(s)
  }

  lemma {:induction false} EmptyStoreOk(s: Store)
    requires s == EMPTY
    ensures Inv(s)
  {
    assert InvoiceTickets(s.invoices) == map[] && NoteTickets(s.notes) == map[] && QuoteTickets(s.quotes) == map[];
    assert forall c: Id, name: string :: CounterOf(s.counters, Scope(c, name)) == 0;
  }

  // ------------------------------------------------------------------ one row changes

  lemma {:induction false} RowKeepsInvoices(companies: map<Id, Company>, clients: map<Id, Client>,
                                            invoices: map<Id, Invoice>, id: Id, inv: Invoice)
    requires InvoicesOk(companies, clients, invoices) && InvoiceOk(companies, clients, inv)
    ensures InvoicesOk(companies, clients, invoices[id := inv])
  {
    hide InvoiceOk;
  }

  lemma {:induction false} RowKeepsPayments(invoices: map<Id, Invoice>, payments: seq<Payment>, id: Id, inv: Invoice)
    requires PaymentsOk(invoices, payments)
    requires id in invoices ==> inv.currency == invoices[id].currency
    requires PaidMatches(inv, PaidOn(payments, id))
    ensures PaymentsOk(invoices[id := inv], payments)
  {
    hide PaidMatches;
  }

  /** The part of an invoice that its credit note mirrors. */
  ghost predicate SameSale(a: Invoice, b: Invoice) {
    && a.companyId == b.companyId && a.clientId == b.clientId && a.currency == b.currency && a.lines == b.lines
    && a.subtotal == b.subtotal && a.totalVat == b.totalVat && a.totalTtc == b.totalTtc
  }

  lemma {:induction false} RowKeepsNotes(invoices: map<Id, Invoice>, notes: map<Id, CreditNote>, id: Id, inv: Invoice)
    requires NotesOk(invoices, notes)
    requires if id in invoices then inv.voidedBy == invoices[id].voidedBy && SameSale(inv, invoices[id]) else inv.voidedBy.None?
    ensures NotesOk(invoices[id := inv], notes)
  {
  }

  // ------------------------------------------------------------------ companies and clients

  lemma {:induction false} PartiesGrow(s: Store, s': Store)
    requires Inv(s)
    requires s'.invoices == s.invoices && s'.quotes == s.quotes && s'.notes == s.notes
    requires s'.payments == s.payments && s'.counters == s.counters
    requires s.companies.Keys <= s'.companies.Keys
    requires forall id :: id in s.clients ==> id in s'.clients && s'.clients[id].companyId == s.clients[id].companyId
    requires ClientsOk(s'.companies, s'.clients) && IdsOk(s')
    ensures Inv(s')
  {
    hide TotalsFrozen, LifecycleOk, SoundLines;
    forall id | id in s.invoices ensures InvoiceOk(s'.companies, s'.clients, s.invoices[id]) {
      assert InvoiceOk(s.companies, s.clients, s.invoices[id]);
    }
    forall id | id in s.quotes ensures QuoteOk(s'.companies, s'.clients, s.quotes[id]) {
      assert QuoteOk(s.companies, s.clients, s.quotes[id]);
    }
  }

  lemma {:induction false} CompanyCommandsKeep(s: Store, id: Id, company: Company)
    requires Inv(s)
    ensures AddCompany(s, id, company).Ok? ==> Inv(AddCompany(s, id, company).value)
    ensures UpdateCompany(s, id, company).Ok? ==> Inv(UpdateCompany(s, id, company).value)
  {
    hide InvoicesOk, QuotesOk, PaymentsOk, NotesOk, SeriesOk;
    if AddCompany(s, id, company).Ok? {
      var s' := AddCompany(s, id, company).value;
      assert ClientsOk(s'.companies, s'.clients) && IdsOk(s');
      PartiesGrow(s, s');
    }
    if UpdateCompany(s, id, company).Ok? {
      var s' := UpdateCompany(s, id, company).value;
      assert ClientsOk(s'.companies, s'.clients) && IdsOk(s');
      PartiesGrow(s, s');
    }
  }

  lemma {:induction false} ClientCommandsKeep(s: Store, id: Id, client: Client)
    requires Inv(s)
    ensures AddClient(s, id, client).Ok? ==> Inv(AddClient(s, id, client).value)
    ensures UpdateClient(s, id, client).Ok? ==> Inv(UpdateClient(s, id, client).value)
  {
    hide InvoicesOk, QuotesOk, PaymentsOk, NotesOk, SeriesOk;
    if AddClient(s, id, client).Ok? {
      var s' := AddClient(s, id, client).value;
      assert id !in s.clients;
      assert ClientsOk(s'.companies, s'.clients) && IdsOk(s');
      PartiesGrow(s, s');
    }
    if UpdateClient(s, id, client).Ok? {
      var s' := UpdateClient(s, id, client).value;
      assert ClientsOk(s'.companies, s'.clients) && IdsOk(s');
      PartiesGrow(s, s');
    }
  }

  // ------------------------------------------------------------------ invoices

  /** A change to one invoice row that keeps its number (or its lack of one) and the other tables. */
  lemma {:induction false} RowChangeKeepsSeries(invoices: map<Id, Invoice>, id: Id, inv: Invoice)
    requires inv.sequence.None? ==> id !in invoices || invoices[id].sequence.None?
    requires inv.sequence.Some? ==> id in invoices && invoices[id].sequence == inv.sequence && invoices[id].companyId == inv.companyId
    ensures InvoiceTickets(invoices[id := inv]) == InvoiceTickets(invoices)
  {
  }

  // What the invariant says, in the pieces the steps below use.
  lemma {:induction false} InvoiceFacts(s: Store, id: Id)
    requires Inv(s) && id in s.invoices
    ensures InvoicesOk(s.companies, s.clients, s.invoices) && PaymentsOk(s.invoices, s.payments) && NotesOk(s.invoices, s.notes)
    ensures InvoiceOk(s.companies, s.clients, s.invoices[id]) && PaidMatches(s.invoices[id], PaidOn(s.payments, id))
    ensures SeriesOk(s) && id in s.usedIds
    ensures forall p :: p in s.payments ==> p.amount > 0.0
  {
    hide QuotesOk, NotesOk, SeriesOk, ClientsOk, InvoiceOk, PaidMatches;
  }

  lemma {:induction false} StoreFacts(s: Store)
    requires Inv(s)
    ensures InvoicesOk(s.companies, s.clients, s.invoices) && PaymentsOk(s.invoices, s.payments) && NotesOk(s.invoices, s.notes)
    ensures SeriesOk(s)
    ensures forall id :: id in s.invoices ==> id in s.usedIds
    ensures forall id :: id in s.notes ==> id in s.usedIds
  {
    hide InvoicesOk, PaymentsOk, QuotesOk, NotesOk, SeriesOk, ClientsOk;
  }

  lemma {:induction false} CreateDraftKeeps(s: Store, id: Id, r: DraftRequest, today: Date)
    requires Inv(s) && CreateDraft(s, id, r, today).Ok?
    ensures Inv(CreateDraft(s, id, r, today).value)
  {
    hide Inv, InvoicesOk, PaymentsOk, NotesOk, SeriesOk, InvoiceOk, PaidOn, InvoiceTickets, TotalsOf;
    StoreFacts(s);
    var s' := CreateDraft(s, id, r, today).value;
    var draft := NewDraft(s.companies[r.companyId], r, today);
    DraftOk(s, r, today);
    NothingPaid(s.invoices, s.payments, id);
    RowKeepsInvoices(s.companies, s.clients, s.invoices, id, draft);
    RowKeepsPayments(s.invoices, s.payments, id, draft);
    RowKeepsNotes(s.invoices, s.notes, id, draft);
    RowChangeKeepsSeries(s.invoices, id, draft);
    RowKeeps(s, s', id, draft);
  }

  lemma {:induction false} NothingPaid(invoices: map<Id, Invoice>, payments: seq<Payment>, id: Id)
    requires PaymentsOk(invoices, payments) && id !in invoices
    ensures PaidOn(payments, id) == 0.0
  {
    PaidOnNonNegative(payments, id);
  }

  /** Assembling the invariant after a change to one invoice row. */
  lemma {:induction false} RowKeeps(s: Store, s': Store, id: Id, inv: Invoice)
    requires Inv(s)
    requires s' == s.(invoices := s.invoices[id := inv], usedIds := s'.usedIds, audit := s'.audit)
    requires s.usedIds <= s'.usedIds && id in s'.usedIds
    requires InvoicesOk(s.companies, s.clients, s.invoices[id := inv])
    requires PaymentsOk(s.invoices[id := inv], s.payments)
    requires NotesOk(s.invoices[id := inv], s.notes)
    requires InvoiceTickets(s.invoices[id := inv]) == InvoiceTickets(s.invoices)
    ensures Inv(s')
  {
    hide Inv, InvoicesOk, PaymentsOk, NotesOk, SeriesOk, InvoiceTickets, NoteTickets, QuoteTickets;
    StoreFacts(s);
    SeriesSame(s, s');
    InvoicesKeep(s, s');
  }

  lemma {:induction false} DraftOk(s: Store, r: DraftRequest, today: Date)
    requires r.companyId in s.companies && r.clientId in s.clients && s.clients[r.clientId].companyId == r.companyId
    requires r.lines != [] && ValidRequest(r.lines, r.discount)
    requires var d := NewDraft(s.companies[r.companyId], r, today);
             ValidTotals(d.subtotal, d.totalDiscount, d.totalVat, d.totalTtc)
    ensures InvoiceOk(s.companies, s.clients, NewDraft(s.companies[r.companyId], r, today))
  {
    hide TotalsOf;
    RenumberedValid(r.lines);
  }

  lemma {:induction false} RenumberedValid(lines: seq<InvoiceLine>)
    requires ValidLines(lines)
    ensures ValidLines(Renumbered(lines))
  {
    forall line | line in Renumbered(lines) ensures ValidLine(line) {
      var i :| 0 <= i < |lines| && line == lines[i].(lineNumber := i + 1);
      assert lines[i] in lines;
    }
  }

  lemma {:induction false} DeleteDraftKeeps(s: Store, id: Id)
    requires Inv(s) && DeleteDraft(s, id).Ok?
    ensures Inv(DeleteDraft(s, id).value)
  {
    hide Inv, InvoicesOk, PaymentsOk, NotesOk, SeriesOk, InvoiceTickets, NoteTickets, QuoteTickets;
    StoreFacts(s);
    DraftHasNothing(s, id);
    var s' := DeleteDraft(s, id).value;
    RemovalKeeps(s.companies, s.clients, s.invoices, s.payments, s.notes, id);
    SeriesSame(s, s');
    InvoicesKeep(s, s');
  }

  /** Assembling the invariant after a change to the invoices. */
  lemma {:induction false} InvoicesKeep(s: Store, s': Store)
    requires Inv(s)
    requires s' == s.(invoices := s'.invoices, notes := s'.notes, payments := s'.payments, counters := s'.counters,
                      usedIds := s'.usedIds, audit := s'.audit)
    requires InvoicesOk(s.companies, s.clients, s'.invoices) && PaymentsOk(s'.invoices, s'.payments)
    requires NotesOk(s'.invoices, s'.notes) && SeriesOk(s')
    requires s.usedIds <= s'.usedIds
    requires forall id :: id in s'.invoices ==> id in s'.usedIds
    requires forall id :: id in s'.notes ==> id in s'.usedIds
    ensures Inv(s')
  {
    hide InvoicesOk, QuotesOk, PaymentsOk, NotesOk, SeriesOk, ClientsOk;
  }

  lemma {:induction false} DraftHasNothing(s: Store, id: Id)
    requires Inv(s) && id in s.invoices && s.invoices[id].status.Draft?
    ensures s.invoices[id].sequence.None? && s.invoices[id].voidedBy.None?
    ensures forall p :: p in s.payments ==> p.invoiceId != id
  {
    hide Inv, InvoicesOk, PaymentsOk, NotesOk, SeriesOk, TotalsFrozen, SoundLines, LawfullyIssued, PaidOn;
    InvoiceFacts(s, id);
    PaidOnNonNegative(s.payments, id);
  }

  lemma {:induction false} RemovalKeeps(companies: map<Id, Company>, clients: map<Id, Client>,
                                        invoices: map<Id, Invoice>, payments: seq<Payment>, notes: map<Id, CreditNote>, id: Id)
    requires InvoicesOk(companies, clients, invoices) && PaymentsOk(invoices, payments) && NotesOk(invoices, notes)
    requires id in invoices && invoices[id].sequence.None? && invoices[id].voidedBy.None?
    requires forall p :: p in payments ==> p.invoiceId != id
    ensures InvoicesOk(companies, clients, invoices - {id})
    ensures PaymentsOk(invoices - {id}, payments) && NotesOk(invoices - {id}, notes)
    ensures InvoiceTickets(invoices - {id}) == InvoiceTickets(invoices)
  {
    hide InvoiceOk, PaidMatches;
  }

  lemma {:induction false} IssueKeeps(s: Store, id: Id, onDate: Option<Date>, dueDate: Option<Date>, party: seq<Finding>)
    requires Inv(s) && IssueInvoice(s, id, onDate, dueDate, party).Ok?
    ensures Inv(IssueInvoice(s, id, onDate, dueDate, party).value)
  {
    hide Inv, NumberInvoice, CheckedInvoice;
    var inv := s.invoices[id];
    var issueDate := Or(onDate, inv.issueDate);
    var due := EffectiveDueDate(inv, issueDate, dueDate).value;
    GateOpensIff(party, inv.lines, PartiesOf(s.companies[inv.companyId], s.clients[inv.clientId]),
                 issueDate, Some(due), Blank(inv.paymentTerms));
    InvoiceFacts(s, id);
    forall line | line in inv.lines
      ensures !line.category.NotSubject? && (ZeroRated(line.category) ==> line.rate == 0.0)
    {
      assert ValidLine(line);
    }
    NumberKeeps(s, id, issueDate, due);
  }

  lemma {:induction false} NumberKeeps(s: Store, id: Id, issueDate: Date, due: Date)
    requires Inv(s) && id in s.invoices && s.invoices[id].status.Draft?
    requires s.invoices[id].companyId in s.companies && s.invoices[id].clientId in s.clients
    requires NumberInvoice(s, id, issueDate, due).Ok?
    requires NotAfter(issueDate, due)
    requires forall line :: line in s.invoices[id].lines ==>
      !line.category.NotSubject? && (ZeroRated(line.category) ==> line.rate == 0.0)
    ensures Inv(NumberInvoice(s, id, issueDate, due).value)
  {
    hide Inv, InvoicesOk, PaymentsOk, NotesOk, SeriesOk, TotalsFrozen, SoundLines, LawfullyIssued, PartiesExist, TotalsOf,
         DisplayReference, MonthlyBucket, InvoiceKeyTaken, PaidOn, InvoiceNumbers;
    InvoiceFacts(s, id);
    var inv := s.invoices[id];
    var s' := NumberInvoice(s, id, issueDate, due).value;
    var issued := s'.invoices[id];
    IssuedOk(s, inv, issued.reference.value, issued.sequence.value, issueDate, due);
    assert s' == s.(invoices := s.invoices[id := issued], counters := InvoiceNumbers(s.counters, inv, issueDate), audit := s'.audit);
    NumberedRowKeeps(s, s', id, issued, issueDate);
  }

  lemma {:induction false} NumberedRowKeeps(s: Store, s': Store, id: Id, issued: Invoice, issueDate: Date)
    requires Inv(s) && id in s.invoices && s.invoices[id].sequence.None? && s.invoices[id].voidedBy.None?
    requires InvoiceOk(s.companies, s.clients, issued) && SameSale(issued, s.invoices[id]) && issued.voidedBy.None?
    requires issued.sequence == Some(Counter(s, issued.companyId, INVOICE_SERIES) + 1)
    requires PaidMatches(issued, PaidOn(s.payments, id))
    requires s' == s.(invoices := s.invoices[id := issued],
                      counters := InvoiceNumbers(s.counters, s.invoices[id], issueDate), audit := s'.audit)
    ensures Inv(s')
  {
    hide Inv, InvoicesOk, PaymentsOk, NotesOk, SeriesOk, InvoiceTickets, NoteTickets, QuoteTickets,
         InvoiceNumbers, InvoiceOk, PaidMatches, PaidOn, Gapless, UniqueSeries;
    StoreFacts(s);
    RowKeepsInvoices(s.companies, s.clients, s.invoices, id, issued);
    RowKeepsPayments(s.invoices, s.payments, id, issued);
    RowKeepsNotes(s.invoices, s.notes, id, issued);
    NoTicket(s.invoices, id);
    NumberedSeriesKeep(s, s.invoices[id], issueDate, id);
    NewTicket(s.invoices, id, issued);
    SeriesFrom(s');
    InvoicesKeep(s, s');
  }

  lemma {:induction false} NoTicket(invoices: map<Id, Invoice>, id: Id)
    requires id in invoices ==> invoices[id].sequence.None?
    ensures id !in InvoiceTickets(invoices)
  {
  }

  lemma {:induction false} NewTicket(invoices: map<Id, Invoice>, id: Id, inv: Invoice)
    requires inv.sequence.Some?
    ensures InvoiceTickets(invoices[id := inv]) == InvoiceTickets(invoices)[id := Ticket(inv.companyId, inv.sequence.value)]
  {
  }

  lemma {:induction false} IssuedOk(s: Store, inv: Invoice, reference: string, sequence: nat, issueDate: Date, due: Date)
    requires InvoiceOk(s.companies, s.clients, inv) && inv.status.Draft?
    requires NotAfter(issueDate, due)
    requires forall line :: line in inv.lines ==>
      !line.category.NotSubject? && (ZeroRated(line.category) ==> line.rate == 0.0)
    ensures InvoiceOk(s.companies, s.clients, IssuedInvoice(inv, reference, sequence, issueDate, due))
    ensures SameSale(IssuedInvoice(inv, reference, sequence, issueDate, due), inv)
  {
    hide TotalsOf;
  }

  /** The two counters `issue` advances: the invoice series gets its ticket, the others are left alone. */
  lemma {:induction false} NumberedSeriesKeep(s: Store, inv: Invoice, issueDate: Date, id: Id)
    requires SeriesOk(s) && id !in InvoiceTickets(s.invoices)
    ensures var counters := InvoiceNumbers(s.counters, inv, issueDate);
            var ticket := Ticket(inv.companyId, Counter(s, inv.companyId, INVOICE_SERIES) + 1);
            && Gapless(InvoiceTickets(s.invoices)[id := ticket], counters, INVOICE_SERIES)
            && Gapless(NoteTickets(s.notes), counters, CREDIT_NOTE_SERIES)
            && UniqueSeries(QuoteTickets(s.quotes), counters, QUOTE_SERIES)
  {
    var series, bucket := Scope(inv.companyId, INVOICE_SERIES), BucketScope(inv, issueDate);
    var first := Advanced(s.counters, series);
    var tickets := InvoiceTickets(s.invoices)[id := Ticket(inv.companyId, Counter(s, inv.companyId, INVOICE_SERIES) + 1)];
    BucketIsNoSeries(inv.clientId, issueDate.year, issueDate.month);
    assert INVOICE_SERIES[0] != CREDIT_NOTE_SERIES[0] && INVOICE_SERIES[0] != QUOTE_SERIES[0];
    hide BucketScope, Gapless, UniqueSeries, NoGap;
    SeriesSplit(InvoiceTickets(s.invoices), s.counters, INVOICE_SERIES);
    DrawKeepsGapless(InvoiceTickets(s.invoices), s.counters, INVOICE_SERIES, id, inv.companyId);
    OtherScopeKeeps(tickets, first, INVOICE_SERIES, bucket);
    OtherScopeKeeps(NoteTickets(s.notes), s.counters, CREDIT_NOTE_SERIES, series);
    OtherScopeKeeps(NoteTickets(s.notes), first, CREDIT_NOTE_SERIES, bucket);
    OtherScopeKeepsSeries(QuoteTickets(s.quotes), s.counters, QUOTE_SERIES, series);
    OtherScopeKeepsSeries(QuoteTickets(s.quotes), first, QUOTE_SERIES, bucket);
  }

  lemma {:induction false} SeriesSplit(tickets: map<Id, Ticket>, counters: map<Scope, nat>, name: string)
    ensures Gapless(tickets, counters, name) <==> UniqueSeries(tickets, counters, name) && NoGap(tickets, counters, name)
  {
  }

  lemma {:induction false} OtherScopeKeeps(tickets: map<Id, Ticket>, counters: map<Scope, nat>, name: string, scope: Scope)
    requires scope.name != name && Gapless(tickets, counters, name)
    ensures Gapless(tickets, Advanced(counters, scope), name)
  {
    OtherScopeKeepsSeries(tickets, counters, name, scope);
  }

  // ------------------------------------------------------------------ void, credit note, payment

  /** The row after a void, by credit note or bare. */
  ghost predicate VoidedFrom(inv: Invoice, voided: Invoice) {
    && inv.status != Voided && voided.status.Voided?
    && SameSale(voided, inv)
    && voided.sequence == inv.sequence && voided.reference == inv.reference
    && voided.issueDate == inv.issueDate && voided.dueDate == inv.dueDate
    && voided.discount == inv.discount && voided.totalDiscount == inv.totalDiscount
  }

  lemma {:induction false} VoidedRowOk(companies: map<Id, Company>, clients: map<Id, Client>, inv: Invoice, voided: Invoice, paid: real)
    requires InvoiceOk(companies, clients, inv) && PaidMatches(inv, paid) && VoidedFrom(inv, voided)
    ensures InvoiceOk(companies, clients, voided) && PaidMatches(voided, paid)
  {
    hide TotalsOf, SoundLines;
  }

  lemma {:induction false} VoidKeeps(s: Store, id: Id, reason: string, now: Date)
    requires Inv(s) && VoidInvoice(s, id, reason, now).Ok?
    ensures Inv(VoidInvoice(s, id, reason, now).value)
  {
    hide Inv, InvoicesOk, PaymentsOk, NotesOk, SeriesOk, InvoiceOk, PaidMatches, InvoiceTickets, PaidOn, Blank;
    InvoiceFacts(s, id);
    var s' := VoidInvoice(s, id, reason, now).value;
    var inv, voided := s.invoices[id], s'.invoices[id];
    VoidedRowOk(s.companies, s.clients, inv, voided, PaidOn(s.payments, id));
    RowKeepsInvoices(s.companies, s.clients, s.invoices, id, voided);
    RowKeepsPayments(s.invoices, s.payments, id, voided);
    RowKeepsNotes(s.invoices, s.notes, id, voided);
    RowChangeKeepsSeries(s.invoices, id, voided);
    RowKeeps(s, s', id, voided);
  }

  /** A new credit note and the invoice it voids: the bijection gains one pair. */
  lemma {:induction false} NewNoteKeeps(invoices: map<Id, Invoice>, notes: map<Id, CreditNote>, id: Id, voided: Invoice,
                                        noteId: Id, note: CreditNote)
    requires NotesOk(invoices, notes) && id in invoices && noteId !in notes
    requires invoices[id].voidedBy.None? && voided.voidedBy == Some(noteId)
    requires note.invoiceId == id && NoteMirrors(note, voided)
    ensures NotesOk(invoices[id := voided], notes[noteId := note])
  {
  }

  lemma {:induction false} NamesDiffer()
    ensures INVOICE_SERIES != CREDIT_NOTE_SERIES && INVOICE_SERIES != QUOTE_SERIES && CREDIT_NOTE_SERIES != QUOTE_SERIES
  {
    assert INVOICE_SERIES[0] == 'i' && CREDIT_NOTE_SERIES[0] == 'c' && QUOTE_SERIES[0] == 'q';
  }

  lemma {:induction false} SeriesSplitUp(s: Store)
    requires SeriesOk(s)
    ensures Gapless(InvoiceTickets(s.invoices), s.counters, INVOICE_SERIES)
    ensures Gapless(NoteTickets(s.notes), s.counters, CREDIT_NOTE_SERIES)
    ensures UniqueSeries(QuoteTickets(s.quotes), s.counters, QUOTE_SERIES)
  {
    hide Gapless, UniqueSeries, InvoiceTickets, NoteTickets, QuoteTickets;
  }

  lemma {:induction false} NewNoteTicket(notes: map<Id, CreditNote>, id: Id, note: CreditNote)
    ensures NoteTickets(notes[id := note]) == NoteTickets(notes)[id := Ticket(note.companyId, note.sequence)]
    ensures id in NoteTickets(notes) <==> id in notes
  {
  }

  lemma {:induction false} NewQuoteTicket(quotes: map<Id, Quote>, id: Id, q: Quote)
    ensures QuoteTickets(quotes[id := q]) == QuoteTickets(quotes)[id := Ticket(q.companyId, q.sequence)]
    ensures id in QuoteTickets(quotes) <==> id in quotes
  {
  }

  lemma {:induction false} NoteSeriesKeep(s: Store, noteId: Id, note: CreditNote)
    requires SeriesOk(s) && noteId !in s.notes
    requires note.sequence == Counter(s, note.companyId, CREDIT_NOTE_SERIES) + 1
    ensures var counters := Advanced(s.counters, Scope(note.companyId, CREDIT_NOTE_SERIES));
            && Gapless(InvoiceTickets(s.invoices), counters, INVOICE_SERIES)
            && Gapless(NoteTickets(s.notes[noteId := note]), counters, CREDIT_NOTE_SERIES)
            && UniqueSeries(QuoteTickets(s.quotes), counters, QUOTE_SERIES)
  {
    NewNoteTicket(s.notes, noteId, note);
    SeriesSplitUp(s);
    assert note.sequence == CounterOf(s.counters, Scope(note.companyId, CREDIT_NOTE_SERIES)) + 1;
    hide *;
    var scope := Scope(note.companyId, CREDIT_NOTE_SERIES);
    NamesDiffer();
    DrawKeepsGapless(NoteTickets(s.notes), s.counters, CREDIT_NOTE_SERIES, noteId, note.companyId);
    OtherScopeKeeps(InvoiceTickets(s.invoices), s.counters, INVOICE_SERIES, scope);
    OtherScopeKeepsSeries(QuoteTickets(s.quotes), s.counters, QUOTE_SERIES, scope);
  }

  lemma {:induction false} CreditNoteKeeps(s: Store, noteId: Id, invoiceId: Id, reason: string, date: Date)
    requires Inv(s) && IssueCreditNote(s, noteId, invoiceId, reason, date).Ok?
    ensures Inv(IssueCreditNote(s, noteId, invoiceId, reason, date).value)
  {
    hide Inv, InvoicesOk, PaymentsOk, NotesOk, SeriesOk, TotalsFrozen, SoundLines, LawfullyIssued, PartiesExist,
         CreditNoteReference, NoteKeyTaken, PaidMatches, PaidOn;
    InvoiceFacts(s, invoiceId);
    var s' := IssueCreditNote(s, noteId, invoiceId, reason, date).value;
    var inv, voided, note := s.invoices[invoiceId], s'.invoices[invoiceId], s'.notes[noteId];
    assert note.invoiceId == invoiceId && NoteMirrors(note, voided) && VoidedFrom(inv, voided);
    NotedRowKeeps(s, s', invoiceId, voided, noteId, note);
  }

  lemma {:induction false} NotedRowKeeps(s: Store, s': Store, id: Id, voided: Invoice, noteId: Id, note: CreditNote)
    requires Inv(s) && id in s.invoices && noteId !in s.usedIds
    requires InvoiceOk(s.companies, s.clients, s.invoices[id]) && PaidMatches(s.invoices[id], PaidOn(s.payments, id))
    requires s.invoices[id].voidedBy.None? && voided.voidedBy == Some(noteId) && VoidedFrom(s.invoices[id], voided)
    requires note.invoiceId == id && NoteMirrors(note, voided)
    requires note.sequence == Counter(s, note.companyId, CREDIT_NOTE_SERIES) + 1
    requires s' == s.(invoices := s.invoices[id := voided], notes := s.notes[noteId := note], usedIds := s.usedIds + {noteId},
                      counters := Advanced(s.counters, Scope(note.companyId, CREDIT_NOTE_SERIES)), audit := s'.audit)
    ensures Inv(s')
  {
    hide Inv, InvoicesOk, PaymentsOk, NotesOk, InvoiceTickets, NoteTickets, QuoteTickets, InvoiceOk, PaidMatches,
         PaidOn, NoteMirrors, Gapless, UniqueSeries, SeriesOk;
    StoreFacts(s);
    VoidedRowOk(s.companies, s.clients, s.invoices[id], voided, PaidOn(s.payments, id));
    RowKeepsInvoices(s.companies, s.clients, s.invoices, id, voided);
    RowKeepsPayments(s.invoices, s.payments, id, voided);
    NewNoteKeeps(s.invoices, s.notes, id, voided, noteId, note);
    RowChangeKeepsSeries(s.invoices, id, voided);
    NoteSeriesKeep(s, noteId, note);
    SeriesFrom(s');
    InvoicesKeep(s, s');
  }

  /** Receiving money: the status follows the sum, and the sum stays within the total. */
  lemma {:induction false} NewPaymentKeeps(invoices: map<Id, Invoice>, payments: seq<Payment>, p: Payment, inv: Invoice)
    requires PaymentsOk(invoices, payments)
    requires p.invoiceId in invoices && p.amount > 0.0 && p.currency == invoices[p.invoiceId].currency == inv.currency
    requires PaidMatches(inv, PaidOn(payments, p.invoiceId) + p.amount)
    ensures PaymentsOk(invoices[p.invoiceId := inv], payments + [p])
  {
    hide PaidMatches;
    var invoices' := invoices[p.invoiceId := inv];
    forall id | id in invoices' ensures PaidMatches(invoices'[id], PaidOn(payments + [p], id)) {
      PaidOnSnoc(payments, p, id);
    }
  }

  lemma {:induction false} PayKeeps(s: Store, id: Id, amount: real, paidOn: Date, reference: Option<string>)
    requires Inv(s) && RecordPayment(s, id, amount, paidOn, reference).Ok?
    ensures Inv(RecordPayment(s, id, amount, paidOn, reference).value)
  {
    hide Inv, InvoicesOk, PaymentsOk, NotesOk, SeriesOk, InvoiceTickets, NoteTickets, QuoteTickets, InvoiceOk, PaidOn;
    InvoiceFacts(s, id);
    var s' := RecordPayment(s, id, amount, paidOn, reference).value;
    var inv, updated := s.invoices[id], s'.invoices[id];
    var p := Payment(id, amount, inv.currency, paidOn, reference);
    PaidOnNonNegative(s.payments, id);
    PaidRowOk(s.companies, s.clients, inv, updated, PaidOn(s.payments, id) + amount);
    hide PaidMatches, Major;
    NewPaymentKeeps(s.invoices, s.payments, p, updated);
    RowKeepsInvoices(s.companies, s.clients, s.invoices, id, updated);
    RowKeepsNotes(s.invoices, s.notes, id, updated);
    RowChangeKeepsSeries(s.invoices, id, updated);
    SeriesSame(s, s');
    StoreFacts(s);
    InvoicesKeep(s, s');
  }

  lemma {:induction false} PaidRowOk(companies: map<Id, Company>, clients: map<Id, Client>, inv: Invoice, updated: Invoice, paid: real)
    requires InvoiceOk(companies, clients, inv) && !inv.status.Draft? && !inv.status.Voided?
    requires 0.0 < paid <= Major(inv.totalTtc, inv.currency)
    requires updated == inv.(status := if paid == Major(inv.totalTtc, inv.currency) then Paid else PartiallyPaid)
    ensures InvoiceOk(companies, clients, updated) && PaidMatches(updated, paid)
  {
    hide TotalsFrozen, SoundLines, PartiesExist;
  }

  lemma {:induction false} SeriesSame(s: Store, s': Store)
    requires SeriesOk(s) && s'.counters == s.counters
    requires InvoiceTickets(s'.invoices) == InvoiceTickets(s.invoices)
    requires NoteTickets(s'.notes) == NoteTickets(s.notes) && QuoteTickets(s'.quotes) == QuoteTickets(s.quotes)
    ensures SeriesOk(s')
  {
  }

  // ------------------------------------------------------------------ quotes

  lemma {:induction false} QuoteRowKeeps(companies: map<Id, Company>, clients: map<Id, Client>, quotes: map<Id, Quote>, id: Id, q: Quote)
    requires QuotesOk(companies, clients, quotes) && QuoteOk(companies, clients, q)
    ensures QuotesOk(companies, clients, quotes[id := q])
  {
    hide QuoteOk;
  }

  lemma {:induction false} QuoteMoveTickets(quotes: map<Id, Quote>, id: Id, q: Quote)
    requires id in quotes && q.companyId == quotes[id].companyId && q.sequence == quotes[id].sequence
    ensures QuoteTickets(quotes[id := q]) == QuoteTickets(quotes)
  {
  }

  lemma {:induction false} QuoteRemovalSeries(quotes: map<Id, Quote>, counters: map<Scope, nat>, id: Id)
    requires UniqueSeries(QuoteTickets(quotes), counters, QUOTE_SERIES)
    ensures UniqueSeries(QuoteTickets(quotes - {id}), counters, QUOTE_SERIES)
  {
    var before, after := QuoteTickets(quotes), QuoteTickets(quotes - {id});
    assert forall x :: x in after ==> x in before && after[x] == before[x];
  }

  /** Assembling the invariant after a change to the quotes. */
  lemma {:induction false} QuotesKeep(s: Store, s': Store)
    requires Inv(s)
    requires s' == s.(quotes := s'.quotes, counters := s'.counters, usedIds := s'.usedIds, audit := s'.audit)
    requires QuotesOk(s.companies, s.clients, s'.quotes) && SeriesOk(s')
    requires s.usedIds <= s'.usedIds && forall id :: id in s'.quotes ==> id in s'.usedIds
    ensures Inv(s')
  {
    hide InvoicesOk, QuotesOk, PaymentsOk, NotesOk, SeriesOk, ClientsOk;
  }

  lemma {:induction false} QuoteIds(s: Store)
    requires Inv(s)
    ensures QuotesOk(s.companies, s.clients, s.quotes) && SeriesOk(s)
    ensures forall id :: id in s.quotes ==> id in s.usedIds
  {
    hide InvoicesOk, QuotesOk, PaymentsOk, NotesOk, SeriesOk, ClientsOk;
  }

  lemma {:induction false} NewQuoteOk(s: Store, r: QuoteRequest, reference: string, sequence: nat, issueDate: Date)
    requires r.companyId in s.companies && r.clientId in s.clients && s.clients[r.clientId].companyId == r.companyId
    requires r.lines != [] && ValidRequest(r.lines, r.discount)
    requires var q := NewQuote(s.companies[r.companyId], r, reference, sequence, issueDate);
             ValidTotals(q.subtotal, q.totalDiscount, q.totalVat, q.totalTtc)
    ensures QuoteOk(s.companies, s.clients, NewQuote(s.companies[r.companyId], r, reference, sequence, issueDate))
  {
    hide TotalsOf;
    RenumberedValid(r.lines);
  }

  lemma {:induction false} QuoteSeriesKeep(s: Store, id: Id, q: Quote)
    requires SeriesOk(s) && id !in s.quotes
    requires q.sequence == Counter(s, q.companyId, QUOTE_SERIES) + 1
    ensures var counters := Advanced(s.counters, Scope(q.companyId, QUOTE_SERIES));
            && Gapless(InvoiceTickets(s.invoices), counters, INVOICE_SERIES)
            && Gapless(NoteTickets(s.notes), counters, CREDIT_NOTE_SERIES)
            && UniqueSeries(QuoteTickets(s.quotes[id := q]), counters, QUOTE_SERIES)
  {
    NewQuoteTicket(s.quotes, id, q);
    SeriesSplitUp(s);
    assert q.sequence == CounterOf(s.counters, Scope(q.companyId, QUOTE_SERIES)) + 1;
    hide *;
    var scope := Scope(q.companyId, QUOTE_SERIES);
    NamesDiffer();
    DrawKeepsUnique(QuoteTickets(s.quotes), s.counters, QUOTE_SERIES, id, q.companyId);
    OtherScopeKeeps(InvoiceTickets(s.invoices), s.counters, INVOICE_SERIES, scope);
    OtherScopeKeeps(NoteTickets(s.notes), s.counters, CREDIT_NOTE_SERIES, scope);
  }

  lemma {:induction false} CreateQuoteKeeps(s: Store, id: Id, r: QuoteRequest, today: Date)
    requires Inv(s) && CreateQuote(s, id, r, today).Ok?
    ensures Inv(CreateQuote(s, id, r, today).value)
  {
    hide Inv, QuotesOk, SeriesOk, QuoteReference, QuoteKeyTaken, TotalsOf;
    QuoteIds(s);
    var s' := CreateQuote(s, id, r, today).value;
    var q := s'.quotes[id];
    NewQuoteOk(s, r, q.reference, q.sequence, Or(r.issueDate, today));
    hide QuoteOk;
    QuoteRowKeeps(s.companies, s.clients, s.quotes, id, q);
    QuoteSeriesKeep(s, id, q);
    assert s'.quotes == s.quotes[id := q];
    SeriesFrom(s');
    QuotesKeep(s, s');
  }

  lemma {:induction false} SeriesFrom(s: Store)
    requires Gapless(InvoiceTickets(s.invoices), s.counters, INVOICE_SERIES)
    requires Gapless(NoteTickets(s.notes), s.counters, CREDIT_NOTE_SERIES)
    requires UniqueSeries(QuoteTickets(s.quotes), s.counters, QUOTE_SERIES)
    ensures SeriesOk(s)
  {
  }

  lemma {:induction false} TransitionKeeps(s: Store, id: Id, move: QuoteMove)
    requires Inv(s) && TransitionQuote(s, id, move).Ok?
    ensures Inv(TransitionQuote(s, id, move).value)
  {
    hide Inv, SeriesOk, TotalsFrozen, SoundLines, PartiesExist;
    QuoteIds(s);
    var s' := TransitionQuote(s, id, move).value;
    var q := s'.quotes[id];
    assert QuoteOk(s.companies, s.clients, s.quotes[id]);
    assert QuoteOk(s.companies, s.clients, q);
    hide QuoteOk, QuotesOk, QuoteTickets, InvoiceTickets, NoteTickets;
    QuoteMoveTickets(s.quotes, id, q);
    QuoteRowKeeps(s.companies, s.clients, s.quotes, id, q);
    SeriesSame(s, s');
    QuotesKeep(s, s');
  }

  lemma {:induction false} DeleteQuoteKeeps(s: Store, id: Id)
    requires Inv(s) && DeleteQuote(s, id).Ok?
    ensures Inv(DeleteQuote(s, id).value)
  {
    hide Inv, QuoteOk;
    QuoteIds(s);
    var s' := DeleteQuote(s, id).value;
    assert QuotesOk(s'.companies, s'.clients, s'.quotes);
    hide QuotesOk, QuoteTickets, InvoiceTickets, NoteTickets, Gapless, UniqueSeries;
    QuoteRemovalSeries(s.quotes, s.counters, id);
    QuotesKeep(s, s');
  }

  // ------------------------------------------------------------------ every step, every run

  lemma {:induction false} StepKeepsInv(s: Store, c: Command)
    requires Inv(s)
    ensures Inv(Step(s, c))
  {
    hide Inv, AddCompany, UpdateCompany, AddClient, UpdateClient, CreateDraft, DeleteDraft, IssueInvoice,
         VoidInvoice, IssueCreditNote, RecordPayment, CreateQuote, TransitionQuote, DeleteQuote;
    if Execute(s, c).Ok? {
      match c
      case DoAddCompany(id, company) => CompanyCommandsKeep(s, id, company);
      case DoUpdateCompany(id, company) => CompanyCommandsKeep(s, id, company);
      case DoAddClient(id, client) => ClientCommandsKeep(s, id, client);
      case DoUpdateClient(id, client) => ClientCommandsKeep(s, id, client);
      case DoCreateDraft(id, draft, today) => CreateDraftKeeps(s, id, draft, today);
      case DoDuplicate(sourceId, id, onDate, today) =>
        CreateDraftKeeps(s, id, DuplicateRequest(s.invoices[sourceId], onDate, today), today);
      case DoDeleteDraft(id) => DeleteDraftKeeps(s, id);
      case DoIssue(id, onDate, dueDate, party) => IssueKeeps(s, id, onDate, dueDate, party);
      case DoVoid(id, reason, now) => VoidKeeps(s, id, reason, now);
      case DoCreditNote(id, invoiceId, reason, date) => CreditNoteKeeps(s, id, invoiceId, reason, date);
      case DoPay(invoiceId, amount, paidOn, reference) => PayKeeps(s, invoiceId, amount, paidOn, reference);
      case DoCreateQuote(id, quote, today) => CreateQuoteKeeps(s, id, quote, today);
      case DoTransition(id, move) => TransitionKeeps(s, id, move);
      case DoDeleteQuote(id) => DeleteQuoteKeeps(s, id);
    }
  }

  /** Every reachable store is sound, whatever was asked of it and whatever was refused. */
  lemma {:induction false} RunKeepsInv(s: Store, cs: seq<Command>)
    requires Inv(s)
    ensures Inv(Run(s, cs))
  {
    hide Inv, Step;
    if cs != [] {
      RunKeepsInv(s, cs[..|cs| - 1]);
      StepKeepsInv(Run(s, cs[..|cs| - 1]), cs[|cs| - 1]);
    }
  }
}
