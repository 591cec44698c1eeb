// The use-cases as the code runs them: stage through a unit of work, then commit or roll back.
// Each is proved to do exactly what its transaction in Transactions.dfy says, and to keep the
// ledger invariant.
module Services {
  import opened Common
  import opened Calendar
  import opened Money
  import opened Lines
  import opened CurrencyMath
  import opened Numbering
  import opened Compliance
  import opened Store
  import opened Transactions
  import opened LedgerInvariant
  import opened LedgerEffects

  /** The transaction boundary: `staged` is what this session has flushed, `committed` what everybody
      else sees. The flushes below enforce the tables' constraints. */
  class UnitOfWork {
    var committed: Store
    var staged: Store

    constructor (s: Store)
      ensures committed == s && staged == s
    {
      committed, staged := s, s;
    }

    /** Every committed state satisfies the ledger invariant. */
    ghost predicate Valid()
      reads this`committed
    {
      Inv(committed)
    }

    method Begin()
      modifies this`staged
      ensures staged == committed
    {
      staged := committed;
    }

    method Commit()
      modifies this`committed
      ensures committed == staged
    {
      committed := staged;
    }

    method Rollback()
      modifies this`staged
      ensures staged == committed
    {
      staged := committed;
    }

    /** `sequences.next_value`: one row per scope, created at zero on first use. */
    method NextValue(companyId: Id, name: string) returns (value: nat)
      modifies this`staged
      ensures value == Counter(old(staged), companyId, name) + 1
      ensures staged == old(staged).(counters := Advanced(old(staged).counters, Scope(companyId, name)))
    {
      var scope := Scope(companyId, name);
      if scope !in staged.counters {
        staged := staged.(counters := staged.counters[scope := 0]);
      }
      value := staged.counters[scope] + 1;
      staged := staged.(counters := staged.counters[scope := value]);
    }

    /** `sequences.restore_value`: never lowers a counter. */
    method RestoreValue(companyId: Id, name: string, value: nat)
      modifies this`staged
      ensures staged == old(staged).(counters := Restored(old(staged).counters, Scope(companyId, name), value))
    {
      var scope := Scope(companyId, name);
      if scope !in staged.counters {
        staged := staged.(counters := staged.counters[scope := value]);
      } else if staged.counters[scope] < value {
        staged := staged.(counters := staged.counters[scope := value]);
      } else {
        staged := staged.(counters := staged.counters[scope := staged.counters[scope]]);
      }
    }

    method AddInvoice(id: Id, invoice: Invoice) returns (ok: bool)
      modifies this`staged
      ensures ok == (id !in old(staged).usedIds && !InvoiceKeyTaken(old(staged).invoices, id, invoice))
      ensures staged == if ok
        then old(staged).(invoices := old(staged).invoices[id := invoice], usedIds := old(staged).usedIds + {id})
        else old(staged)
    {
      ok := id !in staged.usedIds && !InvoiceKeyTaken(staged.invoices, id, invoice);
      if ok {
        staged := staged.(invoices := staged.invoices[id := invoice], usedIds := staged.usedIds + {id});
      }
    }

    /** An update that leaves the key columns alone cannot violate their constraints. */
    method UpdateInvoice(id: Id, invoice: Invoice) returns (ok: bool)
      requires id in staged.invoices
      modifies this`staged
      ensures ok == (SameKeys(invoice, old(staged).invoices[id]) || !InvoiceKeyTaken(old(staged).invoices, id, invoice))
      ensures staged == if ok then old(staged).(invoices := old(staged).invoices[id := invoice]) else old(staged)
    {
      ok := SameKeys(invoice, staged.invoices[id]) || !InvoiceKeyTaken(staged.invoices, id, invoice);
      if ok {
        staged := staged.(invoices := staged.invoices[id := invoice]);
      }
    }

    /** Refuses a non-draft: the last-line guard on the gapless series. */
    method DeleteInvoice(id: Id) returns (ok: bool)
      requires id in staged.invoices
      modifies this`staged
      ensures ok == old(staged).invoices[id].status.Draft?
      ensures staged == if ok then old(staged).(invoices := old(staged).invoices - {id}) else old(staged)
    {
      ok := staged.invoices[id].status.Draft?;
      if ok {
        staged := staged.(invoices := staged.invoices - {id});
      }
    }

    method AddPayment(p: Payment)
      modifies this`staged
      ensures staged == old(staged).(payments := old(staged).payments + [p])
    {
      staged := staged.(payments := staged.payments + [p]);
    }

    method AddCreditNote(id: Id, note: CreditNote) returns (ok: bool)
      modifies this`staged
      ensures ok == (id !in old(staged).usedIds && !NoteKeyTaken(old(staged).notes, note))
      ensures staged == if ok
        then old(staged).(notes := old(staged).notes[id := note], usedIds := old(staged).usedIds + {id})
        else old(staged)
    {
      ok := id !in staged.usedIds && !NoteKeyTaken(staged.notes, note);
      if ok {
        staged := staged.(notes := staged.notes[id := note], usedIds := staged.usedIds + {id});
      }
    }

    method AddQuote(id: Id, quote: Quote) returns (ok: bool)
      modifies this`staged
      ensures ok == (id !in old(staged).usedIds && !QuoteKeyTaken(old(staged).quotes, quote))
      ensures staged == if ok
        then old(staged).(quotes := old(staged).quotes[id := quote], usedIds := old(staged).usedIds + {id})
        else old(staged)
    {
      ok := id !in staged.usedIds && !QuoteKeyTaken(staged.quotes, quote);
      if ok {
        staged := staged.(quotes := staged.quotes[id := quote], usedIds := staged.usedIds + {id});
      }
    }

    method UpdateQuote(id: Id, quote: Quote)
      requires id in staged.quotes
      modifies this`staged
      ensures staged == old(staged).(quotes := old(staged).quotes[id := quote])
    {
      staged := staged.(quotes := staged.quotes[id := quote]);
    }

    /** Refuses a quote that became an invoice. */
    method DeleteQuote(id: Id) returns (ok: bool)
      requires id in staged.quotes
      modifies this`staged
      ensures ok == old(staged).quotes[id].convertedInvoiceId.None?
      ensures staged == if ok then old(staged).(quotes := old(staged).quotes - {id}) else old(staged)
    {
      ok := staged.quotes[id].convertedInvoiceId.None?;
      if ok {
        staged := staged.(quotes := staged.quotes - {id});
      }
    }

    method Record(action: AuditAction, targetType: string, id: Id)
      modifies this`staged
      ensures staged == old(staged).(audit := old(staged).audit + [AuditEntry(action, targetType, Some(id))])
    {
      staged := staged.(audit := staged.audit + [AuditEntry(action, targetType, Some(id))]);
    }
  }

  predicate SameKeys(a: Invoice, b: Invoice) {
    a.companyId == b.companyId && a.reference == b.reference && a.sequence == b.sequence
  }

  /** What a service call promises: on success exactly the transaction, committed; on an exception
      the transaction's own error, and not a trace of what had been staged. */
  ghost predicate Did<T>(before: Store, c: Command, after: Store, r: Result<T>) {
    match r
    case Ok(_) => Execute(before, c) == Ok(after)
    case Err(e) => Execute(before, c) == Err(e) && after == before
  }

  /** So does the invariant. */
  lemma {:induction false} DidKeepsInv<T>(before: Store, c: Command, after: Store, r: Result<T>)
    requires Inv(before) && Did(before, c, after, r)
    ensures Inv(after)
  {
    StepKeepsInv(before, c);
  }

  lemma {:induction false} DraftLeavesQuotes(s: Store, id: Id, r: DraftRequest, today: Date)
    requires CreateDraft(s, id, r, today).Ok?
    ensures CreateDraft(s, id, r, today).value.quotes == s.quotes
  {
    hide NewDraft;
  }

  /** Marking an accepted quote converted is never refused, and touches no invoice. */
  lemma {:induction false} MarkLeavesInvoices(s: Store, id: Id, invoiceId: Id)
    requires id in s.quotes && s.quotes[id].status.Accepted?
    ensures TransitionQuote(s, id, MarkConverted(invoiceId)).Ok?
    ensures TransitionQuote(s, id, MarkConverted(invoiceId)).value.invoices == s.invoices
  {
  }

  // ------------------------------------------------------------------ numbering_service

  method AllocateInvoiceNumbers(uow: UnitOfWork, company: Company, invoice: Invoice, client: Client, issueDate: Date)
    returns (reference: Option<string>, sequence: nat)
    modifies uow`staged
    ensures sequence == Counter(old(uow.staged), invoice.companyId, INVOICE_SERIES) + 1
    ensures uow.staged == old(uow.staged).(counters := InvoiceNumbers(old(uow.staged).counters, invoice, issueDate))
    ensures reference == DisplayReference(company.prefix, client.name, issueDate.month,
      CounterOf(uow.staged.counters, BucketScope(invoice, issueDate)), issueDate.year)
  {
    sequence := uow.NextValue(invoice.companyId, INVOICE_SERIES);
    var bucket := uow.NextValue(invoice.companyId, MonthlyBucket(invoice.clientId, issueDate.year, issueDate.month));
    reference := DisplayReference(company.prefix, client.name, issueDate.month, bucket, issueDate.year);
  }

  method AllocateCreditNoteNumbers(uow: UnitOfWork, companyId: Id, company: Company, issueDate: Date)
    returns (reference: Option<string>, sequence: nat)
    modifies uow`staged
    ensures sequence == Counter(old(uow.staged), companyId, CREDIT_NOTE_SERIES) + 1
    ensures uow.staged == old(uow.staged).(counters := Advanced(old(uow.staged).counters, Scope(companyId, CREDIT_NOTE_SERIES)))
    ensures reference == CreditNoteReference(company.prefix, issueDate.year, sequence)
  {
    sequence := uow.NextValue(companyId, CREDIT_NOTE_SERIES);
    reference := CreditNoteReference(company.prefix, issueDate.year, sequence);
  }

  method AllocateQuoteNumbers(uow: UnitOfWork, companyId: Id, company: Company, issueDate: Date)
    returns (reference: Option<string>, sequence: nat)
    modifies uow`staged
    ensures sequence == Counter(old(uow.staged), companyId, QUOTE_SERIES) + 1
    ensures uow.staged == old(uow.staged).(counters := Advanced(old(uow.staged).counters, Scope(companyId, QUOTE_SERIES)))
    ensures reference == QuoteReference(company.prefix, issueDate.year, sequence)
  {
    sequence := uow.NextValue(companyId, QUOTE_SERIES);
    reference := QuoteReference(company.prefix, issueDate.year, sequence);
  }

  // ------------------------------------------------------------------ InvoiceService

  class InvoiceService {
    const uow: UnitOfWork

    constructor (uow: UnitOfWork)
      ensures this.uow == uow
    {
      this.uow := uow;
    }

    method CreateDraft(id: Id, request: DraftRequest, today: Date) returns (r: Result<Invoice>)
      requires uow.Valid()
      modifies uow
      ensures uow.Valid()
      ensures Did(old(uow.committed), DoCreateDraft(id, request, today), uow.committed, r)
      ensures r.Ok? ==> id in uow.committed.invoices && r.value == uow.committed.invoices[id]
    {
      hide Inv, TotalsOf;
      r := CreateDraftInner(id, request, today);
      DidKeepsInv(old(uow.committed), DoCreateDraft(id, request, today), uow.committed, r);
    }

    method CreateDraftInner(id: Id, request: DraftRequest, today: Date) returns (r: Result<Invoice>)
      modifies uow
      ensures Did(old(uow.committed), DoCreateDraft(id, request, today), uow.committed, r)
      ensures r.Ok? ==> id in uow.committed.invoices && r.value == uow.committed.invoices[id]
    {
      hide TotalsOf;
      if request.lines == [] {
        return Err(BusinessRule);
      }
      if !ValidRequest(request.lines, request.discount) {
        return Err(ValidationError);
      }
      uow.Begin();
      if request.companyId !in uow.staged.companies {
        uow.Rollback();
        return Err(NotFound);
      }
      var company := uow.staged.companies[request.companyId];
      if request.clientId !in uow.staged.clients {
        uow.Rollback();
        return Err(NotFound);
      }
      if uow.staged.clients[request.clientId].companyId != request.companyId {
        uow.Rollback();
        return Err(BusinessRule);
      }
      var cur := if request.currency.Some? then request.currency.value else company.defaultCurrency;
      var numbered := Renumbered(request.lines);
      var totals := InvoiceTotals(numbered, request.discount, cur);
      if !ValidTotals(totals.subtotal, totals.totalDiscount, totals.totalVat, totals.totalTtc) {
        uow.Rollback();
        return Err(ValidationError);
      }
      var invoice := Invoice(
        request.companyId, request.clientId, None, None, Or(request.issueDate, today), request.dueDate, cur,
        numbered, request.discount, request.comments, request.paymentTerms,
        Or(request.template, company.defaultTemplate),
        totals.subtotal, totals.totalDiscount, totals.totalVat, totals.totalTtc, Draft, None, None, None);
      var ok := uow.AddInvoice(id, invoice);
      if !ok {
        uow.Rollback();
        return Err(IntegrityError);
      }
      uow.Record(Create, "invoice", id);
      uow.Commit();
      r := Ok(invoice);
    }

    method Issue(id: Id, onDate: Option<Date>, dueDate: Option<Date>, party: seq<Finding>) returns (r: Result<Invoice>)
      requires uow.Valid()
      modifies uow
      ensures uow.Valid()
      ensures Did(old(uow.committed), DoIssue(id, onDate, dueDate, party), uow.committed, r)
      ensures r.Ok? ==> id in uow.committed.invoices && r.value == uow.committed.invoices[id]
      ensures r.Ok? ==> id in old(uow.committed).invoices && IssuedFrom(old(uow.committed).invoices[id], r.value, onDate, dueDate)
    {
      hide Inv, IssuedFrom, IssueInvoice;
      r := IssueInner(id, onDate, dueDate, party);
      DidKeepsInv(old(uow.committed), DoIssue(id, onDate, dueDate, party), uow.committed, r);
      if r.Ok? {
        IssueEffect(old(uow.committed), id, onDate, dueDate, party);
      }
    }

    method IssueInner(id: Id, onDate: Option<Date>, dueDate: Option<Date>, party: seq<Finding>) returns (r: Result<Invoice>)
      requires uow.Valid()
      modifies uow
      ensures Did(old(uow.committed), DoIssue(id, onDate, dueDate, party), uow.committed, r)
      ensures r.Ok? ==> id in uow.committed.invoices && r.value == uow.committed.invoices[id]
    {
      hide Inv, CheckedLines, CheckedDocument, BlockingOf, NumberInvoice, PartiesOf, Blank, AddDays, DisplayReference,
           InvoiceNumbers, InvoiceKeyTaken, IssuedInvoice, AddCompany, UpdateCompany, AddClient, UpdateClient,
           VoidInvoice, IssueCreditNote, RecordPayment, CreateQuote,
           TransitionQuote, DeleteQuote;
      uow.Begin();
      if id !in uow.staged.invoices {
        uow.Rollback();
        return Err(NotFound);
      }
      var invoice := uow.staged.invoices[id];
      if !invoice.status.Draft? {
        uow.Rollback();
        return Err(BusinessRule);
      }
      if invoice.companyId !in uow.staged.companies || invoice.clientId !in uow.staged.clients {
        uow.Rollback();
        return Err(NotFound);
      }
      var company, client := uow.staged.companies[invoice.companyId], uow.staged.clients[invoice.clientId];
      var issueDate := if onDate.Some? then onDate.value else invoice.issueDate;
      var due :=
        if dueDate.Some? then dueDate
        else if invoice.dueDate.Some? then invoice.dueDate
        else AddDays(issueDate, DEFAULT_PAYMENT_TERM_DAYS);
      if due.None? {
        uow.Rollback();
        return Err(OverflowError);
      }
      // The gate, before any number is drawn.
      var lineFindings := CheckLines(invoice.lines, PartiesOf(company, client));
      var blocking := BlockingOf(party + lineFindings + CheckedDocument(issueDate, due, Blank(invoice.paymentTerms)));
      if blocking != [] {
        uow.Rollback();
        return Err(NotCompliant(blocking));
      }
      r := NumberAndFreeze(id, issueDate, due.value);
    }

    /** The second half of `issue`: numbers are drawn, and three things can still fail. */
    method NumberAndFreeze(id: Id, issueDate: Date, due: Date) returns (r: Result<Invoice>)
      requires uow.Valid() && uow.staged == uow.committed
      requires id in uow.staged.invoices && uow.staged.invoices[id].status.Draft?
      requires uow.staged.invoices[id].companyId in uow.staged.companies
      requires uow.staged.invoices[id].clientId in uow.staged.clients
      modifies uow
      ensures match r
        case Ok(issued) =>
          && NumberInvoice(old(uow.committed), id, issueDate, due) == Ok(uow.committed)
          && id in uow.committed.invoices && issued == uow.committed.invoices[id]
        case Err(e) =>
          NumberInvoice(old(uow.committed), id, issueDate, due) == Err(e) && uow.committed == old(uow.committed)
    {
      hide Inv, TotalsOf, DisplayReference, MonthlyBucket;
      DraftHasNothing(uow.staged, id);
      var invoice := uow.staged.invoices[id];
      var company, client := uow.staged.companies[invoice.companyId], uow.staged.clients[invoice.clientId];
      var totals := InvoiceTotals(invoice.lines, invoice.discount, invoice.currency);
      var reference, sequence := AllocateInvoiceNumbers(uow, company, invoice, client, issueDate);
      if reference.None? {
        uow.Rollback();
        return Err(ValueError);
      }
      var issued := invoice.(
        reference := reference, sequence := Some(sequence), issueDate := issueDate, dueDate := Some(due),
        subtotal := totals.subtotal, totalDiscount := totals.totalDiscount, totalVat := totals.totalVat,
        totalTtc := totals.totalTtc, status := Issued);
      var ok := uow.UpdateInvoice(id, issued);
      if !ok {
        uow.Rollback();
        return Err(IntegrityError);
      }
      uow.Record(AuditAction.Issue, "invoice", id);
      uow.Commit();
      r := Ok(issued);
    }

    /** `duplicate`: read in one unit of work, write through `create_draft` in another. */
    method Duplicate(sourceId: Id, id: Id, onDate: Option<Date>, today: Date) returns (r: Result<Invoice>)
      requires uow.Valid()
      modifies uow
      ensures uow.Valid()
      ensures Did(old(uow.committed), DoDuplicate(sourceId, id, onDate, today), uow.committed, r)
      ensures r.Ok? ==> id in uow.committed.invoices && r.value == uow.committed.invoices[id]
    {
      hide Inv, Transactions.CreateDraft;
      uow.Begin();
      if sourceId !in uow.staged.invoices {
        uow.Rollback();
        return Err(NotFound);
      }
      var source := uow.staged.invoices[sourceId];
      r := this.CreateDraft(id, DuplicateRequest(source, onDate, today), today);
    }

    method DeleteDraft(id: Id) returns (r: Result<()>)
      requires uow.Valid()
      modifies uow
      ensures uow.Valid()
      ensures Did(old(uow.committed), DoDeleteDraft(id), uow.committed, r)
    {
      hide Inv;
      r := DeleteDraftInner(id);
      DidKeepsInv(old(uow.committed), DoDeleteDraft(id), uow.committed, r);
    }

    method DeleteDraftInner(id: Id) returns (r: Result<()>)
      modifies uow
      ensures Did(old(uow.committed), DoDeleteDraft(id), uow.committed, r)
    {
      uow.Begin();
      if id !in uow.staged.invoices {
        uow.Rollback();
        return Err(NotFound);
      }
      if !uow.staged.invoices[id].status.Draft? {
        uow.Rollback();
        return Err(BusinessRule);
      }
      uow.Record(Delete, "invoice", id);
      var ok := uow.DeleteInvoice(id);
      assert ok;
      uow.Commit();
      r := Ok(());
    }

    method Void(id: Id, reason: string, now: Date) returns (r: Result<Invoice>)
      requires uow.Valid()
      modifies uow
      ensures uow.Valid()
      ensures Did(old(uow.committed), DoVoid(id, reason, now), uow.committed, r)
      ensures r.Ok? ==> id in uow.committed.invoices && r.value == uow.committed.invoices[id]
    {
      hide Inv;
      r := VoidInner(id, reason, now);
      DidKeepsInv(old(uow.committed), DoVoid(id, reason, now), uow.committed, r);
    }

    method VoidInner(id: Id, reason: string, now: Date) returns (r: Result<Invoice>)
      modifies uow
      ensures Did(old(uow.committed), DoVoid(id, reason, now), uow.committed, r)
      ensures r.Ok? ==> id in uow.committed.invoices && r.value == uow.committed.invoices[id]
    {
      if Blank(Some(reason)) {
        return Err(BusinessRule);
      }
      uow.Begin();
      if id !in uow.staged.invoices {
        uow.Rollback();
        return Err(NotFound);
      }
      var invoice := uow.staged.invoices[id];
      if invoice.status.Voided? {
        uow.Rollback();
        return Err(BusinessRule);
      }
      var voided := invoice.(status := Voided, voidedAt := Some(now), voidedReason := Some(reason));
      var ok := uow.UpdateInvoice(id, voided);
      assert ok;
      uow.Record(AuditAction.Void, "invoice", id);
      uow.Commit();
      r := Ok(voided);
    }
  }

  // ------------------------------------------------------------------ PaymentService

  class PaymentService {
    const uow: UnitOfWork

    constructor (uow: UnitOfWork)
      ensures this.uow == uow
    {
      this.uow := uow;
    }

    /** `sum(p.amount for p in payments.list_for_invoice(...))`. */
    method AlreadyPaid(payments: seq<Payment>, invoiceId: Id) returns (paid: real)
      ensures paid == PaidOn(payments, invoiceId)
    {
      paid := 0.0;
      for i := 0 to |payments|
        invariant paid == PaidOn(payments[..i], invoiceId)
      {
        assert payments[..i + 1][..i] == payments[..i];
        if payments[i].invoiceId == invoiceId {
          paid := paid + payments[i].amount;
        }
      }
      assert payments[..|payments|] == payments;
    }

    method Record(invoiceId: Id, amount: real, paidOn: Date, reference: Option<string>) returns (r: Result<Invoice>)
      requires uow.Valid()
      modifies uow
      ensures uow.Valid()
      ensures Did(old(uow.committed), DoPay(invoiceId, amount, paidOn, reference), uow.committed, r)
      ensures r.Ok? ==> invoiceId in uow.committed.invoices && r.value == uow.committed.invoices[invoiceId]
      ensures r.Ok? <==> Payable(old(uow.committed), invoiceId, amount)
      ensures r.Ok? ==> r.value == PaidRow(old(uow.committed), invoiceId, amount)
    {
      hide Inv, RecordPayment, Payable, PaidRow;
      r := RecordInner(invoiceId, amount, paidOn, reference);
      DidKeepsInv(old(uow.committed), DoPay(invoiceId, amount, paidOn, reference), uow.committed, r);
      PaymentAcceptedIff(old(uow.committed), invoiceId, amount, paidOn, reference);
      if r.Ok? {
        PaymentEffect(old(uow.committed), invoiceId, amount, paidOn, reference);
      }
    }

    method RecordInner(invoiceId: Id, amount: real, paidOn: Date, reference: Option<string>) returns (r: Result<Invoice>)
      modifies uow
      ensures Did(old(uow.committed), DoPay(invoiceId, amount, paidOn, reference), uow.committed, r)
      ensures r.Ok? ==> invoiceId in uow.committed.invoices && r.value == uow.committed.invoices[invoiceId]
    {
      hide Major, PaidOn, AddCompany, UpdateCompany, AddClient, UpdateClient, CreateDraft, Duplicate, DeleteDraft,
           IssueInvoice, VoidInvoice, IssueCreditNote, CreateQuote, TransitionQuote, DeleteQuote;
      uow.Begin();
      if invoiceId !in uow.staged.invoices {
        uow.Rollback();
        return Err(NotFound);
      }
      var invoice := uow.staged.invoices[invoiceId];
      if invoice.status.Voided? || invoice.status.Draft? {
        uow.Rollback();
        return Err(BusinessRule);
      }
      var alreadyPaid := AlreadyPaid(uow.staged.payments, invoiceId);
      var total := Major(invoice.totalTtc, invoice.currency);
      if alreadyPaid + amount > total {
        uow.Rollback();
        return Err(BusinessRule);
      }
      if amount <= 0.0 {
        uow.Rollback();
        return Err(ValidationError);
      }
      uow.AddPayment(Payment(invoiceId, amount, invoice.currency, paidOn, reference));
      var status := if alreadyPaid + amount == total then Paid else PartiallyPaid;
      var updated := invoice.(status := status);
      var ok := uow.UpdateInvoice(invoiceId, updated);
      assert ok;
      uow.Record(Pay, "invoice", invoiceId);
      uow.Commit();
      r := Ok(updated);
    }
  }

  // ------------------------------------------------------------------ CreditNoteService

  class CreditNoteService {
    const uow: UnitOfWork

    constructor (uow: UnitOfWork)
      ensures this.uow == uow
    {
      this.uow := uow;
    }

    method Issue(noteId: Id, invoiceId: Id, reason: string, issueDate: Date) returns (r: Result<CreditNote>)
      requires uow.Valid()
      modifies uow
      ensures uow.Valid()
      ensures Did(old(uow.committed), DoCreditNote(noteId, invoiceId, reason, issueDate), uow.committed, r)
      ensures r.Ok? ==> noteId in uow.committed.notes && r.value == uow.committed.notes[noteId]
    {
      hide Inv;
      r := IssueInner(noteId, invoiceId, reason, issueDate);
      DidKeepsInv(old(uow.committed), DoCreditNote(noteId, invoiceId, reason, issueDate), uow.committed, r);
    }

    method IssueInner(noteId: Id, invoiceId: Id, reason: string, issueDate: Date) returns (r: Result<CreditNote>)
      modifies uow
      ensures Did(old(uow.committed), DoCreditNote(noteId, invoiceId, reason, issueDate), uow.committed, r)
      ensures r.Ok? ==> noteId in uow.committed.notes && r.value == uow.committed.notes[noteId]
    {
      hide CreditNoteReference, NoteKeyTaken, Blank, AddCompany, UpdateCompany, AddClient, UpdateClient, CreateDraft,
           Duplicate, DeleteDraft, IssueInvoice, VoidInvoice, RecordPayment, CreateQuote, TransitionQuote, DeleteQuote;
      if Blank(Some(reason)) {
        return Err(BusinessRule);
      }
      uow.Begin();
      if invoiceId !in uow.staged.invoices {
        uow.Rollback();
        return Err(NotFound);
      }
      var invoice := uow.staged.invoices[invoiceId];
      if invoice.status.Voided? {
        uow.Rollback();
        return Err(BusinessRule);
      }
      if invoice.companyId !in uow.staged.companies {
        uow.Rollback();
        return Err(NotFound);
      }
      var reference, sequence :=
        AllocateCreditNoteNumbers(uow, invoice.companyId, uow.staged.companies[invoice.companyId], issueDate);
      if reference.None? {
        uow.Rollback();
        return Err(ValueError);
      }
      var note := CreditNote(
        invoice.companyId, invoice.clientId, invoiceId, reference.value, sequence, issueDate, reason, invoice.currency,
        MirroredLines(invoice.lines), invoice.subtotal, invoice.totalVat, invoice.totalTtc);
      var ok := uow.AddCreditNote(noteId, note);
      if !ok {
        uow.Rollback();
        return Err(IntegrityError);
      }
      // The void is dated by the credit note.
      var voided := invoice.(status := Voided, voidedAt := Some(issueDate), voidedReason := Some(reason),
                             voidedBy := Some(noteId));
      var updated := uow.UpdateInvoice(invoiceId, voided);
      assert updated;
      uow.Record(Create, "credit_note", noteId);
      uow.Record(AuditAction.Void, "invoice", invoiceId);
      uow.Commit();
      r := Ok(note);
    }
  }

  // ------------------------------------------------------------------ QuoteService

  class QuoteService {
    const uow: UnitOfWork

    constructor (uow: UnitOfWork)
      ensures this.uow == uow
    {
      this.uow := uow;
    }

    method Create(id: Id, request: QuoteRequest, today: Date) returns (r: Result<Quote>)
      requires uow.Valid()
      modifies uow
      ensures uow.Valid()
      ensures Did(old(uow.committed), DoCreateQuote(id, request, today), uow.committed, r)
      ensures r.Ok? ==> id in uow.committed.quotes && r.value == uow.committed.quotes[id]
    {
      hide Inv;
      r := CreateInner(id, request, today);
      DidKeepsInv(old(uow.committed), DoCreateQuote(id, request, today), uow.committed, r);
    }

    method CreateInner(id: Id, request: QuoteRequest, today: Date) returns (r: Result<Quote>)
      modifies uow
      ensures Did(old(uow.committed), DoCreateQuote(id, request, today), uow.committed, r)
      ensures r.Ok? ==> id in uow.committed.quotes && r.value == uow.committed.quotes[id]
    {
      hide TotalsOf, QuoteReference, QuoteKeyTaken, ValidRequest, Renumbered, AddCompany, UpdateCompany, AddClient,
           UpdateClient, CreateDraft, Duplicate, DeleteDraft, IssueInvoice, VoidInvoice, IssueCreditNote,
           RecordPayment, TransitionQuote, DeleteQuote;
      var issueDate := Or(request.issueDate, today);
      if request.lines == [] {
        return Err(BusinessRule);
      }
      if !ValidRequest(request.lines, request.discount) {
        return Err(ValidationError);
      }
      if request.validUntil.Some? && Before(request.validUntil.value, issueDate) {
        return Err(BusinessRule);
      }
      uow.Begin();
      if request.companyId !in uow.staged.companies {
        uow.Rollback();
        return Err(NotFound);
      }
      var company := uow.staged.companies[request.companyId];
      if request.clientId !in uow.staged.clients {
        uow.Rollback();
        return Err(NotFound);
      }
      if uow.staged.clients[request.clientId].companyId != request.companyId {
        uow.Rollback();
        return Err(BusinessRule);
      }
      var cur := if request.currency.Some? then request.currency.value else company.defaultCurrency;
      var numbered := Renumbered(request.lines);
      var totals := InvoiceTotals(numbered, request.discount, cur);
      var reference, sequence := AllocateQuoteNumbers(uow, request.companyId, company, issueDate);
      if reference.None? {
        uow.Rollback();
        return Err(ValueError);
      }
      if !ValidTotals(totals.subtotal, totals.totalDiscount, totals.totalVat, totals.totalTtc) {
        uow.Rollback();
        return Err(ValidationError);
      }
      var quote := Quote(
        request.companyId, request.clientId, reference.value, sequence, issueDate, request.validUntil, cur,
        numbered, request.discount, request.comments, request.terms, Or(request.template, company.defaultTemplate),
        totals.subtotal, totals.totalDiscount, totals.totalVat, totals.totalTtc, QuoteDraft, None, None);
      var ok := uow.AddQuote(id, quote);
      if !ok {
        uow.Rollback();
        return Err(IntegrityError);
      }
      uow.Record(AuditAction.Create, "quote", id);
      uow.Commit();
      r := Ok(quote);
    }

    /** `_transition`, behind `mark_sent`, `accept`, `reject`, `expire` and the end of `convert`. */
    method Transition(id: Id, move: QuoteMove) returns (r: Result<Quote>)
      requires uow.Valid()
      modifies uow
      ensures uow.Valid()
      ensures Did(old(uow.committed), DoTransition(id, move), uow.committed, r)
      ensures r.Ok? ==> id in uow.committed.quotes && r.value == uow.committed.quotes[id]
    {
      hide Inv;
      r := TransitionInner(id, move);
      DidKeepsInv(old(uow.committed), DoTransition(id, move), uow.committed, r);
    }

    method TransitionInner(id: Id, move: QuoteMove) returns (r: Result<Quote>)
      modifies uow
      ensures Did(old(uow.committed), DoTransition(id, move), uow.committed, r)
      ensures r.Ok? ==> id in uow.committed.quotes && r.value == uow.committed.quotes[id]
    {
      hide MovedQuote, AllowedTransition, TargetOf, AddCompany, UpdateCompany, AddClient, UpdateClient, CreateDraft,
           Duplicate, DeleteDraft, IssueInvoice, VoidInvoice, IssueCreditNote, RecordPayment, CreateQuote, DeleteQuote;
      uow.Begin();
      if id !in uow.staged.quotes {
        uow.Rollback();
        return Err(NotFound);
      }
      var quote := uow.staged.quotes[id];
      if !AllowedTransition(quote.status, TargetOf(move)) {
        uow.Rollback();
        return Err(BusinessRule);
      }
      var moved := MovedQuote(quote, move);
      uow.UpdateQuote(id, moved);
      uow.Record(Update, "quote", id);
      uow.Commit();
      r := Ok(moved);
    }

    /** `convert`: a read, the draft's transaction, the mark's transaction. */
    method Convert(id: Id, invoiceId: Id, onDate: Option<Date>, dueDate: Option<Date>, today: Date)
      returns (r: Result<(Quote, Invoice)>)
      requires uow.Valid()
      modifies uow
      ensures uow.Valid()
      ensures match r
        case Ok(_) => ConvertQuote(old(uow.committed), id, invoiceId, onDate, dueDate, today) == Ok(uow.committed)
        case Err(e) => ConvertQuote(old(uow.committed), id, invoiceId, onDate, dueDate, today) == Err(e)
                       && uow.committed == old(uow.committed)
      ensures r.Ok? ==> id in uow.committed.quotes && invoiceId in uow.committed.invoices
      ensures r.Ok? ==> r.value == (uow.committed.quotes[id], uow.committed.invoices[invoiceId])
    {
      hide Inv, CreateDraft, TransitionQuote;
      ghost var before := uow.committed;
      uow.Begin();
      if id !in uow.staged.quotes {
        return Err(NotFound);
      }
      var quote := uow.staged.quotes[id];
      if quote.status.Converted? {
        return Err(BusinessRule);
      }
      if !quote.status.Accepted? {
        return Err(BusinessRule);
      }
      var invoices := new InvoiceService(uow);
      var draft := invoices.CreateDraft(invoiceId, ConversionRequest(quote, onDate, dueDate, today), today);
      if draft.Err? {
        return Err(draft.error);
      }
      DraftLeavesQuotes(before, invoiceId, ConversionRequest(quote, onDate, dueDate, today), today);
      MarkLeavesInvoices(uow.committed, id, invoiceId);
      var moved := Transition(id, MarkConverted(invoiceId));
      r := Ok((moved.value, draft.value));
    }

    method Delete(id: Id) returns (r: Result<()>)
      requires uow.Valid()
      modifies uow
      ensures uow.Valid()
      ensures Did(old(uow.committed), DoDeleteQuote(id), uow.committed, r)
    {
      hide Inv;
      r := DeleteInner(id);
      DidKeepsInv(old(uow.committed), DoDeleteQuote(id), uow.committed, r);
    }

    method DeleteInner(id: Id) returns (r: Result<()>)
      modifies uow
      ensures Did(old(uow.committed), DoDeleteQuote(id), uow.committed, r)
    {
      uow.Begin();
      if id !in uow.staged.quotes {
        uow.Rollback();
        return Err(NotFound);
      }
      if uow.staged.quotes[id].status.Converted? {
        uow.Rollback();
        return Err(BusinessRule);
      }
      uow.Record(AuditAction.Delete, "quote", id);
      var ok := uow.DeleteQuote(id);
      if !ok {
        uow.Rollback();
        return Err(ValueError);
      }
      uow.Commit();
      r := Ok(());
    }
  }
}
