// What drafting, duplicating, deleting, voiding and crediting an invoice accept and leave behind
// (core/services/invoice_service.py, core/services/credit_note_service.py), in the fields of the rows and of the
// request.
module DocumentEffects {
  import opened Common
  import opened Calendar
  import opened Money
  import opened Lines
  import opened Text
  import opened Grouping
  import opened CurrencyMath
  import opened Decimals
  import opened Numbering
  import opened Store
  import opened Transactions
  import opened LedgerInvariant
  import opened LedgerEffects
  import opened SeriesReferences

  // ------------------------------------------------------------------ companies and clients

  /** A company's prefix has at most eight characters; a client is a company's, and stays with it. Nothing else is
      asked, and the rest of the ledger is left alone. */
  lemma {:induction false} CompanyAcceptedIff(s: Store, id: Id, company: Company)
    ensures AddCompany(s, id, company).Ok? <==> |company.prefix| <= 8 && id !in s.usedIds
    ensures UpdateCompany(s, id, company).Ok? <==> |company.prefix| <= 8 && id in s.companies
    ensures AddCompany(s, id, company).Ok? ==>
      AddCompany(s, id, company).value == s.(
        companies := s.companies[id := company], usedIds := s.usedIds + {id},
        audit := s.audit + [AuditEntry(Create, "company", Some(id))])
    ensures UpdateCompany(s, id, company).Ok? ==>
      UpdateCompany(s, id, company).value == s.(
        companies := s.companies[id := company], audit := s.audit + [AuditEntry(Update, "company", Some(id))])
  {
  }

  lemma {:induction false} ClientAcceptedIff(s: Store, id: Id, client: Client)
    ensures AddClient(s, id, client).Ok? <==> client.companyId in s.companies && id !in s.usedIds
    ensures UpdateClient(s, id, client).Ok? <==> id in s.clients
    ensures AddClient(s, id, client).Ok? ==>
      AddClient(s, id, client).value == s.(
        clients := s.clients[id := client], usedIds := s.usedIds + {id},
        audit := s.audit + [AuditEntry(Create, "client", Some(id))])
    ensures UpdateClient(s, id, client).Ok? ==>
      UpdateClient(s, id, client).value == s.(
        clients := s.clients[id := client.(companyId := s.clients[id].companyId)],
        audit := s.audit + [AuditEntry(Update, "client", Some(id))])
  {
  }

  // ------------------------------------------------------------------ drafts

  /** The draft a request asks for: what was asked, or the company's defaults; lines numbered from one. */
  ghost predicate DraftOf(inv: Invoice, r: DraftRequest, company: Company, today: Date) {
    var t := TotalsOf(inv.lines, r.discount, inv.currency);
    && inv.companyId == r.companyId && inv.clientId == r.clientId
    && inv.reference == None && inv.sequence == None && inv.status == Draft
    && inv.voidedAt == None && inv.voidedReason == None && inv.voidedBy == None
    && IssuedOn(inv.issueDate, r.issueDate, today) && inv.dueDate == r.dueDate
    && (r.currency.Some? ==> inv.currency == r.currency.value) && (r.currency.None? ==> inv.currency == company.defaultCurrency)
    && (r.template.Some? ==> inv.template == r.template.value) && (r.template.None? ==> inv.template == company.defaultTemplate)
    && |inv.lines| == |r.lines| && (forall i :: 0 <= i < |r.lines| ==> inv.lines[i] == r.lines[i].(lineNumber := i + 1))
    && inv.discount == r.discount && inv.comments == r.comments && inv.paymentTerms == r.paymentTerms
    && inv.subtotal == t.subtotal && inv.totalDiscount == t.totalDiscount && inv.totalVat == t.totalVat && inv.totalTtc == t.totalTtc
  }

  lemma {:induction false} NewDraftIs(r: DraftRequest, company: Company, today: Date)
    ensures DraftOf(NewDraft(company, r, today), r, company, today)
  {
    hide TotalsOf;
  }

  /** Which drafts are accepted: those with lines, all fields within their bounds, for a client of the company,
      under an identifier never used, and with no negative total. */
  lemma {:induction false} DraftAcceptedIff(s: Store, id: Id, r: DraftRequest, today: Date)
    ensures CreateDraft(s, id, r, today).Ok?
        <==> && r.lines != [] && (forall line :: line in r.lines ==> ValidLine(line)) && ValidDiscount(r.discount)
             && r.companyId in s.companies && r.clientId in s.clients && s.clients[r.clientId].companyId == r.companyId
             && id !in s.usedIds
             && var d := NewDraft(s.companies[r.companyId], r, today);
                d.subtotal >= 0 && d.totalDiscount >= 0 && d.totalVat >= 0 && d.totalTtc >= 0
  {
    hide NewDraft, ValidLine;
  }

  lemma {:induction false} DraftEffect(s: Store, id: Id, r: DraftRequest, today: Date)
    requires CreateDraft(s, id, r, today).Ok?
    ensures var s' := CreateDraft(s, id, r, today).value;
            && r.companyId in s.companies && id !in s.usedIds && id in s'.invoices
            && DraftOf(s'.invoices[id], r, s.companies[r.companyId], today)
            && s' == s.(invoices := s.invoices[id := s'.invoices[id]], usedIds := s.usedIds + {id},
                        audit := s.audit + [AuditEntry(Create, "invoice", Some(id))])
  {
    NewDraftIs(r, s.companies[r.companyId], today);
    hide NewDraft, ValidRequest, DraftOf;
  }

  /** Percentages of at most one hundred never make a total negative, so such a request is accepted whenever its
      client is there and its identifier is free. */
  lemma {:induction false} ModestDraftAccepted(s: Store, id: Id, r: DraftRequest, today: Date)
    requires r.lines != [] && ValidLines(r.lines) && ValidDiscount(r.discount) && ModestDiscounts(r.lines, r.discount)
    requires r.companyId in s.companies && r.clientId in s.clients && s.clients[r.clientId].companyId == r.companyId && id !in s.usedIds
    ensures CreateDraft(s, id, r, today).Ok?
  {
    DraftAcceptedIff(s, id, r, today);
    var d := NewDraft(s.companies[r.companyId], r, today);
    NewDraftIs(r, s.companies[r.companyId], today);
    hide NewDraft, TotalsOf, CreateDraft;
    StillModest(r.lines, d.lines, r.discount);
    TotalsNonNegative(d.lines, r.discount, d.currency);
  }

  lemma {:induction false} StillModest(lines: seq<InvoiceLine>, numbered: seq<InvoiceLine>, discount: Option<Discount>)
    requires ValidLines(lines) && ModestDiscounts(lines, discount)
    requires |numbered| == |lines| && forall i :: 0 <= i < |lines| ==> numbered[i] == lines[i].(lineNumber := i + 1)
    ensures ValidLines(numbered) && ModestDiscounts(numbered, discount)
  {
    forall i | 0 <= i < |lines| ensures ValidLine(numbered[i]) {
      assert ValidLine(lines[i]);
    }
  }

  /** Only drafts can be deleted, and deleting a new draft takes the row away again, not its identifier. */
  lemma {:induction false} DeletionAcceptedIff(s: Store, id: Id)
    ensures DeleteDraft(s, id).Ok? <==> id in s.invoices && s.invoices[id].status == Draft
    ensures DeleteDraft(s, id).Ok? ==>
      DeleteDraft(s, id).value == s.(
        invoices := map x | x in s.invoices && x != id :: s.invoices[x], audit := s.audit + [AuditEntry(Delete, "invoice", Some(id))])
  {
  }

  lemma {:induction false} DeletionUndoesDraft(s: Store, id: Id, r: DraftRequest, today: Date)
    requires IdsOk(s) && CreateDraft(s, id, r, today).Ok?
    ensures var back := DeleteDraft(CreateDraft(s, id, r, today).value, id);
            && back.Ok?
            && back.value == s.(usedIds := s.usedIds + {id},
                 audit := s.audit + [AuditEntry(Create, "invoice", Some(id)), AuditEntry(Delete, "invoice", Some(id))])
  {
    DraftEffect(s, id, r, today);
    DeletionAcceptedIff(CreateDraft(s, id, r, today).value, id);
    hide CreateDraft, DeleteDraft, TotalsOf;
    var s' := CreateDraft(s, id, r, today).value;
    assert (map x | x in s'.invoices && x != id :: s'.invoices[x]) == s.invoices;
    assert s'.audit + [AuditEntry(Delete, "invoice", Some(id))]
        == s.audit + [AuditEntry(Create, "invoice", Some(id)), AuditEntry(Delete, "invoice", Some(id))];
  }

  /** A copy describes the same sale as its source: same parties, lines, discount, texts and currency, priced the
      same. It is dated anew, has no due date, and nothing that identifies the source. */
  ghost predicate CopyOf(copy: Invoice, source: Invoice, onDate: Option<Date>, today: Date) {
    && IssuedOn(copy.issueDate, onDate, today) && copy.dueDate == None
    && copy.reference == None && copy.sequence == None && copy.status == Draft
    && copy.voidedAt == None && copy.voidedReason == None && copy.voidedBy == None
    && copy.companyId == source.companyId && copy.clientId == source.clientId && copy.currency == source.currency
    && |copy.lines| == |source.lines|
    && (forall i :: 0 <= i < |source.lines| ==> copy.lines[i] == source.lines[i].(lineNumber := i + 1))
    && copy.discount == source.discount && copy.comments == source.comments && copy.paymentTerms == source.paymentTerms
    && copy.template == source.template
    && copy.subtotal == source.subtotal && copy.totalDiscount == source.totalDiscount
    && copy.totalVat == source.totalVat && copy.totalTtc == source.totalTtc
  }

  /** In every sound ledger any invoice can be duplicated under a fresh identifier, whatever became of it. */
  lemma {:induction false} DuplicateAcceptedIff(s: Store, sourceId: Id, id: Id, onDate: Option<Date>, today: Date)
    requires Inv(s)
    ensures Duplicate(s, sourceId, id, onDate, today).Ok? <==> sourceId in s.invoices && id !in s.usedIds
    ensures Duplicate(s, sourceId, id, onDate, today).Ok? ==>
      var s' := Duplicate(s, sourceId, id, onDate, today).value;
      && id in s'.invoices && CopyOf(s'.invoices[id], s.invoices[sourceId], onDate, today)
      && s' == s.(invoices := s.invoices[id := s'.invoices[id]], usedIds := s.usedIds + {id},
                  audit := s.audit + [AuditEntry(Create, "invoice", Some(id))])
  {
    hide *;
    if sourceId in s.invoices {
      var source := s.invoices[sourceId];
      var r := DraftRequest(source.companyId, source.clientId, source.lines, Some(if onDate.Some? then onDate.value else today), None,
                            source.discount, source.comments, source.paymentTerms, Some(source.template), Some(source.currency));
      DuplicateIs(s, sourceId, id, onDate, today, r);
      SourceSound(s, sourceId);
      var d := NewDraft(s.companies[r.companyId], r, today);
      NewDraftIs(r, s.companies[r.companyId], today);
      CopyIs(d, r, s.companies[r.companyId], source, onDate, today);
      DraftAcceptedIff(s, id, r, today);
      if id !in s.usedIds {
        DraftEffect(s, id, r, today);
        CopyIs(CreateDraft(s, id, r, today).value.invoices[id], r, s.companies[r.companyId], source, onDate, today);
      }
    } else {
      NoSource(s, sourceId, id, onDate, today);
    }
  }

  lemma {:induction false} NoSource(s: Store, sourceId: Id, id: Id, onDate: Option<Date>, today: Date)
    requires sourceId !in s.invoices
    ensures Duplicate(s, sourceId, id, onDate, today).Err?
  {
  }

  lemma {:induction false} DuplicateIs(s: Store, sourceId: Id, id: Id, onDate: Option<Date>, today: Date, r: DraftRequest)
    requires sourceId in s.invoices
    requires var source := s.invoices[sourceId];
      r == DraftRequest(source.companyId, source.clientId, source.lines, Some(if onDate.Some? then onDate.value else today), None,
                        source.discount, source.comments, source.paymentTerms, Some(source.template), Some(source.currency))
    ensures Duplicate(s, sourceId, id, onDate, today) == CreateDraft(s, id, r, today)
  {
    hide CreateDraft;
  }

  lemma {:induction false} SourceSound(s: Store, id: Id)
    requires Inv(s) && id in s.invoices
    ensures var inv := s.invoices[id];
            && inv.companyId in s.companies && inv.clientId in s.clients && s.clients[inv.clientId].companyId == inv.companyId
            && inv.lines != [] && (forall line :: line in inv.lines ==> ValidLine(line)) && ValidDiscount(inv.discount)
            && TotalsFrozen(inv.lines, inv.discount, inv.currency, inv.subtotal, inv.totalDiscount, inv.totalVat, inv.totalTtc)
  {
    InvoiceFacts(s, id);
    hide Inv, TotalsFrozen, LifecycleOk, PaidMatches, ValidLine, ValidDiscount;
  }

  lemma {:induction false} CopyIs(copy: Invoice, r: DraftRequest, company: Company, source: Invoice, onDate: Option<Date>, today: Date)
    requires DraftOf(copy, r, company, today)
    requires r == DraftRequest(source.companyId, source.clientId, source.lines, Some(if onDate.Some? then onDate.value else today), None,
                               source.discount, source.comments, source.paymentTerms, Some(source.template), Some(source.currency))
    requires TotalsFrozen(source.lines, source.discount, source.currency, source.subtotal, source.totalDiscount, source.totalVat, source.totalTtc)
    ensures CopyOf(copy, source, onDate, today)
    ensures copy.subtotal >= 0 && copy.totalDiscount >= 0 && copy.totalVat >= 0 && copy.totalTtc >= 0
  {
    hide TotalsOf;
    NumbersDoNotPrice(source.lines, copy.lines, source.discount, source.currency);
  }

  /** Line numbers do not enter any amount. */
  lemma {:induction false} NumbersDoNotPrice(a: seq<InvoiceLine>, b: seq<InvoiceLine>, discount: Option<Discount>, cur: Currency)
    requires |a| == |b| && forall i :: 0 <= i < |a| ==> b[i] == a[i].(lineNumber := i + 1)
    ensures TotalsOf(b, discount, cur) == TotalsOf(a, discount, cur)
  {
    hide *;
    if a == [] {
      assert a == b;
    } else {
      SameFigures(a, b);
      SameAllocation(a, b, discount);
      SameTaxes(a, b, discount);
      SixTotals(a, discount, cur);
      SixTotals(b, discount, cur);
    }
  }

  lemma {:induction false} SameFigures(a: seq<InvoiceLine>, b: seq<InvoiceLine>)
    requires |a| == |b| && forall i :: 0 <= i < |a| ==> b[i] == a[i].(lineNumber := i + 1)
    ensures Grosses(b) == Grosses(a) && LineDiscounts(b) == LineDiscounts(a) && NetsPre(b) == NetsPre(a)
  {
    forall i | 0 <= i < |a|
      ensures Grosses(b)[i] == Grosses(a)[i] && LineDiscounts(b)[i] == LineDiscounts(a)[i] && NetsPre(b)[i] == NetsPre(a)[i]
    {
      assert Gross(b[i]) == Gross(a[i]);
    }
    assert Grosses(b) == Grosses(a);
  }

  lemma {:induction false} SameAllocation(a: seq<InvoiceLine>, b: seq<InvoiceLine>, discount: Option<Discount>)
    requires |a| == |b| && NetsPre(b) == NetsPre(a)
    ensures AllocatedNets(b, discount) == AllocatedNets(a, discount)
    ensures NetExact(b, discount) == NetExact(a, discount) && DocumentDiscount(b, discount) == DocumentDiscount(a, discount)
  {
    hide Sum, DiscountAmount, NetAfter, NetPre;
    assert TotalPre(b) == TotalPre(a);
    assert forall i :: 0 <= i < |a| ==> NetsPre(a)[i] == NetPre(a[i]) && NetsPre(b)[i] == NetPre(b[i]);
  }

  lemma {:induction false} SameTaxes(a: seq<InvoiceLine>, b: seq<InvoiceLine>, discount: Option<Discount>)
    requires |a| == |b| && forall i :: 0 <= i < |a| ==> b[i] == a[i].(lineNumber := i + 1)
    requires AllocatedNets(b, discount) == AllocatedNets(a, discount)
    ensures VatExact(b, discount) == VatExact(a, discount)
    ensures BreakdownOf(b, AllocatedNets(b, discount)) == BreakdownOf(a, AllocatedNets(a, discount))
  {
    hide AllocatedNets, VatOn, Sum, GroupSum;
    assert VatsOn(b, AllocatedNets(b, discount)) == VatsOn(a, AllocatedNets(a, discount));
    assert RatesOf(b) == RatesOf(a);
  }

  // ------------------------------------------------------------------ voids and credit notes

  /** A void needs a reason that is not blank and an invoice not voided yet, issued or not. */
  lemma {:induction false} VoidAcceptedIff(s: Store, id: Id, reason: string, now: Date)
    ensures VoidInvoice(s, id, reason, now).Ok?
        <==> && (exists i :: 0 <= i < |reason| && !IsSpace(reason[i]))
             && id in s.invoices && s.invoices[id].status != Voided
    ensures VoidInvoice(s, id, reason, now).Ok? ==>
      VoidInvoice(s, id, reason, now).value == s.(
        invoices := s.invoices[id := s.invoices[id].(status := Voided, voidedAt := Some(now), voidedReason := Some(reason))],
        audit := s.audit + [AuditEntry(Void, "invoice", Some(id))])
  {
    hide IsSpace;
  }

  /** The credit note of an invoice: its parties, currency and totals, and its lines without their discounts. */
  ghost predicate NoteOn(note: CreditNote, inv: Invoice, id: Id, reason: string, issued: Date) {
    && note.companyId == inv.companyId && note.clientId == inv.clientId && note.invoiceId == id
    && note.issueDate == issued && note.reason == reason && note.currency == inv.currency
    && note.subtotal == inv.subtotal && note.totalVat == inv.totalVat && note.totalTtc == inv.totalTtc
    && |note.lines| == |inv.lines|
    && forall i :: 0 <= i < |inv.lines| ==>
         var a, b := note.lines[i], inv.lines[i];
         && a.lineNumber == b.lineNumber && a.description == b.description && a.productId == b.productId
         && a.quantity == b.quantity && a.unitPrice == b.unitPrice && a.category == b.category && a.rate == b.rate
  }

  /** A credit note takes the next number of its series and voids its invoice on its own date. */
  lemma {:induction false} NoteEffect(s: Store, noteId: Id, id: Id, reason: string, issued: Date)
    requires IssueCreditNote(s, noteId, id, reason, issued).Ok?
    ensures var s' := IssueCreditNote(s, noteId, id, reason, issued).value;
            && id in s.invoices && s.invoices[id].companyId in s.companies && noteId in s'.notes
            && var inv := s.invoices[id];
            && NoteOn(s'.notes[noteId], inv, id, reason, issued)
            && s'.notes[noteId].sequence == CounterOf(s.counters, Scope(inv.companyId, CREDIT_NOTE_SERIES)) + 1
            && s'.notes[noteId].reference == "CN-" + s.companies[inv.companyId].prefix + Decimal(issued.year) + "/"
                                             + Padded(s'.notes[noteId].sequence, 4)
            && CounterOf(s'.counters, Scope(inv.companyId, CREDIT_NOTE_SERIES)) == s'.notes[noteId].sequence
            && (forall scope :: scope != Scope(inv.companyId, CREDIT_NOTE_SERIES) ==>
                  CounterOf(s'.counters, scope) == CounterOf(s.counters, scope))
            && s' == s.(invoices := s.invoices[id := inv.(status := Voided, voidedAt := Some(issued), voidedReason := Some(reason),
                                                          voidedBy := Some(noteId))],
                        notes := s.notes[noteId := s'.notes[noteId]], counters := s'.counters, usedIds := s.usedIds + {noteId},
                        audit := s.audit + [AuditEntry(Create, "credit_note", Some(noteId)), AuditEntry(Void, "invoice", Some(id))])
  {
    hide NoteKeyTaken, Blank, Padded, Decimal;
    var s' := IssueCreditNote(s, noteId, id, reason, issued).value;
    assert s.audit + [AuditEntry(Create, "credit_note", Some(noteId))] + [AuditEntry(Void, "invoice", Some(id))]
        == s.audit + [AuditEntry(Create, "credit_note", Some(noteId)), AuditEntry(Void, "invoice", Some(id))];
  }

  /** Which credit notes are accepted: those with a reason, from the year 1000 on, under a fresh identifier, on an
      invoice that is there and not voided yet. The unique constraints never refuse one. */
  lemma {:induction false} NoteAcceptedIff(s: Store, noteId: Id, id: Id, reason: string, issued: Date)
    requires Inv(s) && SeriesRefsOk(s)
    ensures IssueCreditNote(s, noteId, id, reason, issued).Ok?
        <==> && (exists i :: 0 <= i < |reason| && !IsSpace(reason[i]))
             && id in s.invoices && s.invoices[id].status != Voided
             && issued.year >= 1000 && noteId !in s.usedIds
  {
    hide *;
    NotBlankIff(reason);
    if id in s.invoices && issued.year >= 1000 {
      SourceSound(s, id);
      var inv := s.invoices[id];
      var sequence := Counter(s, inv.companyId, CREDIT_NOTE_SERIES) + 1;
      var prefix := s.companies[inv.companyId].prefix;
      SeriesReferenceExists(prefix, issued, sequence);
      var note := NoteFor(inv, id, CreditNoteReference(prefix, issued.year, sequence).value, sequence, issued, reason);
      NoteFields(inv, id, CreditNoteReference(prefix, issued.year, sequence).value, sequence, issued, reason);
      NextNoteIsFree(s, note, prefix, issued.year);
      NoteAccepted(s, noteId, id, reason, issued);
    } else {
      NoteRefused(s, noteId, id, reason, issued);
    }
  }

  lemma {:induction false} NotBlankIff(reason: string)
    ensures !Blank(Some(reason)) <==> exists i :: 0 <= i < |reason| && !IsSpace(reason[i])
  {
    hide IsSpace;
  }

  lemma {:induction false} SeriesReferenceExists(prefix: string, issued: Date, sequence: nat)
    requires issued.year >= 1000 && sequence >= 1
    ensures CreditNoteReference(prefix, issued.year, sequence).Some? && QuoteReference(prefix, issued.year, sequence).Some?
  {
  }

  lemma {:induction false} NoteFields(inv: Invoice, id: Id, reference: string, sequence: nat, issued: Date, reason: string)
    ensures var note := NoteFor(inv, id, reference, sequence, issued, reason);
            note.companyId == inv.companyId && note.sequence == sequence && note.reference == reference
  {
    hide MirroredLines;
  }

  lemma {:induction false} NoteAccepted(s: Store, noteId: Id, id: Id, reason: string, issued: Date)
    requires id in s.invoices && s.invoices[id].companyId in s.companies
    ensures var inv := s.invoices[id];
            var sequence := Counter(s, inv.companyId, CREDIT_NOTE_SERIES) + 1;
            var reference := CreditNoteReference(s.companies[inv.companyId].prefix, issued.year, sequence);
            IssueCreditNote(s, noteId, id, reason, issued).Ok?
            <==> && !Blank(Some(reason)) && inv.status != Voided && reference.Some? && noteId !in s.usedIds
                 && !NoteKeyTaken(s.notes, NoteFor(inv, id, reference.value, sequence, issued, reason))
  {
    hide CreditNoteReference, NoteKeyTaken, NoteFor, Blank;
  }

  lemma {:induction false} NoteRefused(s: Store, noteId: Id, id: Id, reason: string, issued: Date)
    requires id !in s.invoices || issued.year < 1000
    ensures IssueCreditNote(s, noteId, id, reason, issued).Err?
  {
    hide NoteKeyTaken, NoteFor, Blank;
  }
}
