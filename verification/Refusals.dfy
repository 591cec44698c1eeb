// Why the use-cases of core/services/*.py refuse, error by error. A refusal leaves the ledger as it was.
module Refusals {
  import opened Common
  import opened Calendar
  import opened Money
  import opened Lines
  import opened Compliance
  import opened CurrencyMath
  import opened Decimals
  import opened Numbering
  import opened Store
  import opened Transactions
  import opened LedgerInvariant
  import opened LedgerReferences
  import opened LedgerEffects
  import opened DocumentEffects
  import opened SeriesReferences
  import opened QuoteEffects
  import opened Conversion

  /** A refused command changes nothing at all, not even a counter it had drawn. */
  lemma {:induction false} RefusedChangesNothing(s: Store, c: Command)
    ensures Execute(s, c).Err? ==> Step(s, c) == s
    ensures Execute(s, c).Ok? ==> Step(s, c) == Execute(s, c).value
  {
    hide Execute;
  }

  // ------------------------------------------------------------------ drafts

  ghost predicate NegativeTotal(s: Store, r: DraftRequest, today: Date) {
    r.companyId in s.companies
    && var d := NewDraft(s.companies[r.companyId], r, today);
       d.subtotal < 0 || d.totalDiscount < 0 || d.totalVat < 0 || d.totalTtc < 0
  }

  /** Each error of a refused draft, and what it means. */
  lemma {:induction false} DraftRefused(s: Store, id: Id, r: DraftRequest, today: Date)
    ensures var wellFormed := r.lines != [] && (forall line :: line in r.lines ==> ValidLine(line)) && ValidDiscount(r.discount);
            var known := r.companyId in s.companies && r.clientId in s.clients;
            var own := known && s.clients[r.clientId].companyId == r.companyId;
            var result := CreateDraft(s, id, r, today);
            && (result == Err(NotFound) <==> wellFormed && !known)
            && (result == Err(BusinessRule) <==> r.lines == [] || (wellFormed && known && !own))
            && (result == Err(ValidationError) <==> r.lines != [] && (!wellFormed || (own && NegativeTotal(s, r, today))))
            && (result == Err(IntegrityError) <==> wellFormed && own && !NegativeTotal(s, r, today) && id in s.usedIds)
            && (result.Err? ==> result.error in {NotFound, BusinessRule, ValidationError, IntegrityError})
  {
    hide NewDraft, ValidLine, ValidDiscount;
  }

  lemma {:induction false} DeletionRefused(s: Store, id: Id)
    ensures DeleteDraft(s, id) == Err(NotFound) <==> id !in s.invoices
    ensures DeleteDraft(s, id) == Err(BusinessRule) <==> id in s.invoices && s.invoices[id].status != Draft
  {
  }

  // ------------------------------------------------------------------ issue

  /** An issue is refused for one reason at a time: no such invoice; not a draft; no due date before the calendar ends;
      the gate; a year of three digits; another client's invoice with the reference. */
  lemma {:induction false} IssueRefused(s: Store, id: Id, onDate: Option<Date>, dueDate: Option<Date>, party: seq<Finding>)
    requires Inv(s) && RefsOk(s)
    ensures var r := IssueInvoice(s, id, onDate, dueDate, party);
            && (r == Err(NotFound) <==> id !in s.invoices)
            && (r == Err(BusinessRule) <==> id in s.invoices && s.invoices[id].status != Draft)
            && (id in s.invoices && s.invoices[id].status == Draft ==>
                  var inv := s.invoices[id];
                  var issued := if onDate.Some? then onDate.value else inv.issueDate;
                  && inv.clientId in s.clients
                  && (r == Err(OverflowError) <==> dueDate.None? && inv.dueDate.None? && Ordinal(issued) + 30 > LAST_DAY)
                  && (r == Err(ValueError) ==> issued.year < 1000)
                  && (r == Err(IntegrityError) ==> issued.year >= 1000 && NamesakeHolds(s, id, issued)))
  {
    hide *;
    PartiesThere(s, id);
    if id in s.invoices && s.invoices[id].status == Draft {
      var inv := s.invoices[id];
      var issued := if onDate.Some? then onDate.value else inv.issueDate;
      DueIs(inv, issued, dueDate);
      var due := EffectiveDueDate(inv, issued, dueDate);
      if due.Some? {
        NumberRefusals(s, id, issued, due.value);
        if issued.year >= 1000 {
          ConstraintRefusesIff(s, id, issued, due.value);
        }
      }
      IssuePath(s, id, onDate, dueDate, party);
    } else {
      NotADraft(s, id, onDate, dueDate, party);
    }
  }

  lemma {:induction false} NotADraft(s: Store, id: Id, onDate: Option<Date>, dueDate: Option<Date>, party: seq<Finding>)
    requires id !in s.invoices || s.invoices[id].status != Draft
    ensures IssueInvoice(s, id, onDate, dueDate, party) == if id in s.invoices then Err(BusinessRule) else Err(NotFound)
  {
  }

  lemma {:induction false} IssuePath(s: Store, id: Id, onDate: Option<Date>, dueDate: Option<Date>, party: seq<Finding>)
    requires id in s.invoices && s.invoices[id].status == Draft
    requires s.invoices[id].companyId in s.companies && s.invoices[id].clientId in s.clients
    ensures var issued := if onDate.Some? then onDate.value else s.invoices[id].issueDate;
            var due := EffectiveDueDate(s.invoices[id], issued, dueDate);
            var r := IssueInvoice(s, id, onDate, dueDate, party);
            if due.None? then r == Err(OverflowError)
            else r == NumberInvoice(s, id, issued, due.value) || (r.Err? && r.error.NotCompliant?)
  {
    hide NumberInvoice, EffectiveDueDate, IssueFindings;
  }

  lemma {:induction false} NumberRefusals(s: Store, id: Id, issued: Date, due: Date)
    requires id in s.invoices && s.invoices[id].companyId in s.companies && s.invoices[id].clientId in s.clients
    ensures var r := NumberInvoice(s, id, issued, due);
            && (r.Err? ==> r.error in {ValueError, IntegrityError})
            && (r == Err(IntegrityError) ==> issued.year >= 1000)
            && (r == Err(ValueError) ==> issued.year < 1000)
  {
    BucketCounter(s.counters, s.invoices[id], issued);
    hide InvoiceNumbers, BucketScope, InvoiceKeyTaken, IssuedInvoice, ClientInitials, Padded;
  }

  // ------------------------------------------------------------------ voids, credit notes, payments

  /** Each error of a refused void, and what it means; so for the others below. */
  lemma {:induction false} VoidRefused(s: Store, id: Id, reason: string, now: Date)
    ensures var r := VoidInvoice(s, id, reason, now);
            && (r == Err(NotFound) <==> !Blank(Some(reason)) && id !in s.invoices)
            && (r == Err(BusinessRule) <==> Blank(Some(reason)) || (id in s.invoices && s.invoices[id].status == Voided))
            && (r.Err? ==> r.error in {NotFound, BusinessRule})
  {
    hide Blank;
  }

  lemma {:induction false} NoteRefusedFor(s: Store, noteId: Id, id: Id, reason: string, issued: Date)
    requires Inv(s) && SeriesRefsOk(s)
    ensures var r := IssueCreditNote(s, noteId, id, reason, issued);
            && (r == Err(NotFound) <==> !Blank(Some(reason)) && id !in s.invoices)
            && (r == Err(BusinessRule) <==> Blank(Some(reason)) || (id in s.invoices && s.invoices[id].status == Voided))
            && (r == Err(ValueError) <==> !Blank(Some(reason)) && id in s.invoices && s.invoices[id].status != Voided && issued.year < 1000)
            && (r == Err(IntegrityError) <==>
                  !Blank(Some(reason)) && id in s.invoices && s.invoices[id].status != Voided && issued.year >= 1000 && noteId in s.usedIds)
  {
    hide *;
    NoteAcceptedIff(s, noteId, id, reason, issued);
    NotBlankIff(reason);
    if id in s.invoices {
      SourceSound(s, id);
    }
    NotePath(s, noteId, id, reason, issued);
  }

  lemma {:induction false} NotePath(s: Store, noteId: Id, id: Id, reason: string, issued: Date)
    requires id in s.invoices ==> s.invoices[id].companyId in s.companies
    ensures var r := IssueCreditNote(s, noteId, id, reason, issued);
            if Blank(Some(reason)) then r == Err(BusinessRule)
            else if id !in s.invoices then r == Err(NotFound)
            else if s.invoices[id].status == Voided then r == Err(BusinessRule)
            else if issued.year < 1000 then r == Err(ValueError)
            else r.Ok? || r == Err(IntegrityError)
  {
    hide Blank, NoteKeyTaken, Padded;
  }

  lemma {:induction false} PaymentRefused(s: Store, id: Id, amount: real, paidOn: Date, reference: Option<string>)
    ensures var r := RecordPayment(s, id, amount, paidOn, reference);
            && (r == Err(NotFound) <==> id !in s.invoices)
            && (id in s.invoices ==>
                  var inv := s.invoices[id];
                  var open := inv.status != Draft && inv.status != Voided;
                  var within := AtMost(PaidOn(s.payments, id) + amount, inv.totalTtc, inv.currency);
                  && (r == Err(BusinessRule) <==> !open || !within)
                  && (r == Err(ValidationError) <==> open && within && amount <= 0.0))
  {
    if id in s.invoices {
      MajorIs(PaidOn(s.payments, id) + amount, s.invoices[id].totalTtc, s.invoices[id].currency);
    }
    hide Major, PaidOn, AtMost, Exactly;
  }

  // ------------------------------------------------------------------ quotes

  lemma {:induction false} MoveRefused(s: Store, id: Id, move: QuoteMove)
    ensures TransitionQuote(s, id, move) == Err(NotFound) <==> id !in s.quotes
    ensures TransitionQuote(s, id, move).Err? && id in s.quotes ==> TransitionQuote(s, id, move) == Err(BusinessRule)
  {
    hide AllowedTransition, MovedQuote;
  }

  lemma {:induction false} QuoteDeletionRefused(s: Store, id: Id)
    requires Inv(s)
    ensures DeleteQuote(s, id) == Err(NotFound) <==> id !in s.quotes
    ensures DeleteQuote(s, id) == Err(BusinessRule) <==> id in s.quotes && s.quotes[id].status == Converted
  {
    hide Inv;
    if id in s.quotes {
      LinkedIff(s, id);
    }
  }

  lemma {:induction false} ConversionRefused(s: Store, id: Id, invoiceId: Id, onDate: Option<Date>, dueDate: Option<Date>, today: Date)
    requires Inv(s) && OffersPriced(s)
    ensures var r := ConvertQuote(s, id, invoiceId, onDate, dueDate, today);
            && (r == Err(NotFound) <==> id !in s.quotes)
            && (r == Err(BusinessRule) <==> id in s.quotes && s.quotes[id].status != Accepted)
            && (r == Err(IntegrityError) <==> id in s.quotes && s.quotes[id].status == Accepted && invoiceId in s.usedIds)
  {
    hide *;
    ConversionAcceptedIff(s, id, invoiceId, onDate, dueDate, today);
    if id in s.quotes && s.quotes[id].status == Accepted {
      QuoteSound(s, id);
      DraftRefusedIff(s, s.quotes[id], invoiceId, onDate, dueDate, today);
      TakenIdentifier(s, s.quotes[id], invoiceId, onDate, dueDate, today);
    }
    ConversionPath(s, id, invoiceId, onDate, dueDate, today);
  }

  /** The draft of a sound offer fails at the identifier or not at all. */
  lemma {:induction false} TakenIdentifier(s: Store, q: Quote, invoiceId: Id, onDate: Option<Date>, dueDate: Option<Date>, today: Date)
    requires QuoteOk(s.companies, s.clients, q) && PricedOffer(q)
    ensures var r := CreateDraft(s, invoiceId, ConversionRequest(q, onDate, dueDate, today), today);
            r.Err? ==> r == Err(IntegrityError)
  {
    hide TotalsOf;
    DraftFromOffer(s.companies[q.companyId], q, onDate, dueDate, today);
  }

  lemma {:induction false} ConversionPath(s: Store, id: Id, invoiceId: Id, onDate: Option<Date>, dueDate: Option<Date>, today: Date)
    ensures var r := ConvertQuote(s, id, invoiceId, onDate, dueDate, today);
            if id !in s.quotes then r == Err(NotFound)
            else if s.quotes[id].status != Accepted then r == Err(BusinessRule)
            else CreateDraft(s, invoiceId, ConversionRequest(s.quotes[id], onDate, dueDate, today), today).Err? ==>
              r == CreateDraft(s, invoiceId, ConversionRequest(s.quotes[id], onDate, dueDate, today), today)
  {
    hide CreateDraft, TransitionQuote, ConversionRequest;
  }
}
