// What the steps of a quote's life accept and leave behind (core/services/quote_service.py), in the fields of the
// rows and of the request.
module QuoteEffects {
  import opened Common
  import opened Calendar
  import opened Money
  import opened Lines
  import opened CurrencyMath
  import opened Decimals
  import opened Numbering
  import opened Store
  import opened Transactions
  import opened LedgerInvariant
  import opened LedgerEffects
  import opened DocumentEffects
  import opened SeriesReferences
  import opened Conversion

  // ------------------------------------------------------------------ create

  /** The quote a request asks for: what was asked, or the company's defaults; lines numbered from one. */
  ghost predicate QuoteOf(q: Quote, r: QuoteRequest, company: Company, today: Date) {
    var t := TotalsOf(q.lines, r.discount, q.currency);
    && q.companyId == r.companyId && q.clientId == r.clientId && q.status == QuoteDraft
    && q.decisionNote == None && q.convertedInvoiceId == None
    && IssuedOn(q.issueDate, r.issueDate, today) && q.validUntil == r.validUntil
    && (r.currency.Some? ==> q.currency == r.currency.value) && (r.currency.None? ==> q.currency == company.defaultCurrency)
    && (r.template.Some? ==> q.template == r.template.value) && (r.template.None? ==> q.template == company.defaultTemplate)
    && |q.lines| == |r.lines| && (forall i :: 0 <= i < |r.lines| ==> q.lines[i] == r.lines[i].(lineNumber := i + 1))
    && q.discount == r.discount && q.comments == r.comments && q.terms == r.terms
    && q.subtotal == t.subtotal && q.totalDiscount == t.totalDiscount && q.totalVat == t.totalVat && q.totalTtc == t.totalTtc
  }

  lemma {:induction false} NewQuoteIs(company: Company, r: QuoteRequest, reference: string, sequence: nat, issued: Date, today: Date)
    requires issued == if r.issueDate.Some? then r.issueDate.value else today
    ensures var q := NewQuote(company, r, reference, sequence, issued);
            QuoteOf(q, r, company, today) && q.reference == reference && q.sequence == sequence
  {
    hide TotalsOf;
  }

  /** A new quote takes the next number of its series at once, a draft though it is. */
  lemma {:induction false} QuoteEffect(s: Store, id: Id, r: QuoteRequest, today: Date)
    requires CreateQuote(s, id, r, today).Ok?
    ensures var s' := CreateQuote(s, id, r, today).value;
            var series := Scope(r.companyId, QUOTE_SERIES);
            && r.companyId in s.companies && id !in s.usedIds && id in s'.quotes
            && QuoteOf(s'.quotes[id], r, s.companies[r.companyId], today)
            && s'.quotes[id].sequence == CounterOf(s.counters, series) + 1
            && s'.quotes[id].reference == "Q-" + s.companies[r.companyId].prefix + Decimal(s'.quotes[id].issueDate.year) + "/"
                                          + Padded(s'.quotes[id].sequence, 4)
            && s' == s.(quotes := s.quotes[id := s'.quotes[id]], usedIds := s.usedIds + {id},
                        counters := s.counters[series := s'.quotes[id].sequence],
                        audit := s.audit + [AuditEntry(Create, "quote", Some(id))])
  {
    var issued := if r.issueDate.Some? then r.issueDate.value else today;
    var sequence := Counter(s, r.companyId, QUOTE_SERIES) + 1;
    hide NewQuote, Padded, Decimal, QuoteKeyTaken, ValidRequest, ValidTotals, QuoteOf;
    var reference := QuoteReference(s.companies[r.companyId].prefix, issued.year, sequence).value;
    NewQuoteIs(s.companies[r.companyId], r, reference, sequence, issued, today);
    QuoteDated(s.companies[r.companyId], r, reference, sequence, issued);
  }

  lemma {:induction false} QuoteDated(company: Company, r: QuoteRequest, reference: string, sequence: nat, issued: Date)
    ensures NewQuote(company, r, reference, sequence, issued).issueDate == issued
    ensures NewQuote(company, r, reference, sequence, issued).companyId == r.companyId
  {
    hide TotalsOf;
  }

  /** Which quotes are accepted: like drafts, and not valid only until a day before they are issued. The unique
      constraints never refuse one. */
  lemma {:induction false} QuoteAcceptedIff(s: Store, id: Id, r: QuoteRequest, today: Date)
    requires Inv(s) && SeriesRefsOk(s)
    ensures var issued := if r.issueDate.Some? then r.issueDate.value else today;
            CreateQuote(s, id, r, today).Ok?
            <==>
             && r.lines != [] && (forall line :: line in r.lines ==> ValidLine(line)) && ValidDiscount(r.discount)
             && (r.validUntil.Some? ==> Ordinal(issued) <= Ordinal(r.validUntil.value)) && issued.year >= 1000
             && r.companyId in s.companies && r.clientId in s.clients && s.clients[r.clientId].companyId == r.companyId
             && id !in s.usedIds
             && var q := NewQuote(s.companies[r.companyId], r, "", 0, issued);
                q.subtotal >= 0 && q.totalDiscount >= 0 && q.totalVat >= 0 && q.totalTtc >= 0
  {
    hide *;
    var issued := if r.issueDate.Some? then r.issueDate.value else today;
    if r.validUntil.Some? {
      OrdinalOrders(r.validUntil.value, issued);
    }
    if r.companyId in s.companies && issued.year >= 1000 {
      var company, sequence := s.companies[r.companyId], Counter(s, r.companyId, QUOTE_SERIES) + 1;
      SeriesReferenceExists(company.prefix, issued, sequence);
      var reference := QuoteReference(company.prefix, issued.year, sequence).value;
      NewQuoteIs(company, r, reference, sequence, issued, today);
      QuoteDated(company, r, reference, sequence, issued);
      NextQuoteIsFree(s, NewQuote(company, r, reference, sequence, issued), company.prefix, issued.year);
      NumberDoesNotPrice(company, r, reference, sequence, issued);
    } else {
      EarlyQuoteRefused(s, id, r, today);
    }
    QuoteAccepted(s, id, r, today);
  }

  lemma {:induction false} NumberDoesNotPrice(company: Company, r: QuoteRequest, reference: string, sequence: nat, issued: Date)
    ensures var a, b := NewQuote(company, r, reference, sequence, issued), NewQuote(company, r, "", 0, issued);
            a.subtotal == b.subtotal && a.totalDiscount == b.totalDiscount && a.totalVat == b.totalVat && a.totalTtc == b.totalTtc
  {
    hide TotalsOf;
  }

  lemma {:induction false} EarlyQuoteRefused(s: Store, id: Id, r: QuoteRequest, today: Date)
    requires var issued := if r.issueDate.Some? then r.issueDate.value else today; r.companyId !in s.companies || issued.year < 1000
    ensures CreateQuote(s, id, r, today).Err?
  {
    hide NewQuote, QuoteKeyTaken, ValidRequest, ValidTotals;
  }

  lemma {:induction false} QuoteAccepted(s: Store, id: Id, r: QuoteRequest, today: Date)
    ensures var issued := if r.issueDate.Some? then r.issueDate.value else today;
            var sequence := Counter(s, r.companyId, QUOTE_SERIES) + 1;
            r.companyId in s.companies ==>
            var company := s.companies[r.companyId];
            var reference := QuoteReference(company.prefix, issued.year, sequence);
            (CreateQuote(s, id, r, today).Ok?
             <==> && r.lines != [] && (forall line :: line in r.lines ==> ValidLine(line)) && ValidDiscount(r.discount)
                  && (r.validUntil.Some? ==> !Before(r.validUntil.value, issued))
                  && r.clientId in s.clients && s.clients[r.clientId].companyId == r.companyId
                  && reference.Some? && id !in s.usedIds
                  && var q := NewQuote(company, r, reference.value, sequence, issued);
                     && q.subtotal >= 0 && q.totalDiscount >= 0 && q.totalVat >= 0 && q.totalTtc >= 0
                     && !QuoteKeyTaken(s.quotes, q))
  {
    hide NewQuote, QuoteReference, QuoteKeyTaken, ValidLine, ValidDiscount, Before;
  }

  // ------------------------------------------------------------------ the life of a quote

  /** How far a quote has come: drafted, sent, decided, converted. */
  function StageOf(status: QuoteStatus): nat {
    match status
    case QuoteDraft => 0
    case Sent => 1
    case Accepted => 2
    case Rejected => 2
    case Expired => 2
    case Converted => 3
  }

  /** A move is accepted exactly when it leads one stage on, and from a decision only if that was to accept. */
  lemma {:induction false} MoveAcceptedIff(s: Store, id: Id, move: QuoteMove)
    ensures TransitionQuote(s, id, move).Ok?
        <==> && id in s.quotes
             && StageOf(TargetOf(move)) == StageOf(s.quotes[id].status) + 1
             && s.quotes[id].status != Rejected && s.quotes[id].status != Expired
  {
    hide MovedQuote;
  }

  /** Where each move leads. An accepted or rejected quote carries the note of that decision, a converted one the
      invoice made from it; nothing else about it changes. */
  lemma {:induction false} MoveEffect(s: Store, id: Id, move: QuoteMove)
    requires TransitionQuote(s, id, move).Ok?
    ensures var s', q := TransitionQuote(s, id, move).value, s.quotes[id];
            && id in s'.quotes
            && s' == s.(quotes := s.quotes[id := s'.quotes[id]], audit := s.audit + [AuditEntry(Update, "quote", Some(id))])
            && (move == MarkSent ==> s'.quotes[id] == q.(status := Sent))
            && (move == Expire ==> s'.quotes[id] == q.(status := Expired))
            && (forall note :: move == Accept(note) ==> s'.quotes[id] == q.(status := Accepted, decisionNote := note))
            && (forall note :: move == Reject(note) ==> s'.quotes[id] == q.(status := Rejected, decisionNote := note))
            && (forall x :: move == MarkConverted(x) ==> s'.quotes[id] == q.(status := Converted, convertedInvoiceId := Some(x)))
  {
    hide AllowedTransition;
  }

  /** A quote can be deleted at any stage but the last. */
  lemma {:induction false} QuoteDeletionAcceptedIff(s: Store, id: Id)
    requires Inv(s)
    ensures DeleteQuote(s, id).Ok? <==> id in s.quotes && StageOf(s.quotes[id].status) < 3
    ensures DeleteQuote(s, id).Ok? ==>
      DeleteQuote(s, id).value == s.(
        quotes := map x | x in s.quotes && x != id :: s.quotes[x],
        audit := s.audit + [AuditEntry(Delete, "quote", Some(id))])
  {
    hide *;
    if id in s.quotes {
      LinkedIff(s, id);
    }
    DeletionIs(s, id);
  }

  lemma {:induction false} DeletionIs(s: Store, id: Id)
    ensures DeleteQuote(s, id).Ok? <==> id in s.quotes && StageOf(s.quotes[id].status) < 3 && s.quotes[id].convertedInvoiceId.None?
    ensures id in s.quotes ==> (StageOf(s.quotes[id].status) < 3 <==> s.quotes[id].status != Converted)
    ensures DeleteQuote(s, id).Ok? ==>
      DeleteQuote(s, id).value == s.(
        quotes := map x | x in s.quotes && x != id :: s.quotes[x],
        audit := s.audit + [AuditEntry(Delete, "quote", Some(id))])
  {
  }

  lemma {:induction false} LinkedIff(s: Store, id: Id)
    requires Inv(s) && id in s.quotes
    ensures s.quotes[id].status == Converted <==> s.quotes[id].convertedInvoiceId.Some?
  {
    QuoteIds(s);
    hide Inv, TotalsFrozen, SoundLines, SeriesOk;
    assert QuoteOk(s.companies, s.clients, s.quotes[id]);
  }

  // ------------------------------------------------------------------ conversion

  /** The draft made from a quote: its offer, dated as asked or today, due when asked. */
  ghost predicate DraftFrom(inv: Invoice, q: Quote, onDate: Option<Date>, dueDate: Option<Date>, today: Date) {
    && FromOffer(inv, q)
    && inv.status == Draft && inv.reference == None && inv.sequence == None
    && IssuedOn(inv.issueDate, onDate, today) && inv.dueDate == dueDate
    && inv.voidedAt == None && inv.voidedReason == None && inv.voidedBy == None
  }

  /** With nothing in between, a conversion succeeds exactly on an accepted quote under a fresh identifier. It
      leaves one draft of the offer and a quote that is converted to it. */
  lemma {:induction false} ConversionAcceptedIff(s: Store, id: Id, invoiceId: Id, onDate: Option<Date>, dueDate: Option<Date>, today: Date)
    requires Inv(s) && OffersPriced(s)
    ensures var r := ConvertQuote(s, id, invoiceId, onDate, dueDate, today);
            && (r.Ok? <==> id in s.quotes && s.quotes[id].status == Accepted && invoiceId !in s.usedIds)
            && (r.Ok? ==>
                  && invoiceId in r.value.invoices && DraftFrom(r.value.invoices[invoiceId], s.quotes[id], onDate, dueDate, today)
                  && r.value == s.(
                       invoices := s.invoices[invoiceId := r.value.invoices[invoiceId]],
                       quotes := s.quotes[id := s.quotes[id].(status := Converted, convertedInvoiceId := Some(invoiceId))],
                       usedIds := s.usedIds + {invoiceId},
                       audit := s.audit + [AuditEntry(Create, "invoice", Some(invoiceId)), AuditEntry(Update, "quote", Some(id))]))
  {
    hide *;
    if id in s.quotes && s.quotes[id].status == Accepted {
      var q := s.quotes[id];
      QuoteSound(s, id);
      var req := DraftRequest(q.companyId, q.clientId, q.lines, Some(if onDate.Some? then onDate.value else today), dueDate, q.discount,
                              q.comments, q.terms, Some(q.template), Some(q.currency));
      RequestIs(q, onDate, dueDate, today, req);
      DraftRefusedIff(s, q, invoiceId, onDate, dueDate, today);
      if invoiceId !in s.usedIds {
        var drafted := CreateDraft(s, invoiceId, req, today).value;
        DraftEffect(s, invoiceId, req, today);
        DraftIsFrom(drafted.invoices[invoiceId], q, s.companies[q.companyId], onDate, dueDate, today, req);
        MoveAcceptedIff(drafted, id, MarkConverted(invoiceId));
        Accepting(invoiceId);
        MoveEffect(drafted, id, MarkConverted(invoiceId));
        assert s.audit + [AuditEntry(Create, "invoice", Some(invoiceId))] + [AuditEntry(Update, "quote", Some(id))]
            == s.audit + [AuditEntry(Create, "invoice", Some(invoiceId)), AuditEntry(Update, "quote", Some(id))];
      }
      ConvertIs(s, id, invoiceId, onDate, dueDate, today, req);
    } else {
      NotAccepted(s, id, invoiceId, onDate, dueDate, today);
    }
  }

  lemma {:induction false} Accepting(invoiceId: Id)
    ensures StageOf(TargetOf(MarkConverted(invoiceId))) == 3 && StageOf(Accepted) == 2
  {
  }

  lemma {:induction false} QuoteSound(s: Store, id: Id)
    requires Inv(s) && OffersPriced(s) && id in s.quotes
    ensures var q := s.quotes[id]; QuoteOk(s.companies, s.clients, q) && PricedOffer(q) && q.companyId in s.companies
  {
    QuoteIds(s);
    hide Inv, PricedOffer, TotalsFrozen, SoundLines, SeriesOk;
    assert QuoteOk(s.companies, s.clients, s.quotes[id]);
  }

  lemma {:induction false} RequestIs(q: Quote, onDate: Option<Date>, dueDate: Option<Date>, today: Date, req: DraftRequest)
    requires req == DraftRequest(q.companyId, q.clientId, q.lines, Some(if onDate.Some? then onDate.value else today), dueDate, q.discount,
                                 q.comments, q.terms, Some(q.template), Some(q.currency))
    ensures ConversionRequest(q, onDate, dueDate, today) == req
  {
  }

  lemma {:induction false} DraftIsFrom(inv: Invoice, q: Quote, company: Company, onDate: Option<Date>, dueDate: Option<Date>, today: Date,
                                       req: DraftRequest)
    requires req == DraftRequest(q.companyId, q.clientId, q.lines, Some(if onDate.Some? then onDate.value else today), dueDate, q.discount,
                                 q.comments, q.terms, Some(q.template), Some(q.currency))
    requires DraftOf(inv, req, company, today) && PricedOffer(q)
    ensures DraftFrom(inv, q, onDate, dueDate, today)
  {
    OwnNumbers(inv.lines, q);
    hide TotalsOf, PricedOffer;
  }

  lemma {:induction false} OwnNumbers(lines: seq<InvoiceLine>, q: Quote)
    requires PricedOffer(q) && |lines| == |q.lines| && forall i :: 0 <= i < |lines| ==> lines[i] == q.lines[i].(lineNumber := i + 1)
    ensures lines == q.lines
    ensures var t := TotalsOf(q.lines, q.discount, q.currency);
            q.subtotal == t.subtotal && q.totalDiscount == t.totalDiscount && q.totalVat == t.totalVat && q.totalTtc == t.totalTtc
  {
    assert lines == Renumbered(q.lines);
    hide TotalsOf, Renumbered;
  }

  lemma {:induction false} ConvertIs(s: Store, id: Id, invoiceId: Id, onDate: Option<Date>, dueDate: Option<Date>, today: Date, req: DraftRequest)
    requires id in s.quotes && s.quotes[id].status == Accepted && req == ConversionRequest(s.quotes[id], onDate, dueDate, today)
    ensures var drafted := CreateDraft(s, invoiceId, req, today);
            ConvertQuote(s, id, invoiceId, onDate, dueDate, today)
            == if drafted.Err? then drafted else TransitionQuote(drafted.value, id, MarkConverted(invoiceId))
  {
    hide CreateDraft, TransitionQuote, ConversionRequest;
  }

  lemma {:induction false} NotAccepted(s: Store, id: Id, invoiceId: Id, onDate: Option<Date>, dueDate: Option<Date>, today: Date)
    requires id !in s.quotes || s.quotes[id].status != Accepted
    ensures ConvertQuote(s, id, invoiceId, onDate, dueDate, today).Err?
  {
    hide CreateDraft, TransitionQuote, ConversionRequest;
  }

  lemma {:induction false} RunKeepsOffers(s: Store, cs: seq<Command>)
    requires Inv(s) && OffersPriced(s)
    ensures OffersPriced(Run(s, cs))
  {
    hide Inv, OffersPriced, Step;
    if cs != [] {
      RunKeepsOffers(s, cs[..|cs| - 1]);
      RunKeepsInv(s, cs[..|cs| - 1]);
      StepKeepsOffersPriced(Run(s, cs[..|cs| - 1]), cs[|cs| - 1]);
    }
  }

  /** What the statements above ask of a ledger holds of every ledger an empty organization can reach. */
  lemma {:induction false} ReachableLedgers(cs: seq<Command>)
    ensures Inv(Run(EMPTY, cs)) && SeriesRefsOk(Run(EMPTY, cs)) && OffersPriced(Run(EMPTY, cs))
  {
    hide Inv, Run, SeriesRefsOk;
    var empty := EMPTY;
    EmptyStoreOk(empty);
    ReachableSeriesRefs(cs);
    RunKeepsOffers(empty, cs);
  }
}
